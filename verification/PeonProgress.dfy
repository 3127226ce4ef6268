/** Deferral cannot deadlock: from every reachable state some run empties the working lists. */
module PeonProgress {
  import opened PeonModel
  import opened PeonInvariants
  import opened PeonSteps
  import opened PeonTheorems
  import opened PeonFates
  import opened PeonPasses
  import opened PeonDynamics

  /** The peons that are to be drained: those with workers, all of them or all but the batch peon. */
  predicate Drained(r: PeonId, all: bool) {
    r != Recheck && (all || r != Dcb)
  }

  /** The tasks that wait for a worker of these peons or are in the hands of one. */
  ghost function Work(s: State, all: bool): set<Addr> {
    set a | a in s.place && s.place[a] != Gone && Drained(s.place[a].r, all)
  }

  ghost predicate Idle(s: State, all: bool) {
    forall r :: r in s.peons && Drained(r, all) ==> s.peons[r].busy == map[]
  }

  /** A batch being handled is dead, unless the batch peon is drained as well. */
  ghost predicate Muted(s: State, all: bool) {
    all || forall b :: b in s.heap && b in s.place && s.place[b] == Proc(Dcb) ==> s.heap[b].state == Dead
  }

  /** No live task is being handled, so nothing is deferred. */
  ghost predicate Quiet(s: State) {
    forall x :: x in s.heap && x in s.place && s.place[x].Proc? ==> s.heap[x].state == Dead
  }

  /** What does not concern the batch peon leaves pending numbers and dead batches being handled as they are. */
  ghost predicate Keeps(s: State, t: State, all: bool) {
    && t.pending == s.pending && s.log <= t.log
    && (!all ==> forall b :: b in t.place && t.place[b] == Proc(Dcb) ==> b in s.place && s.place[b] == Proc(Dcb))
    && (!all ==> forall b :: b in s.heap && b in s.place && s.place[b] == Proc(Dcb) && s.heap[b].state == Dead ==>
          b in t.heap && t.heap[b] == s.heap[b] && b in t.place && t.place[b] == Proc(Dcb))
  }

  lemma KeepsTrans(s: State, t: State, u: State, all: bool)
    requires Keeps(s, t, all) && Keeps(t, u, all)
    ensures Keeps(s, u, all)
  {
  }

  lemma KeepsMuted(s: State, t: State, all: bool)
    requires Inv(s) && Inv(t) && Muted(s, all) && Keeps(s, t, all)
    ensures Muted(t, all)
  {
    hide Honest, Staffed, Counted, DynCounted, Listed;
  }

  /** With no worker busy, nothing but dead batches is being handled. */
  lemma IdleQuiet(s: State, all: bool)
    requires Inv(s) && Idle(s, all) && Muted(s, all)
    ensures Quiet(s)
  {
    forall x | x in s.heap && x in s.place && s.place[x].Proc?
      ensures s.heap[x].state == Dead
    {
      HandledBusy(s, x);
    }
    hide Inv;
  }

  /** Whatever is being handled is in the hands of a worker. */
  lemma HandledBusy(s: State, x: Addr)
    requires Inv(s) && x in s.place && s.place[x].Proc?
    ensures s.place[x].r in s.peons && s.place[x].r != Recheck && s.peons[s.place[x].r].busy != map[]
  {
    hide Honest, Counted, DynCounted;
    var r := s.place[x].r;
    assert StaffedPeon(s.peons[r], r) && Holds(s.peons[r].proc, s.place, Proc(r));
  }

  /** With no worker busy, whatever is at work waits. */
  lemma IdleWaits(s: State, a: Addr, all: bool)
    requires Inv(s) && Idle(s, all) && a in Work(s, all)
    ensures s.place[a].Wait? && s.place[a].r in s.peons && a in s.peons[s.place[a].r].wait
  {
    hide Honest, Counted, DynCounted;
    var r := s.place[a].r;
    assert StaffedPeon(s.peons[r], r) && Holds(s.peons[r].proc, s.place, Proc(r))
           && Holds(s.peons[r].wait, s.place, Wait(r));
  }

  // ---------- What does not concern the batch peon ----------

  /** One event, on a task of another peon. */
  lemma KeepsOne(s: State, t: State, e: Event, to: Place, all: bool)
    requires t.pending == s.pending && t.log == s.log + [e] && e.a in s.place && t.place == s.place[e.a := to]
    requires !all ==> s.place[e.a] != Proc(Dcb) && to != Proc(Dcb)
    requires forall x :: x in s.heap && x != e.a ==> x in t.heap && t.heap[x] == s.heap[x]
    ensures Keeps(s, t, all)
  {
  }

  lemma KillKeeps(s: State, k: Kind, t: Task, all: bool)
    ensures Keeps(s, Kill(s, k, t), all)
  {
    hide Match;
  }

  lemma PutOffKeeps(s: State, t: State, r: PeonId, a: Addr, older: set<nat>, all: bool)
    requires Keeps(s, t, all) && a in t.heap
    ensures Keeps(s, PutOff(t, r, a, older), all)
  {
  }

  lemma VisitKeeps(s: State, r: PeonId, w: nat, a: Addr, now: int, all: bool)
    requires Drained(r, all) && r in s.peons && a in s.heap && a in s.place && s.place[a] == Wait(r)
    ensures Keeps(s, Visit(s, r, w, a, now).0, all)
  {
    hide Kill, Drop, Start, Defers, Discards, TimeOut, Keeps;
    var t, k := s.heap[a], KindOf(r);
    var s1 := Kill(s, k, t);
    KillSpares(s, k, a);
    KillKeeps(s, k, t, all);
    PutOffKeeps(s, s1, r, a, Blockers(s, k, t), all);
    DropShape(s, r, a);
    KeepsOne(s, Drop(s, r, a), Note(s, Free, a, r).log[|s.log|], Gone, all);
    DropShape(s1, r, a);
    KeepsOne(s1, Drop(s1, r, a), Note(s1, Free, a, r).log[|s1.log|], Gone, all);
    KeepsTrans(s, s1, Drop(s1, r, a), all);
    StartShape(s1, r, w, a, now);
    KeepsOne(s1, Start(s1, r, w, a, now), Note(s1, Dispatch(now, s1.peons[r].restrain), a, r).log[|s1.log|], Proc(r),
             all);
    KeepsTrans(s, s1, Start(s1, r, w, a, now), all);
  }

  lemma {:induction false} PassKeeps(s: State, r: PeonId, w: nat, todo: seq<Addr>, clock: Addr -> int, all: bool)
    requires Inv(s) && Ready(s, r, w) && Drained(r, all) && AllAt(s, todo, Wait(r))
    ensures Keeps(s, Pass(s, r, w, todo, clock).0, all)
    decreases |todo|
  {
    assert Keeps(s, s, all);
    hide Inv, Visit, AllAt, Keeps;
    if todo != [] {
      AllAtFirst(s, todo, Wait(r));
      VisitInv(s, r, w, todo[0], clock(todo[0]));
      VisitFrame(s, r, w, todo[0], clock(todo[0]));
      VisitKeeps(s, r, w, todo[0], clock(todo[0]), all);
      var (s1, v) := Visit(s, r, w, todo[0], clock(todo[0]));
      if v != Chosen {
        AllAtRest(s, s1, todo, Wait(r), Gone);
        ReadyStays(s, s1, r, w);
        PassKeeps(s1, r, w, todo[1..], clock, all);
        KeepsTrans(s, s1, Pass(s1, r, w, todo[1..], clock).0, all);
      }
    }
  }

  lemma StageKeeps(s: State, t: State, r: PeonId, stage: Stage, all: bool)
    requires Keeps(s, t, all)
    ensures Keeps(s, SetStage(t, r, stage), all)
  {
  }

  lemma GetKeeps(s: State, r: PeonId, clock: Addr -> int, all: bool)
    requires Inv(s) && Ready(s, r, 0) && Drained(r, all)
    ensures Keeps(s, GetTask(s, r, 0, clock).0, all)
  {
    hide Inv, Pass, AllAt, Keeps, SetStage;
    WaitAllAt(s, r);
    PassKeeps(s, r, 0, s.peons[r].wait, clock, all);
    var (s1, found) := Pass(s, r, 0, s.peons[r].wait, clock);
    if r.Dyn? {
      StageKeeps(s, s1, r, if found then Serving else Closing, all);
    }
  }

  lemma CompleteKeeps(s: State, r: PeonId, w: nat, all: bool)
    requires Inv(s) && r in s.peons && Drained(r, all) && w in s.peons[r].busy
    ensures Keeps(s, CompleteTask(s, r, w, false, 0), all)
  {
    hide Inv, LayDown, Keeps, SetStage;
    HandlingBusy(s, r, w);
    var a, s1 := s.peons[r].busy[w], FinishTask(s, r, w, false, 0);
    var t := s.heap[a];
    if t.state == Live && r == Conn {
      LayDownShape(s, r, w, Settle, a, Wait(Recheck), t.(sn := 0));
      KeepsOne(s, s1, Note(s, Settle, a, r).log[|s.log|], Wait(Recheck), all);
    } else {
      LayDownShape(s, r, w, Free, a, Gone, t);
      KeepsOne(s, s1, Note(s, Free, a, r).log[|s.log|], Gone, all);
    }
    if r.Dyn? {
      StageKeeps(s, s1, r, Closing, all);
    }
  }

  lemma CloseOneKeeps(s: State, r: PeonId, a: Addr, all: bool)
    requires a in s.heap && a in s.place && s.place[a] == Wait(r)
    ensures Keeps(s, Move(Note(s, Free, a, r), a, Gone, s.heap[a]), all)
  {
    hide Attach, Detach, Keeps, Batches;
    KeepsOne(s, Move(Note(s, Free, a, r), a, Gone, s.heap[a]), Note(s, Free, a, r).log[|s.log|], Gone, all);
  }

  lemma {:induction false} CloseAllKeeps(s: State, r: PeonId, todo: seq<Addr>, all: bool)
    requires Inv(s) && r in s.peons && r.Dyn? && s.peons[r].wait == todo && AllAt(s, todo, Wait(r))
    ensures Keeps(s, CloseAll(s, r, todo), all)
    decreases |todo|
  {
    assert Keeps(s, s, all);
    hide Inv, AllAt, Move, Note, Keeps;
    if todo != [] {
      AllAtFirst(s, todo, Wait(r));
      CloseOneInv(s, r, todo[0]);
      CloseOneFrame(s, r, todo);
      CloseOneKeeps(s, r, todo[0], all);
      var s1 := Move(Note(s, Free, todo[0], r), todo[0], Gone, s.heap[todo[0]]);
      AllAtRest(s, s1, todo, Wait(r), Gone);
      CloseAllKeeps(s1, r, todo[1..], all);
      KeepsTrans(s, s1, CloseAll(s1, r, todo[1..]), all);
    }
  }

  // ---------- A worker finishes ----------

  lemma CompleteWork(s: State, r: PeonId, w: nat, all: bool)
    requires Inv(s) && r in s.peons && Drained(r, all) && w in s.peons[r].busy
    ensures Work(CompleteTask(s, r, w, false, 0), all) == Work(s, all) - {s.peons[r].busy[w]}
    ensures s.peons[r].busy[w] in Work(s, all)
  {
    hide Inv, LayDown;
    HandlingBusy(s, r, w);
    var a := s.peons[r].busy[w];
    var t := s.heap[a];
    if t.state == Live && r == Conn {
      LayDownShape(s, r, w, Settle, a, Wait(Recheck), t.(sn := 0));
    } else {
      LayDownShape(s, r, w, Free, a, Gone, t);
    }
  }

  // ---------- A worker takes something up ----------

  /** A clock that is late enough for every waiting task of `r`. */
  ghost function Late(s: State, r: PeonId): Addr -> int
    requires r in s.peons
  {
    a => if a in s.heap then
           var t, due := s.heap[a], s.heap[a].tm + s.peons[r].restrain;
           if t.nextRun > due then t.nextRun else due
         else 0
  }

  lemma LateEnough(s: State, r: PeonId, a: Addr)
    requires r in s.peons && a in s.heap
    ensures TimeOut(s.heap[a], s.peons[r].restrain, Late(s, r)(a))
  {
  }

  lemma NothingDefers(s: State, k: Kind, t: Task)
    requires Quiet(s)
    ensures !Defers(s, k, t)
  {
  }

  /** With nothing live being handled, a task that is judged late enough is handed out or freed. */
  lemma FirstJudged(s: State, r: PeonId, w: nat, a: Addr)
    requires r in s.peons && r != Recheck && a in s.heap && a in s.place
    requires Quiet(s)
    ensures Visit(s, r, w, a, Late(s, r)(a)).1 != Skip
  {
    hide Kill, Drop, Start, Discards, TimeOut, Quiet;
    NothingDefers(s, KindOf(r), s.heap[a]);
    LateEnough(s, r, a);
  }

  lemma VisitWork(s: State, r: PeonId, w: nat, a: Addr, now: int, all: bool)
    requires Ready(s, r, w) && a in s.heap && a in s.place && s.place[a] == Wait(r)
    ensures var (t, v) := Visit(s, r, w, a, now);
      && Work(t, all) <= Work(s, all)
      && (v == Discard ==> a !in Work(t, all))
  {
    VisitFrame(s, r, w, a, now);
    if Visit(s, r, w, a, now).1 == Discard {
      VisitDrops(s, r, w, a, now);
    }
    hide Visit;
  }

  lemma VisitDrops(s: State, r: PeonId, w: nat, a: Addr, now: int)
    requires r in s.peons && r != Recheck && a in s.heap && a in s.place && Visit(s, r, w, a, now).1 == Discard
    ensures Visit(s, r, w, a, now).0.place == s.place[a := Gone]
  {
    hide Kill, Start, Drop, Discards, Defers, TimeOut;
    var k, t := KindOf(r), s.heap[a];
    DropShape(s, r, a);
    KillSpares(s, k, a);
    DropShape(Kill(s, k, t), r, a);
  }

  lemma {:induction false} PassWork(s: State, r: PeonId, w: nat, todo: seq<Addr>, clock: Addr -> int, all: bool)
    requires Inv(s) && Ready(s, r, w) && AllAt(s, todo, Wait(r))
    ensures Work(Pass(s, r, w, todo, clock).0, all) <= Work(s, all)
    decreases |todo|
  {
    hide Inv, Visit, AllAt, Work;
    if todo != [] {
      AllAtFirst(s, todo, Wait(r));
      VisitInv(s, r, w, todo[0], clock(todo[0]));
      VisitFrame(s, r, w, todo[0], clock(todo[0]));
      VisitWork(s, r, w, todo[0], clock(todo[0]), all);
      var (s1, v) := Visit(s, r, w, todo[0], clock(todo[0]));
      if v != Chosen {
        AllAtRest(s, s1, todo, Wait(r), Gone);
        ReadyStays(s, s1, r, w);
        PassWork(s1, r, w, todo[1..], clock, all);
      }
    }
  }

  /** A pass of an idle scheduler hands something out, or frees the first task it comes to. */
  lemma PassProgress(s: State, r: PeonId, w: nat, todo: seq<Addr>, all: bool)
    requires Inv(s) && Ready(s, r, w) && AllAt(s, todo, Wait(r)) && todo != [] && Quiet(s)
    ensures var (t, found) := Pass(s, r, w, todo, Late(s, r));
      && Work(t, all) <= Work(s, all)
      && (!found ==> todo[0] !in Work(t, all))
  {
    hide Inv, Visit, AllAt, Late, Quiet;
    var clock := Late(s, r);
    AllAtFirst(s, todo, Wait(r));
    FirstJudged(s, r, w, todo[0]);
    VisitInv(s, r, w, todo[0], clock(todo[0]));
    VisitFrame(s, r, w, todo[0], clock(todo[0]));
    VisitWork(s, r, w, todo[0], clock(todo[0]), all);
    var (s1, v) := Visit(s, r, w, todo[0], clock(todo[0]));
    hide Work;
    if v != Chosen {
      AllAtRest(s, s1, todo, Wait(r), Gone);
      ReadyStays(s, s1, r, w);
      PassWork(s1, r, w, todo[1..], clock, all);
    }
  }

  lemma SameWork(s: State, t: State, all: bool)
    requires t.place == s.place
    ensures Work(t, all) == Work(s, all)
  {
  }

  lemma GetProgress(s: State, r: PeonId, all: bool)
    requires Ready(s, r, 0) && s.peons[r].wait != [] && Drained(r, all) && Inv(s) && Quiet(s)
    ensures var (t, found) := GetTask(s, r, 0, Late(s, r));
      && Work(t, all) <= Work(s, all)
      && (if found then !Idle(t, all) else s.peons[r].wait[0] in Work(s, all) && s.peons[r].wait[0] !in Work(t, all))
  {
    hide Inv, Pass, AllAt, Late, Idle, Quiet;
    var todo, clock := s.peons[r].wait, Late(s, r);
    WaitAllAt(s, r);
    AllAtFirst(s, todo, Wait(r));
    PassProgress(s, r, 0, todo, all);
    var (t, found) := Pass(s, r, 0, todo, clock);
    if r.Dyn? {
      SameWork(t, SetStage(t, r, if found then Serving else Closing), all);
    }
    if found {
      GetBusy(s, r, clock, all);
    }
  }

  lemma GetBusy(s: State, r: PeonId, clock: Addr -> int, all: bool)
    requires Ready(s, r, 0) && Drained(r, all) && GetTask(s, r, 0, clock).1 && Inv(s)
    ensures !Idle(GetTask(s, r, 0, clock).0, all)
  {
    hide Inv, Pass, AllAt;
    WaitAllAt(s, r);
    PassHandsOut(s, r, 0, s.peons[r].wait, clock);
    var t := Pass(s, r, 0, s.peons[r].wait, clock).0;
    assert 0 in t.peons[r].busy;
    assert GetTask(s, r, 0, clock).0.peons[r].busy == t.peons[r].busy;
  }

  // ---------- A dynamic peon closes ----------

  lemma {:induction false} CloseWork(s: State, r: PeonId, todo: seq<Addr>, all: bool)
    requires Inv(s) && r in s.peons && r.Dyn? && s.peons[r].wait == todo && AllAt(s, todo, Wait(r))
    ensures Work(CloseAll(s, r, todo), all) <= Work(s, all)
    ensures todo != [] ==> todo[0] in Work(s, all) && todo[0] !in Work(CloseAll(s, r, todo), all)
    decreases |todo|
  {
    hide Inv, AllAt, Move;
    if todo != [] {
      AllAtFirst(s, todo, Wait(r));
      CloseOneInv(s, r, todo[0]);
      CloseOneFrame(s, r, todo);
      var s1 := Move(Note(s, Free, todo[0], r), todo[0], Gone, s.heap[todo[0]]);
      AllAtRest(s, s1, todo, Wait(r), Gone);
      CloseWork(s1, r, todo[1..], all);
      hide CloseAll;
    }
  }

  // ---------- One step that makes progress ----------

  lemma Fewer(s: set<Addr>, t: set<Addr>, a: Addr)
    requires t <= s && a in s && a !in t
    ensures |t| < |s|
  {
    Smaller(t, s - {a});
  }

  lemma {:induction false} Smaller(t: set<Addr>, s: set<Addr>)
    requires t <= s
    ensures |t| <= |s|
    decreases t
  {
    if t != {} {
      var x :| x in t;
      Smaller(t - {x}, s - {x});
    }
  }

  /** Fewer tasks are at work, or as many, and a worker is busy that was not. */
  ghost predicate Progress(s: State, t: State, all: bool) {
    || |Work(t, all)| < |Work(s, all)|
    || (|Work(t, all)| == |Work(s, all)| && Idle(s, all) && !Idle(t, all))
  }

  lemma BusyStep(s: State, all: bool) returns (e: Step)
    requires Inv(s) && HasStatics(s) && !Idle(s, all)
    ensures Enabled(s, e) && Progress(s, Next(s, e), all) && Keeps(s, Next(s, e), all)
  {
    hide Inv, CompleteTask, Work, Keeps;
    var r :| r in s.peons && Drained(r, all) && s.peons[r].busy != map[];
    var w :| w in s.peons[r].busy;
    e := Complete(r, w, false, 0);
    CompleteWork(s, r, w, all);
    CompleteKeeps(s, r, w, all);
    Fewer(Work(s, all), Work(Next(s, e), all), s.peons[r].busy[w]);
  }

  lemma CloseStep(s: State, d: nat, all: bool)
    requires HasStatics(s) && Enabled(s, Close(d)) && s.peons[Dyn(d)].wait != []
    requires Inv(s)
    ensures Progress(s, Next(s, Close(d)), all) && Keeps(s, Next(s, Close(d)), all)
  {
    hide Inv, CloseAll, AllAt, Work, Idle, Keeps, SetStage;
    var r, todo := Dyn(d), s.peons[Dyn(d)].wait;
    var t := CloseAll(s, r, todo);
    WaitAllAt(s, r);
    CloseWork(s, r, todo, all);
    CloseAllKeeps(s, r, todo, all);
    StageKeeps(s, t, r, Closed, all);
    SameStage(t, r, Closed);
    SameWork(t, SetStage(t, r, Closed), all);
    Fewer(Work(s, all), Work(Next(s, Close(d)), all), todo[0]);
  }

  lemma SameStage(t: State, r: PeonId, stage: Stage)
    ensures SetStage(t, r, stage).place == t.place
  {
  }

  lemma GetStep(s: State, r: PeonId, all: bool)
    requires Inv(s) && HasStatics(s) && Idle(s, all) && Quiet(s) && Drained(r, all) && r in s.peons
    requires Enabled(s, Get(r, 0, Late(s, r))) && s.peons[r].wait != []
    ensures Progress(s, Next(s, Get(r, 0, Late(s, r))), all) && Keeps(s, Next(s, Get(r, 0, Late(s, r))), all)
  {
    hide Inv, GetTask, Work, Idle, Late, Quiet, Keeps;
    GetProgress(s, r, all);
    GetKeeps(s, r, Late(s, r), all);
    var (t, found) := GetTask(s, r, 0, Late(s, r));
    Smaller(Work(t, all), Work(s, all));
    if !found {
      Fewer(Work(s, all), Work(t, all), s.peons[r].wait[0]);
    }
  }

  lemma IdleStep(s: State, all: bool) returns (e: Step)
    requires Inv(s) && HasStatics(s) && Lively(s) && Muted(s, all) && Idle(s, all) && Work(s, all) != {}
    ensures Enabled(s, e) && Progress(s, Next(s, e), all) && Keeps(s, Next(s, e), all)
  {
    hide Inv, Lively, Next, Idle, Late, Progress, Keeps, Muted, Quiet;
    var a :| a in Work(s, all);
    var r := s.place[a].r;
    IdleWaits(s, a, all);
    IdleQuiet(s, all);
    Stages(s, r, a, all);
    if s.peons[r].stage == Closing {
      e := Close(r.d);
      CloseStep(s, r.d, all);
    } else {
      e := Get(r, 0, Late(s, r));
      GetStep(s, r, all);
    }
  }

  /** An idle peon with a waiting task is ready for a pass, or closing. */
  lemma Stages(s: State, r: PeonId, a: Addr, all: bool)
    requires Inv(s) && Lively(s) && Idle(s, all) && r in s.peons && Drained(r, all) && a in s.peons[r].wait
    ensures if s.peons[r].stage == Closing then r.Dyn? else Enabled(s, Get(r, 0, Late(s, r)))
  {
    hide Honest, Placed, Staffed, Counted, Rooted, Once, Late;
    assert r.Dyn? ==> StagedPeon(s.peons[r], s.log);
  }

  // ---------- Every task can be brought to an end ----------

  /** `t` comes from `s` by a run that leaves these peons nothing to do, and keeps the rest. */
  ghost predicate Emptied(s: State, steps: seq<Step>, t: State, all: bool) {
    Run(s, steps, t) && Work(t, all) == {} && Keeps(s, t, all)
  }

  /** From every reachable state some run leaves no task waiting for a worker or in the hands of one. */
  lemma {:induction false} Drains(s: State, all: bool) returns (steps: seq<Step>, t: State)
    requires Inv(s) && Lively(s) && Muted(s, all)
    ensures Emptied(s, steps, t, all)
    decreases |Work(s, all)|, Idle(s, all)
  {
    hide Inv, Lively, Next, Work, Idle, Enabled, Muted;
    if Work(s, all) == {} {
      steps, t := [], s;
    } else {
      StaticsServe(s);
      var e: Step;
      if Idle(s, all) {
        e := IdleStep(s, all);
      } else {
        e := BusyStep(s, all);
      }
      NextInv(s, e);
      NextLively(s, e);
      var n := Next(s, e);
      KeepsMuted(s, n, all);
      var rest;
      rest, t := Drains(n, all);
      KeepsTrans(s, n, t, all);
      hide Keeps;
      steps := [e] + rest;
      assert steps[1..] == rest;
    }
  }

  lemma CanDrain(s: State)
    requires Reachable(s)
    ensures exists steps, t :: Run(s, steps, t) && Work(t, true) == {}
  {
    hide Inv, Lively, Reachable, Run, Work, Keeps;
    ReachableInv(s);
    ReachableLively(s);
    var steps, t := Drains(s, true);
  }
}

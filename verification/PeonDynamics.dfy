/** What a step leaves alone, and the life of a dynamic peon: one pass, one dispatch at most, and an end. */
module PeonDynamics {
  import opened PeonModel
  import opened PeonInvariants
  import opened PeonSteps
  import opened PeonTheorems
  import opened PeonFates
  import opened PeonPasses

  // ---------- What a step leaves alone ----------

  /** The dynamic peons other than `r` are as they were. */
  ghost predicate Others(s: State, t: State, r: PeonId) {
    forall q: PeonId :: q.Dyn? && q != r ==>
      (q in t.peons <==> q in s.peons) && (q in s.peons && q in t.peons ==> t.peons[q] == s.peons[q])
  }

  /** A task of a dynamic peon stays with it until it is freed; what is freed stays so. */
  ghost predicate Stays(s: State, t: State) {
    forall a :: a in s.place && (s.place[a] == Gone || s.place[a].r.Dyn?) ==>
      a in t.place && (t.place[a] == Gone || (s.place[a] != Gone && t.place[a].r == s.place[a].r))
  }

  /** What was noted from `s` to `t` befell tasks of `r`; a dispatch, if any, came last. */
  ghost predicate NotedBy(s: State, t: State, r: PeonId, dispatch: bool) {
    && s.log <= t.log
    && forall i :: |s.log| <= i < |t.log| ==>
         && t.log[i].r == r && t.log[i].a in s.place && s.place[t.log[i].a] != Gone && s.place[t.log[i].a].r == r
         && (Ran(t.log[i]) ==> dispatch && i == |t.log| - 1 && s.place[t.log[i].a] == Wait(r))
  }

  /** All that: from `s` to `t` only the peon `r` has acted. */
  ghost predicate Acted(s: State, t: State, r: PeonId, dispatch: bool) {
    Others(s, t, r) && Stays(s, t) && NotedBy(s, t, r, dispatch)
  }

  lemma ActedSame(s: State, t: State, r: PeonId, dispatch: bool)
    requires t.place == s.place && t.log == s.log && Others(s, t, r)
    ensures Acted(s, t, r, dispatch)
  {
  }

  lemma ActedNot(s: State, r: PeonId)
    ensures Acted(s, s, r, false)
  {
  }

  /** Numbers that were only issued in between do not matter. */
  lemma ActedAfter(s: State, m: State, t: State, r: PeonId)
    requires m == s.(lastSn := m.lastSn, pending := m.pending) && Acted(m, t, r, false)
    ensures Acted(s, t, r, false)
  {
  }

  /** One event at the peon `e.r`. */
  lemma ActedOne(s: State, t: State, e: Event, to: Place, dispatch: bool)
    requires e.a in s.place && s.place[e.a] != Gone && s.place[e.a].r == e.r
    requires t.place == s.place[e.a := to] && t.log == s.log + [e] && Others(s, t, e.r)
    requires to == Gone || to.r == e.r || !e.r.Dyn?
    requires Ran(e) ==> dispatch && s.place[e.a] == Wait(e.r)
    ensures Acted(s, t, e.r, dispatch)
  {
  }

  /** Events one after the other; those of the first part are no dispatches. */
  lemma ActedTrans(s: State, m: State, t: State, r: PeonId, dispatch: bool)
    requires Acted(s, m, r, false) && Acted(m, t, r, dispatch)
    requires forall a :: a in m.place && m.place[a] != Gone && m.place[a].r == r ==>
               a in s.place && s.place[a] == m.place[a]
    ensures Acted(s, t, r, dispatch)
  {
    hide Others;
    OthersTrans(s, m, t, r);
    forall i | |s.log| <= i < |t.log|
      ensures t.log[i].r == r && t.log[i].a in s.place && s.place[t.log[i].a] != Gone && s.place[t.log[i].a].r == r
      ensures Ran(t.log[i]) ==> dispatch && i == |t.log| - 1 && s.place[t.log[i].a] == Wait(r)
    {
      if i < |m.log| {
        assert t.log[i] == m.log[i];
      }
    }
  }

  lemma OthersTrans(s: State, m: State, t: State, r: PeonId)
    requires Others(s, m, r) && Others(m, t, r)
    ensures Others(s, t, r)
  {
  }

  lemma MoveOthers(s: State, a: Addr, to: Place, t: Task, r: PeonId)
    requires a in s.place && (s.place[a] == Gone || s.place[a].r == r || !s.place[a].r.Dyn?)
    requires to == Gone || to.r == r || !to.r.Dyn?
    ensures Others(s, Move(s, a, to, t), r)
  {
    hide Extract;
  }

  lemma DropOthers(s: State, r: PeonId, a: Addr)
    requires a in s.heap && a in s.place && s.place[a] == Wait(r)
    ensures Others(s, Drop(s, r, a), r)
  {
    hide Move;
    MoveOthers(Note(s, Free, a, r), a, Gone, s.heap[a], r);
  }

  lemma StartOthers(s: State, r: PeonId, w: nat, a: Addr, now: int)
    requires a in s.heap && a in s.place && r in s.peons && s.place[a] == Wait(r)
    ensures Others(s, Start(s, r, w, a, now), r)
  {
    hide Move;
    MoveOthers(Note(s, Dispatch(now, s.peons[r].restrain), a, r), a, Proc(r), s.heap[a], r);
  }

  lemma LayDownOthers(s: State, r: PeonId, w: nat, what: What, a: Addr, to: Place, t: Task)
    requires r in s.peons && a in s.heap && a in s.place && s.place[a] == Proc(r)
    requires to == Gone || to.r == r || !to.r.Dyn?
    ensures Others(s, LayDown(s, r, w, what, a, to, t), r)
  {
    hide Move;
    MoveOthers(Note(s, what, a, r), a, to, t, r);
  }

  lemma KillActed(s: State, k: Kind, t: Task, r: PeonId)
    ensures Acted(s, Kill(s, k, t), r, false) && Kill(s, k, t).place == s.place && Kill(s, k, t).peons == s.peons
  {
    hide Rival;
    ActedSame(s, Kill(s, k, t), r, false);
  }

  lemma VisitActed(s: State, r: PeonId, w: nat, a: Addr, now: int)
    requires r in s.peons && r != Recheck && a in s.heap && a in s.place && s.place[a] == Wait(r)
    ensures Acted(s, Visit(s, r, w, a, now).0, r, Visit(s, r, w, a, now).1 == Chosen)
  {
    var t, k := s.heap[a], KindOf(r);
    var s1 := Kill(s, k, t);
    KillSpares(s, k, a);
    KillActed(s, k, t, r);
    hide Kill, Drop, Start, Acted, Defers, Discards, TimeOut;
    if t.state == Dead {
      DropShape(s, r, a);
      DropOthers(s, r, a);
      ActedOne(s, Drop(s, r, a), Note(s, Free, a, r).log[|s.log|], Gone, false);
    } else if Defers(s, k, t) {
    } else if Discards(s, k, t) {
      DropShape(s1, r, a);
      DropOthers(s1, r, a);
      ActedOne(s1, Drop(s1, r, a), Note(s1, Free, a, r).log[|s1.log|], Gone, false);
      ActedTrans(s, s1, Drop(s1, r, a), r, false);
    } else if TimeOut(t, s.peons[r].restrain, now) {
      StartShape(s1, r, w, a, now);
      StartOthers(s1, r, w, a, now);
      ActedOne(s1, Start(s1, r, w, a, now), Note(s1, Dispatch(now, s1.peons[r].restrain), a, r).log[|s1.log|],
               Proc(r), true);
      ActedTrans(s, s1, Start(s1, r, w, a, now), r, true);
    }
  }

  lemma {:induction false} PassActed(s: State, r: PeonId, w: nat, todo: seq<Addr>, clock: Addr -> int)
    requires Inv(s) && Ready(s, r, w) && AllAt(s, todo, Wait(r))
    ensures Acted(s, Pass(s, r, w, todo, clock).0, r, Pass(s, r, w, todo, clock).1)
    decreases |todo|
  {
    hide Inv, Visit, AllAt, Acted, SameCrew;
    if todo == [] {
      ActedNot(s, r);
    } else {
      AllAtFirst(s, todo, Wait(r));
      VisitInv(s, r, w, todo[0], clock(todo[0]));
      VisitFrame(s, r, w, todo[0], clock(todo[0]));
      VisitActed(s, r, w, todo[0], clock(todo[0]));
      var (s1, v) := Visit(s, r, w, todo[0], clock(todo[0]));
      if v != Chosen {
        AllAtRest(s, s1, todo, Wait(r), Gone);
        ReadyStays(s, s1, r, w);
        PassActed(s1, r, w, todo[1..], clock);
        ActedTrans(s, s1, Pass(s1, r, w, todo[1..], clock).0, r, Pass(s1, r, w, todo[1..], clock).1);
      }
    }
  }

  lemma StageActed(s: State, t: State, r: PeonId, stage: Stage, dispatch: bool)
    requires Acted(s, t, r, dispatch) && r.Dyn?
    ensures Acted(s, SetStage(t, r, stage), r, dispatch)
  {
  }

  lemma GetActed(s: State, r: PeonId, w: nat, clock: Addr -> int)
    requires Inv(s) && Enabled(s, Get(r, w, clock))
    ensures Acted(s, GetTask(s, r, w, clock).0, r, GetTask(s, r, w, clock).1)
  {
    hide Inv, Pass, AllAt, Acted, SetStage;
    WaitAllAt(s, r);
    PassActed(s, r, w, s.peons[r].wait, clock);
    var (s1, found) := Pass(s, r, w, s.peons[r].wait, clock);
    if r.Dyn? {
      StageActed(s, s1, r, if found then Serving else Closing, found);
    }
  }

  lemma CompleteActed(s: State, r: PeonId, w: nat, failed: bool, now: int)
    requires Inv(s) && r in s.peons && r != Recheck && w in s.peons[r].busy
    ensures Acted(s, CompleteTask(s, r, w, failed, now), r, false)
  {
    hide Inv, LayDown, Acted, SetStage;
    HandlingBusy(s, r, w);
    var a, s1 := s.peons[r].busy[w], FinishTask(s, r, w, failed, now);
    var t := s.heap[a];
    if t.state == Live && failed {
      LayDownShape(s, r, w, Retry(now), a, Wait(r), t.(nextRun := now + RETRY_INTERVAL));
      LayDownOthers(s, r, w, Retry(now), a, Wait(r), t.(nextRun := now + RETRY_INTERVAL));
      ActedOne(s, s1, s1.log[|s.log|], Wait(r), false);
    } else if t.state == Live && r == Conn {
      LayDownShape(s, r, w, Settle, a, Wait(Recheck), t.(sn := 0));
      LayDownOthers(s, r, w, Settle, a, Wait(Recheck), t.(sn := 0));
      ActedOne(s, s1, s1.log[|s.log|], Wait(Recheck), false);
    } else {
      LayDownShape(s, r, w, Free, a, Gone, t);
      LayDownOthers(s, r, w, Free, a, Gone, t);
      ActedOne(s, s1, s1.log[|s.log|], Gone, false);
    }
    if r.Dyn? {
      StageActed(s, s1, r, Closing, false);
    }
  }

  lemma RecheckVisitActed(s: State, a: Addr, lost: set<Addr>, now: int)
    requires a in s.heap && a in s.place && s.place[a] == Wait(Recheck)
    ensures Acted(s, RecheckVisit(s, a, lost, now), Recheck, false)
  {
    hide Move, Acted;
    var t, u := s.heap[a], RecheckVisit(s, a, lost, now);
    if t.state == Dead || !t.rechecks {
      MoveShape(Note(s, Free, a, Recheck), a, Gone, t);
      MoveOthers(Note(s, Free, a, Recheck), a, Gone, t, Recheck);
      ActedOne(s, u, u.log[|s.log|], Gone, false);
    } else if a !in lost {
      ActedSame(s, s, Recheck, false);
    } else {
      var n := Note(s, Relive, a, Recheck).(lastSn := s.lastSn + 1);
      var renewed := t.(tm := now, nextRun := 0, sn := s.lastSn + 1, state := Live);
      MoveShape(n, a, Wait(Conn), renewed);
      MoveOthers(n, a, Wait(Conn), renewed, Recheck);
      ActedOne(s, u, u.log[|s.log|], Wait(Conn), false);
    }
  }

  lemma MoveShape(s: State, a: Addr, to: Place, t: Task)
    requires a in s.place
    ensures Move(s, a, to, t).place == s.place[a := to] && Move(s, a, to, t).log == s.log
  {
    hide Attach, Detach;
  }

  lemma RecheckVisitPlace(s: State, a: Addr, lost: set<Addr>, now: int)
    requires a in s.heap && a in s.place && s.place[a] == Wait(Recheck)
    ensures var t := RecheckVisit(s, a, lost, now);
      t.place == s.place || t.place == s.place[a := Gone] || t.place == s.place[a := Wait(Conn)]
  {
    hide Attach, Detach;
  }

  lemma {:induction false} RecheckAllActed(s: State, todo: seq<Addr>, lost: set<Addr>, clock: Addr -> int,
                                           issued: Addr -> nat)
    requires Inv(s) && AllAt(s, todo, Wait(Recheck))
    ensures Acted(s, RecheckAll(s, todo, lost, clock, issued), Recheck, false)
    decreases |todo|
  {
    hide Inv, RecheckVisit, AllAt, Acted, Meanwhile;
    if todo == [] {
      ActedNot(s, Recheck);
    } else {
      RecheckTurnInv(s, todo, lost, clock(todo[0]), issued(todo[0]));
      var m := Meanwhile(s, issued(todo[0]));
      var s1 := RecheckVisit(m, todo[0], lost, clock(todo[0]));
      RecheckVisitActed(m, todo[0], lost, clock(todo[0]));
      ActedAfter(s, m, s1, Recheck);
      RecheckVisitPlace(m, todo[0], lost, clock(todo[0]));
      RecheckAllActed(s1, todo[1..], lost, clock, issued);
      ActedTrans(s, s1, RecheckAll(s1, todo[1..], lost, clock, issued), Recheck, false);
    }
  }

  lemma {:induction false} CloseAllActed(s: State, r: PeonId, todo: seq<Addr>)
    requires Inv(s) && r in s.peons && r.Dyn? && s.peons[r].wait == todo && AllAt(s, todo, Wait(r))
    ensures Acted(s, CloseAll(s, r, todo), r, false)
    decreases |todo|
  {
    hide Inv, AllAt, Move, Acted;
    if todo == [] {
      ActedNot(s, r);
    } else {
      AllAtFirst(s, todo, Wait(r));
      CloseOneInv(s, r, todo[0]);
      CloseOneFrame(s, r, todo);
      var n := Note(s, Free, todo[0], r);
      var s1 := Move(n, todo[0], Gone, s.heap[todo[0]]);
      MoveShape(n, todo[0], Gone, s.heap[todo[0]]);
      MoveOthers(n, todo[0], Gone, s.heap[todo[0]], r);
      ActedOne(s, s1, n.log[|s.log|], Gone, false);
      AllAtRest(s, s1, todo, Wait(r), Gone);
      CloseAllActed(s1, r, todo[1..]);
      ActedTrans(s, s1, CloseAll(s1, r, todo[1..]), r, false);
    }
  }

  /** A task is added: nothing is noted, and no dynamic peon but a new one is touched. */
  lemma AddActed(s: State, s0: State, r: PeonId, a: Addr, t: Task, spawned: bool, d: nat, restrain: nat)
    requires a !in s.place && r in s0.peons && !r.Dyn?
    requires s0.peons == s.peons && s0.place == s.place && s0.log == s.log
    ensures Acted(s, AddTask(s0, r, a, t, spawned, d, restrain), Dyn(d), false)
  {
  }

  /** The peon that acts in a step. */
  function Actor(e: Step): PeonId {
    match e
    case Get(r, _, _) => r
    case Complete(r, _, _, _) => r
    case Insert(_, _, _, _, _, _, _, d, _) => Dyn(d)
    case Inherit(_, _, _, _, _, _, d, _) => Dyn(d)
    case Close(d) => Dyn(d)
    case Exit(d) => Dyn(d)
    case _ => Recheck
  }

  /** In one step one peon acts; only a get dispatches, once, and last. */
  lemma NextActed(s: State, e: Step)
    requires Inv(s) && HasStatics(s) && Enabled(s, e)
    ensures Acted(s, Next(s, e), Actor(e), e.Get? && GetTask(s, e.r, e.w, e.clock).1)
  {
    hide Inv, GetTask, CompleteTask, RecheckAll, CloseAll, AddTask, AllAt, Acted;
    match e {
      case Insert(r, sn, a, param, rechecks, now, spawned, d, restrain) =>
        AddActed(s, s.(pending := s.pending - {sn}), r, a, Task(sn, Live, now, 0, param, rechecks), spawned, d,
                 restrain);
      case Inherit(sn, a, param, rechecks, now, spawned, d, restrain) =>
        AddActed(s, s.(inherited := s.inherited + {a}), Disc, a, Task(sn, Live, now, 0, param, rechecks), spawned, d,
                 restrain);
      case Get(r, w, clock) => GetActed(s, r, w, clock);
      case Complete(r, w, failed, now) => CompleteActed(s, r, w, failed, now);
      case RecheckPass(lost, clock, issued) =>
        WaitAllAt(s, Recheck);
        RecheckAllActed(s, s.peons[Recheck].wait, lost, clock, issued);
      case Close(d) =>
        WaitAllAt(s, Dyn(d));
        CloseAllActed(s, Dyn(d), s.peons[Dyn(d)].wait);
        StageActed(s, CloseAll(s, Dyn(d), s.peons[Dyn(d)].wait), Dyn(d), Closed, false);
      case Issue => ActedSame(s, Next(s, e), Recheck, false);
      case Abandon(_) => ActedSame(s, Next(s, e), Recheck, false);
      case Exit(d) => ActedSame(s, Next(s, e), Dyn(d), false);
      case SetRestrain(_) => ActedSame(s, Next(s, e), Recheck, false);
    }
  }

  // ---------- The life of a dynamic peon ----------

  /** Before its pass a dynamic peon has one task, of which nothing is noted yet; while it serves it is busy. */
  ghost predicate StagedPeon(p: Peon, log: seq<Event>) {
    && (p.stage == Spawned ==> |p.wait| == 1 && p.busy == map[] && forall e :: e in log ==> e.a != p.wait[0])
    && (p.stage == Serving ==> p.busy != map[])
  }

  ghost predicate Staged(s: State) {
    forall q :: q in s.peons && q.Dyn? ==> StagedPeon(s.peons[q], s.log)
  }

  /** What a dynamic peon acted on stays with it, or is freed. */
  ghost predicate Rooted(s: State) {
    forall e :: e in s.log && e.r.Dyn? ==> e.a in s.place && (s.place[e.a] == Gone || s.place[e.a].r == e.r)
  }

  /** What a dynamic peon dispatched is not dispatched again. */
  ghost predicate Once(log: seq<Event>) {
    forall i, j :: 0 <= i < j < |log| && Ran(log[i]) && Ran(log[j]) && log[i].a == log[j].a ==> !log[i].r.Dyn?
  }

  ghost predicate Lively(s: State) {
    Staged(s) && Rooted(s) && Once(s.log)
  }

  lemma OtherStaged(s: State, t: State, r: PeonId, dispatch: bool, q: PeonId)
    requires Inv(s) && Staged(s) && Acted(s, t, r, dispatch) && q.Dyn? && q != r && q in t.peons
    ensures StagedPeon(t.peons[q], t.log)
  {
    hide Inv;
    assert q in s.peons && t.peons[q] == s.peons[q] && StagedPeon(s.peons[q], s.log);
    WaitPlace(s, q);
    if t.peons[q].stage == Spawned {
      var a := t.peons[q].wait[0];
      assert a in s.peons[q].wait && s.place[a] == Wait(q);
      forall i | 0 <= i < |t.log|
        ensures t.log[i].a != a
      {
        if i < |s.log| {
          assert t.log[i] == s.log[i];
        }
      }
    }
  }

  lemma GetStaged(s: State, r: PeonId, w: nat, clock: Addr -> int)
    requires Inv(s) && Enabled(s, Get(r, w, clock)) && r.Dyn?
    ensures var t := GetTask(s, r, w, clock).0;
      r in t.peons ==> t.peons[r].stage == Closing || (t.peons[r].stage == Serving && t.peons[r].busy != map[])
  {
    hide Inv, Pass, AllAt;
    WaitAllAt(s, r);
    if Pass(s, r, w, s.peons[r].wait, clock).1 {
      PassHandsOut(s, r, w, s.peons[r].wait, clock);
    }
  }

  lemma AddStaged(s: State, s0: State, r: PeonId, a: Addr, t: Task, spawned: bool, d: nat, restrain: nat)
    requires Punctual(s) && a !in s.place && r in s0.peons && !r.Dyn? && Dyn(d) !in s.peons
    requires s0.peons == s.peons && s0.place == s.place && s0.log == s.log
    ensures var u := AddTask(s0, r, a, t, spawned, d, restrain);
      Dyn(d) in u.peons ==> StagedPeon(u.peons[Dyn(d)], u.log)
  {
  }

  lemma ActorStaged(s: State, e: Step)
    requires Inv(s) && HasStatics(s) && Enabled(s, e) && Actor(e).Dyn?
    ensures Actor(e) in Next(s, e).peons ==> StagedPeon(Next(s, e).peons[Actor(e)], Next(s, e).log)
  {
    hide Stocked, Numbered, LogNumbered, Ordered, Mortal, AllDue, GetTask, FinishTask, CloseAll, AddTask;
    match e {
      case Insert(r, sn, a, param, rechecks, now, spawned, d, restrain) =>
        AddStaged(s, s.(pending := s.pending - {sn}), r, a, Task(sn, Live, now, 0, param, rechecks), spawned, d,
                  restrain);
      case Inherit(sn, a, param, rechecks, now, spawned, d, restrain) =>
        AddStaged(s, s.(inherited := s.inherited + {a}), Disc, a, Task(sn, Live, now, 0, param, rechecks), spawned, d,
                  restrain);
      case Get(r, w, clock) => GetStaged(s, r, w, clock);
      case _ =>
    }
  }

  lemma NextRooted(s: State, t: State, r: PeonId, dispatch: bool)
    requires Rooted(s) && Acted(s, t, r, dispatch)
    ensures Rooted(t)
  {
    hide Others;
    forall i | 0 <= i < |t.log| && t.log[i].r.Dyn?
      ensures t.log[i].a in t.place && (t.place[t.log[i].a] == Gone || t.place[t.log[i].a].r == t.log[i].r)
    {
      if i < |s.log| {
        assert t.log[i] == s.log[i] && s.log[i] in s.log;
      }
    }
  }

  /** A new dispatch is of no task that a dynamic peon has dispatched before. */
  lemma NewDispatch(s: State, t: State, r: PeonId, f: Event, j: nat)
    requires Inv(s) && Staged(s) && Rooted(s) && Acted(s, t, r, true) && r in s.peons
    requires r.Dyn? ==> s.peons[r].stage == Spawned
    requires f in s.log && f.r.Dyn? && |s.log| <= j < |t.log| && Ran(t.log[j])
    ensures t.log[j].a != f.a
  {
    hide Inv, Others, Stays;
    WaitPlace(s, r);
    if r.Dyn? {
      assert StagedPeon(s.peons[r], s.log);
      assert t.log[j].a in s.peons[r].wait;
      assert f.a != s.peons[r].wait[0];
    }
  }

  lemma NextOnce(s: State, t: State, r: PeonId)
    requires Inv(s) && Lively(s) && Acted(s, t, r, true) && r in s.peons
    requires r.Dyn? ==> s.peons[r].stage == Spawned
    ensures Once(t.log)
  {
    hide Inv, Others, Stays, Staged, Rooted;
    forall i, j | 0 <= i < j < |t.log| && Ran(t.log[i]) && Ran(t.log[j]) && t.log[i].r.Dyn?
      ensures t.log[i].a != t.log[j].a
    {
      assert i < |s.log| && t.log[i] == s.log[i] && s.log[i] in s.log;
      if j < |s.log| {
        assert t.log[j] == s.log[j];
      } else {
        NewDispatch(s, t, r, s.log[i], j);
      }
    }
  }

  lemma NextLively(s: State, e: Step)
    requires Inv(s) && HasStatics(s) && Enabled(s, e) && Lively(s)
    ensures Lively(Next(s, e))
  {
    hide Inv, Next, GetTask, Acted, StagedPeon, Rooted, Once;
    var t, r := Next(s, e), Actor(e);
    var dispatch := e.Get? && GetTask(s, e.r, e.w, e.clock).1;
    NextActed(s, e);
    NextRooted(s, t, r, dispatch);
    if dispatch {
      NextOnce(s, t, r);
    } else {
      QuietOnce(s, t, r);
    }
    forall q | q in t.peons && q.Dyn?
      ensures StagedPeon(t.peons[q], t.log)
    {
      if q == r {
        ActorStaged(s, e);
      } else {
        OtherStaged(s, t, r, dispatch, q);
      }
    }
  }

  lemma QuietOnce(s: State, t: State, r: PeonId)
    requires Once(s.log) && Acted(s, t, r, false)
    ensures Once(t.log)
  {
    hide Others, Stays;
    forall i, j | 0 <= i < j < |t.log| && Ran(t.log[i]) && Ran(t.log[j]) && t.log[i].a == t.log[j].a
      ensures !t.log[i].r.Dyn?
    {
      assert j < |s.log| && t.log[i] == s.log[i] && t.log[j] == s.log[j];
    }
  }

  lemma {:induction false} RunLively(s: State, steps: seq<Step>, t: State)
    requires Inv(s) && Lively(s) && Run(s, steps, t)
    ensures Lively(t)
    decreases |steps|
  {
    hide Inv, Next, Lively;
    if steps != [] {
      NextInv(s, steps[0]);
      NextLively(s, steps[0]);
      RunLively(Next(s, steps[0]), steps[1..], t);
    }
  }

  lemma InitLively(restrain: nat)
    ensures Lively(Init(restrain))
  {
  }

  lemma ReachableLively(s: State)
    requires Reachable(s)
    ensures Lively(s)
  {
    hide Inv, Lively, Run, Init;
    var restrain: nat, steps: seq<Step> :| Run(Init(restrain), steps, s);
    InitInv(restrain);
    InitLively(restrain);
    RunLively(Init(restrain), steps, s);
  }

  /** The one task that a dynamic peon has before its pass. */
  lemma OneTask(s: State, d: nat)
    requires Reachable(s) && Dyn(d) in s.peons && s.peons[Dyn(d)].stage == Spawned
    ensures |s.peons[Dyn(d)].wait| == 1 && s.peons[Dyn(d)].proc == [] && s.peons[Dyn(d)].wait[0] in s.heap
  {
    hide Reachable, Inv, Rooted, Once;
    ReachableInv(s);
    ReachableLively(s);
    InFlight(s, Dyn(d));
    WaitAllAt(s, Dyn(d));
    AllAtFirst(s, s.peons[Dyn(d)].wait, Wait(Dyn(d)));
  }

  /**
  A dynamic peon has one task and one pass: the task runs if it is live and due and nothing
  stands in its way, and otherwise it is freed when the peon closes.
  */
  lemma DynamicOneChance(s: State, d: nat, clock: Addr -> int)
    requires Reachable(s) && Enabled(s, Get(Dyn(d), 0, clock))
    ensures exists a :: s.peons[Dyn(d)].wait == [a] && a in s.heap
    ensures forall a :: s.peons[Dyn(d)].wait == [a] && a in s.heap && a in s.place ==>
              var t := GetTask(s, Dyn(d), 0, clock);
              && (t.1 <==> Unrivalled(s, Dyn(d), a, clock(a)))
              && (!t.1 ==> Enabled(t.0, Close(d)) && HasStatics(t.0) && a !in Next(t.0, Close(d)).heap)
  {
    hide Inv, Reachable, Next, GetTask, Unrivalled;
    OneTask(s, d);
    var w := s.peons[Dyn(d)].wait;
    assert w == [w[0]] && w[0] in s.heap;
    forall a | w == [a] && a in s.heap && a in s.place
      ensures var t := GetTask(s, Dyn(d), 0, clock);
              && (t.1 <==> Unrivalled(s, Dyn(d), a, clock(a)))
              && (!t.1 ==> Enabled(t.0, Close(d)) && HasStatics(t.0) && a !in Next(t.0, Close(d)).heap)
    {
      OneChance(s, d, a, clock);
    }
  }

  lemma OneChance(s: State, d: nat, a: Addr, clock: Addr -> int)
    requires Reachable(s) && Enabled(s, Get(Dyn(d), 0, clock))
    requires s.peons[Dyn(d)].wait == [a] && a in s.heap && a in s.place
    ensures var t := GetTask(s, Dyn(d), 0, clock);
      && (t.1 <==> Unrivalled(s, Dyn(d), a, clock(a)))
      && (!t.1 ==> Enabled(t.0, Close(d)) && HasStatics(t.0) && a !in Next(t.0, Close(d)).heap)
  {
    hide Inv, Pass, Reachable, AllAt, Unrivalled, Visit;
    ReachableInv(s);
    var r := Dyn(d);
    WaitAllAt(s, r);
    OnePass(s, r, a, clock);
    ChosenIff(s, r, 0, a, clock(a));
    if !Pass(s, r, 0, [a], clock).1 {
      UnusedCloses(s, r, a, clock, GetTask(s, r, 0, clock).0);
    }
  }

  /** What a dynamic peon has dispatched is never dispatched again, by anybody. */
  lemma DispatchedOnce(s: State, i: nat, j: nat)
    requires Reachable(s) && i < j < |s.log| && Ran(s.log[i]) && s.log[i].r.Dyn? && Ran(s.log[j])
    ensures s.log[j].a != s.log[i].a
  {
    hide Reachable, Staged, Rooted;
    ReachableLively(s);
  }

  /** Whatever the handler says, the task of a dynamic peon is gone once that has closed. */
  lemma DynamicEnds(s: State, d: nat, w: nat, failed: bool, now: int)
    requires Reachable(s) && HasStatics(s) && Enabled(s, Complete(Dyn(d), w, failed, now))
    ensures var t := Next(s, Complete(Dyn(d), w, failed, now));
      && HasStatics(t) && Enabled(t, Close(d))
      && s.peons[Dyn(d)].busy[w] !in Next(t, Close(d)).heap
  {
    hide Inv, Reachable, FinishTask, CloseAll, AllAt;
    ReachableInv(s);
    var r := Dyn(d);
    var a, t := s.peons[r].busy[w], Next(s, Complete(r, w, failed, now));
    HandlingBusy(s, r, w);
    CompleteInv(s, r, w, failed, now);
    StaticsServe(t);
    FinishIdle(s, r, w, failed, now);
    CompletePlace(s, r, w, failed, now);
    WaitAllAt(t, r);
    WaitPlace(t, r);
    GoneNotInHeap(t, a);
    CloseFrees(t, r, t.peons[r].wait, a);
  }

  lemma CompletePlace(s: State, r: PeonId, w: nat, failed: bool, now: int)
    requires r.Dyn? && r in s.peons && w in s.peons[r].busy && Handling(s, r, w, s.peons[r].busy[w])
    ensures var a, t := s.peons[r].busy[w], CompleteTask(s, r, w, failed, now);
      a in t.place && (t.place[a] == Gone || t.place[a] == Wait(r))
  {
    hide Attach, Detach;
  }

  lemma UnusedCloses(s: State, r: PeonId, a: Addr, clock: Addr -> int, t: State)
    requires Inv(s) && r.Dyn? && Ready(s, r, 0) && s.peons[r].stage == Spawned && s.peons[r].wait == [a] && a in s.heap
    requires t == GetTask(s, r, 0, clock).0 && !Pass(s, r, 0, [a], clock).1
    ensures HasStatics(t) && r in t.peons && t.peons[r].stage == Closing
    ensures a !in CloseAll(t, r, t.peons[r].wait).heap
  {
    hide Inv, Pass, AllAt, Visit;
    WaitAllAt(s, r);
    WaitPlace(s, r);
    assert a in s.peons[r].wait;
    PassInv(s, r, 0, [a], clock);
    GetInv(s, r, 0, clock);
    StaticsServe(t);
    UnusedFreed(s, r, a, clock, t);
  }

  lemma UnusedFreed(s: State, r: PeonId, a: Addr, clock: Addr -> int, t: State)
    requires Ready(s, r, 0) && a in s.heap && a in s.place && s.place[a] == Wait(r) && s.peons[r].wait == [a]
    requires Inv(t) && r in t.peons && r.Dyn? && t == GetTask(s, r, 0, clock).0 && !Pass(s, r, 0, [a], clock).1
    ensures a !in CloseAll(t, r, t.peons[r].wait).heap
  {
    hide Inv, Pass, AllAt, Visit, CloseAll;
    OnePass(s, r, a, clock);
    VisitFrame(s, r, 0, a, clock(a));
    WaitPlace(t, r);
    WaitAllAt(t, r);
    GoneNotInHeap(t, a);
    CloseFrees(t, r, t.peons[r].wait, a);
  }

  lemma GoneNotInHeap(s: State, a: Addr)
    requires Inv(s) && a in s.place
    ensures a in s.heap <==> s.place[a] != Gone
  {
    hide Honest, Listed, Staffed, Counted, DynCounted;
  }

  /** What the log says of a task that is handed out. */
  lemma VisitServes(s: State, r: PeonId, w: nat, a: Addr, now: int)
    requires Unrivalled(s, r, a, now)
    ensures var (t, v) := Visit(s, r, w, a, now);
      && v == Chosen && t.place == s.place[a := Proc(r)] && |t.log| == |s.log| + 1
      && var f := t.log[|s.log|];
         Ran(f) && f.a == a && f.r == r && f.task == s.heap[a] && f.inherited == (a in s.inherited)
  {
    hide Rival, Start, Kill, Drop;
    var k, t := KindOf(r), s.heap[a];
    ChosenIff(s, r, w, a, now);
    KillSpares(s, k, a);
    StartShape(Kill(s, k, t), r, w, a, now);
  }

  lemma OnePass(s: State, r: PeonId, a: Addr, clock: Addr -> int)
    requires r in s.peons && r != Recheck && a in s.heap && a in s.place
    ensures Pass(s, r, 0, [a], clock).1 <==> Visit(s, r, 0, a, clock(a)).1 == Chosen
    ensures Pass(s, r, 0, [a], clock).0 == Visit(s, r, 0, a, clock(a)).0
  {
    hide Visit;
  }

  lemma {:induction false} CloseFrees(s: State, r: PeonId, todo: seq<Addr>, a: Addr)
    requires Inv(s) && r in s.peons && r.Dyn? && s.peons[r].wait == todo && AllAt(s, todo, Wait(r))
    requires a in todo || a !in s.heap
    ensures a !in CloseAll(s, r, todo).heap
    decreases |todo|
  {
    if todo != [] {
      hide Inv, AllAt, Attach, Detach;
      AllAtFirst(s, todo, Wait(r));
      CloseOneInv(s, r, todo[0]);
      CloseOneFrame(s, r, todo);
      var s1 := Move(Note(s, Free, todo[0], r), todo[0], Gone, s.heap[todo[0]]);
      AllAtRest(s, s1, todo, Wait(r), Gone);
      CloseFrees(s1, r, todo[1..], a);
    }
  }
}

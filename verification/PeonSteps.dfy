/** Every step of the peon scheduler keeps the invariant. */
module PeonSteps {
  import opened PeonModel
  import opened PeonInvariants
  import opened Collections

  // ---------- The turns of the loops ----------

  lemma KillInv(s: State, k: Kind, t: Task)
    requires Inv(s)
    ensures Inv(Kill(s, k, t))
  {
    KillStocked(s, k, t);
    KillHonest(s, k, t);
    KillPatient(s, k, t);
    hide Stocked, Patient, Honest, Kill;
  }

  lemma KillStocked(s: State, k: Kind, t: Task)
    requires Stocked(s)
    ensures Stocked(Kill(s, k, t))
  {
    hide Rival, Holds, StaffedPeon, Debt;
  }

  /** After judging, a task that is not discarded faces no live rival. */
  lemma KillClears(s: State, k: Kind, t: Task)
    requires !Discards(s, k, t)
    ensures Clear(Kill(s, k, t), k, t)
  {
    forall x | Rival(Kill(s, k, t), k, t, x)
      ensures s.heap[x].sn == t.sn
    {
      assert Rival(s, k, t, x);
    }
  }

  /** A task that moves, with everything that goes with it, keeps the invariant. */
  lemma EventInv(s: State, s': State, e: Event, to: Place, t: Task, w: nat)
    requires Inv(s) && Relocated(s, s', e.a, to)
    requires Befell(s, s', e, to, t) && Ticked(s, s', e, to) && Shifted(s, s', e, to, w)
    requires Ran(e) ==> Clear(s, KindOf(e.r), e.task)
    requires s'.dynNum == s.dynNum
    requires forall r :: r in s.peons && r in s'.peons ==> s'.peons[r].stage == s.peons[r].stage
    requires to.Proc? ==> !Ending(s.peons[e.r].stage)
    requires to.Wait? ==> s.peons[to.r].stage != Closed
    ensures Inv(s')
  {
    hide Listed, Staffed, Counted, DynCounted, Honest, Patient, Relisted, Moved, Ticked, Shifted, Clear;
    assert s.place[e.a] != Gone;
    HonestNumbered(s);
    RelocatedRehoused(s, s', e.a, to);
    ShiftedStocked(s, s', e, to, w);
    BefellHonest(s, s', e, to, t);
    BefellPatient(s, s', e, to, t);
  }

  lemma HonestNumbered(s: State)
    requires Honest(s)
    ensures Numbered(s)
  {
  }

  /** The move of a task within one step, seen through `n`, which has only made a note of it. */
  lemma NotedRelocated(s: State, n: State, s': State, a: Addr, to: Place, t: Task)
    requires a in s.heap && a in s.place && to != s.place[a]
    requires to != Proc(Recheck) && (to != Gone ==> to.r in s.peons)
    requires n.peons == s.peons && n.place == s.place && n.heap == s.heap
    requires s'.place == Move(n, a, to, t).place && s'.heap == Move(n, a, to, t).heap
    requires s'.peons.Keys == Move(n, a, to, t).peons.Keys
    requires forall r :: r in s'.peons ==>
               && s'.peons[r].wait == Move(n, a, to, t).peons[r].wait
               && s'.peons[r].proc == Move(n, a, to, t).peons[r].proc
    ensures Relocated(s, s', a, to)
  {
    hide Moved, Move;
    MoveRelocated(n, a, to, t);
    assert forall r :: r in s'.peons <==> r in s'.peons.Keys;
    assert forall r :: r in Move(n, a, to, t).peons <==> r in Move(n, a, to, t).peons.Keys;
  }

  lemma DropInv(s: State, r: PeonId, a: Addr)
    requires Inv(s) && r in s.peons && r != Recheck && a in s.heap && a in s.place && s.place[a] == Wait(r)
    ensures Inv(Drop(s, r, a))
  {
    hide Inv, Moved, Move;
    var n, s' := Note(s, Free, a, r), Drop(s, r, a);
    MoveRelocated(n, a, Gone, s.heap[a]);
    NotedRelocated(s, n, s', a, Gone, s.heap[a]);
    EventInv(s, s', n.log[|s.log|], Gone, s.heap[a], 0);
  }

  lemma StartInv(s: State, r: PeonId, w: nat, a: Addr, now: int)
    requires Inv(s) && r in s.peons && r != Recheck && a in s.heap && a in s.place && s.place[a] == Wait(r)
    requires w < WorkerNum(r) && w !in s.peons[r].busy && !Ending(s.peons[r].stage)
    requires s.heap[a].state == Live && Clear(s, KindOf(r), s.heap[a]) && TimeOut(s.heap[a], s.peons[r].restrain, now)
    ensures Inv(Start(s, r, w, a, now))
  {
    hide Inv, Moved, Move, Clear;
    var n, s' := Note(s, Dispatch(now, s.peons[r].restrain), a, r), Start(s, r, w, a, now);
    MoveRelocated(n, a, Proc(r), s.heap[a]);
    NotedRelocated(s, n, s', a, Proc(r), s.heap[a]);
    EventInv(s, s', n.log[|s.log|], Proc(r), s.heap[a], w);
  }

  /** The hypothesis under which worker `w` of `r` is handling `a`. */
  ghost predicate Handling(s: State, r: PeonId, w: nat, a: Addr) {
    && r in s.peons && r != Recheck && w in s.peons[r].busy && s.peons[r].busy[w] == a
    && a in s.heap && a in s.place && s.place[a] == Proc(r)
    && s.peons[r].stage != Closed
  }

  lemma HandlingBusy(s: State, r: PeonId, w: nat)
    requires Inv(s) && r in s.peons && r != Recheck && w in s.peons[r].busy
    ensures Handling(s, r, w, s.peons[r].busy[w])
    ensures r.Dyn? ==> s.peons[r].busy - {w} == map[]
  {
    BusyPlace(s, r, w);
    hide Listed, Staffed, Counted, Honest;
  }

  lemma BusyPlace(s: State, r: PeonId, w: nat)
    requires Listed(s) && Staffed(s) && r in s.peons && w in s.peons[r].busy
    ensures s.peons[r].busy[w] in s.place && s.place[s.peons[r].busy[w]] == Proc(r)
    ensures r.Dyn? ==> s.peons[r].busy - {w} == map[]
  {
    assert StaffedPeon(s.peons[r], r) && Holds(s.peons[r].proc, s.place, Proc(r));
    hide Listed, Staffed;
  }

  lemma StaticsServe(s: State)
    requires Inv(s)
    ensures HasStatics(s)
    ensures forall r :: r in s.peons && !r.Dyn? ==> s.peons[r].stage == Serving
  {
    hide Listed, Housed, Staffed, Counted, Honest;
  }

  /** Where a task goes that is laid down, and what becomes of it. */
  ghost predicate Outcome(s: State, r: PeonId, what: What, a: Addr, to: Place, t: Task)
    requires a in s.heap
  {
    match what
    case Free => to == Gone && t == s.heap[a]
    case Retry(now) => to == Wait(r) && t == s.heap[a].(nextRun := now + RETRY_INTERVAL) && t.state == Live
    case Settle => r == Conn && to == Wait(Recheck) && t == s.heap[a].(sn := 0) && t.state == Live
    case _ => false
  }

  /** Taking one worker and one count from the peon `r` changes nothing else. */
  lemma Idled(m: State, r: PeonId, busy: map<nat, Addr>)
    requires r in m.peons
    ensures Tick(SetBusy(m, r, busy), r, -1)
         == m.(peons := m.peons[r := m.peons[r].(busy := busy, count := m.peons[r].count - 1)])
  {
  }

  lemma LaidDown(s: State, r: PeonId, w: nat, what: What, a: Addr, to: Place, t: Task)
    requires Handling(s, r, w, a) && Outcome(s, r, what, a, to, t) && HasStatics(s)
    ensures var s', e := LayDown(s, r, w, what, a, to, t), Note(s, what, a, r).log[|s.log|];
      && Relocated(s, s', a, to)
      && s' == s.(peons := s'.peons, place := s.place[a := to], log := s.log + [e],
                  heap := if to == Gone then s.heap - {a} else s.heap[a := t])
  {
    hide Moved, Move, Batches, Tick, SetBusy;
    var n, s' := Note(s, what, a, r), LayDown(s, r, w, what, a, to, t);
    MoveRelocated(n, a, to, t);
    Idled(Move(n, a, to, t), r, s.peons[r].busy - {w});
    NotedRelocated(s, n, s', a, to, t);
    hide Relocated;
  }

  lemma LaidDownPeon(s: State, r: PeonId, w: nat, what: What, a: Addr, to: Place, t: Task, q: PeonId)
    requires Handling(s, r, w, a) && Outcome(s, r, what, a, to, t) && HasStatics(s) && q in s.peons
    ensures var s' := LayDown(s, r, w, what, a, to, t);
      && q in s'.peons && s'.peons[q].stage == s.peons[q].stage
      && s'.peons[q].count == s.peons[q].count - (if q == r then 1 else 0)
      && s'.peons[q].busy == (if q == r then s.peons[q].busy - {w} else s.peons[q].busy)
  {
    hide Moved, Move, Batches, Tick, SetBusy;
    var m := Move(Note(s, what, a, r), a, to, t);
    MoveRelocated(Note(s, what, a, r), a, to, t);
    assert q in m.peons && r in m.peons;
    hide Relocated;
    Idled(m, r, s.peons[r].busy - {w});
  }

  lemma LaidDownCrew(s: State, r: PeonId, w: nat, what: What, a: Addr, to: Place, t: Task)
    requires Handling(s, r, w, a) && Outcome(s, r, what, a, to, t) && HasStatics(s)
    ensures var s', e := LayDown(s, r, w, what, a, to, t), Note(s, what, a, r).log[|s.log|];
      && Ticked(s, s', e, to) && Shifted(s, s', e, to, w)
      && forall q :: q in s.peons && q in s'.peons ==> s'.peons[q].stage == s.peons[q].stage
  {
    hide LayDown, Relocated, Batches;
    LaidDown(s, r, w, what, a, to, t);
    forall q | q in s.peons
      ensures var s' := LayDown(s, r, w, what, a, to, t);
        && q in s'.peons && s'.peons[q].stage == s.peons[q].stage
        && s'.peons[q].count == s.peons[q].count - (if q == r then 1 else 0)
        && s'.peons[q].busy == (if q == r then s.peons[q].busy - {w} else s.peons[q].busy)
    {
      LaidDownPeon(s, r, w, what, a, to, t, q);
    }
  }

  lemma LayDownInv(s: State, r: PeonId, w: nat, what: What, a: Addr, to: Place, t: Task)
    requires Inv(s) && Handling(s, r, w, a) && Outcome(s, r, what, a, to, t)
    ensures Inv(LayDown(s, r, w, what, a, to, t))
  {
    hide Inv, LayDown, Relocated, Ticked, Shifted, Batches;
    StaticsServe(s);
    LaidDown(s, r, w, what, a, to, t);
    LaidDownCrew(s, r, w, what, a, to, t);
    EventInv(s, LayDown(s, r, w, what, a, to, t), Note(s, what, a, r).log[|s.log|], to, t, w);
  }

  lemma FinishInv(s: State, r: PeonId, w: nat, failed: bool, now: int)
    requires Inv(s) && r in s.peons && r != Recheck && w in s.peons[r].busy
    ensures Inv(FinishTask(s, r, w, failed, now))
  {
    hide Inv, LayDown;
    HandlingBusy(s, r, w);
    var a := s.peons[r].busy[w];
    var t := s.heap[a];
    if t.state == Live && failed {
      LayDownInv(s, r, w, Retry(now), a, Wait(r), t.(nextRun := now + RETRY_INTERVAL));
    } else if t.state == Live && r == Conn {
      LayDownInv(s, r, w, Settle, a, Wait(Recheck), t.(sn := 0));
    } else {
      LayDownInv(s, r, w, Free, a, Gone, t);
    }
  }

  lemma FinishIdle(s: State, r: PeonId, w: nat, failed: bool, now: int)
    requires r in s.peons && w in s.peons[r].busy && s.peons[r].busy[w] in s.heap && s.peons[r].busy[w] in s.place
    ensures r in FinishTask(s, r, w, failed, now).peons
    ensures FinishTask(s, r, w, failed, now).peons[r].busy == s.peons[r].busy - {w}
  {
    hide Extract;
  }

  lemma FrameHonest(s: State, s': State)
    requires Honest(s)
    requires s' == s.(peons := s'.peons, dynNum := s'.dynNum, deferred := s'.deferred)
    ensures Honest(s')
  {
    hide Match;
    assert forall e, a :: Facing(s', e, a) ==> Facing(s, e, a);
  }

  /** Every peon of `s'` is one of `s`, but for its stage and its restrain time. */
  ghost predicate Alike(s: State, s': State) {
    && s' == s.(peons := s'.peons, dynNum := s'.dynNum)
    && forall q :: q in s'.peons ==>
         q in s.peons && s'.peons[q] == s.peons[q].(stage := s'.peons[q].stage, restrain := s'.peons[q].restrain)
  }

  lemma AlikePlaced(s: State, s': State)
    requires Placed(s) && Alike(s, s') && HasStatics(s')
    requires forall a :: a in s.place && s.place[a] != Gone ==> s.place[a].r in s'.peons
    ensures Placed(s')
  {
    hide Holds;
    assert Listed(s');
    hide Listed;
  }

  lemma AlikeStaffed(s: State, s': State)
    requires Staffed(s) && Alike(s, s')
    ensures Staffed(s')
  {
    hide StaffedPeon;
    forall q | q in s'.peons
      ensures StaffedPeon(s'.peons[q], q)
    {
      SameStaff(s.peons[q], s'.peons[q], q);
    }
  }

  lemma SameStaff(p: Peon, q: Peon, r: PeonId)
    requires StaffedPeon(p, r) && q.proc == p.proc && q.busy == p.busy
    ensures StaffedPeon(q, r)
  {
  }

  lemma AlikeCounted(s: State, s': State)
    requires Counted(s) && Alike(s, s')
    ensures Counted(s')
  {
    hide Debt;
    assert forall q :: q in s'.peons && Working(q) ==> CountedPeon(s.peons[q], q, s.log);
  }

  lemma AlikeInv(s: State, s': State)
    requires Inv(s) && Alike(s, s') && HasStatics(s') && DynCounted(s')
    requires forall a :: a in s.place && s.place[a] != Gone ==> s.place[a].r in s'.peons
    ensures Inv(s')
  {
    hide Placed, Staffed, Counted, DynCounted, Honest, Patient;
    AlikePlaced(s, s');
    AlikeStaffed(s, s');
    AlikeCounted(s, s');
    FrameHonest(s, s');
    FramePatient(s, s');
  }

  lemma FramePatient(s: State, s': State)
    requires Patient(s) && s' == s.(peons := s'.peons, dynNum := s'.dynNum)
    ensures Patient(s')
  {
    hide Match, Explained;
    assert forall e, a :: Facing(s', e, a) ==> Facing(s, e, a);
    assert forall a :: Owner(s', a) ==> Owner(s, a);
    forall d | d in s'.deferred
      ensures Watched(s', d)
    {
      assert Watched(s, d);
    }
  }

  lemma SetStageInv(s: State, r: PeonId, stage: Stage)
    requires Inv(s) && r in s.peons && r.Dyn?
    requires Ending(stage) ==> s.peons[r].busy == map[]
    requires stage == Closed ==> s.peons[r].wait == []
    ensures Inv(SetStage(s, r, stage))
  {
    hide Listed, Staffed, Counted, Honest;
    assert DynIds(SetStage(s, r, stage)) == DynIds(s);
    AlikeInv(s, SetStage(s, r, stage));
  }

  lemma CompleteInv(s: State, r: PeonId, w: nat, failed: bool, now: int)
    requires Inv(s) && r in s.peons && r != Recheck && w in s.peons[r].busy
    ensures Inv(CompleteTask(s, r, w, failed, now))
  {
    hide Inv, FinishTask;
    FinishInv(s, r, w, failed, now);
    HandlingBusy(s, r, w);
    FinishIdle(s, r, w, failed, now);
    if r.Dyn? {
      SetStageInv(FinishTask(s, r, w, failed, now), r, Closing);
    }
  }

  // ---------- peon_task_get ----------

  /** Worker `w` of the peon `r` may make a pass. */
  ghost predicate Ready(s: State, r: PeonId, w: nat) {
    && r in s.peons && r != Recheck && w < WorkerNum(r) && w !in s.peons[r].busy
    && !Ending(s.peons[r].stage)
  }

  ghost predicate AllAt(s: State, todo: seq<Addr>, p: Place) {
    NoDup(todo) && forall a :: a in todo ==> a in s.place && s.place[a] == p
  }

  /** `s'` has the peons of `s`; their workers and stages are as they were. */
  ghost predicate SameCrew(s: State, s': State) {
    && (forall q :: q in s'.peons <==> q in s.peons)
    && (forall q :: q in s.peons && q in s'.peons ==>
          s'.peons[q].busy == s.peons[q].busy && s'.peons[q].stage == s.peons[q].stage
          && s'.peons[q].restrain == s.peons[q].restrain)
  }

  lemma MoveGoneCrew(s: State, a: Addr, t: Task)
    requires a in s.place
    ensures SameCrew(s, Move(s, a, Gone, t)) && Move(s, a, Gone, t).place == s.place[a := Gone]
  {
    hide Extract;
  }

  lemma TickCrew(s: State, r: PeonId, n: int)
    ensures SameCrew(s, Tick(s, r, n)) && Tick(s, r, n).place == s.place
  {
  }

  lemma DropFrame(s: State, r: PeonId, a: Addr)
    requires a in s.heap && a in s.place && s.place[a] != Gone && s.place[a] != Proc(Recheck)
    ensures SameCrew(s, Drop(s, r, a))
    ensures Drop(s, r, a).place == s.place[a := Gone]
  {
    hide Move, Tick;
    var s1 := Note(s, Free, a, r);
    MoveGoneCrew(s1, a, s.heap[a]);
    TickCrew(Move(s1, a, Gone, s.heap[a]), r, -1);
  }

  lemma StartFrame(s: State, r: PeonId, w: nat, a: Addr, now: int)
    requires r in s.peons && a in s.heap && a in s.place
    ensures forall q :: q in Start(s, r, w, a, now).peons <==> q in s.peons
    ensures r in Start(s, r, w, a, now).peons && Start(s, r, w, a, now).peons[r].busy == s.peons[r].busy[w := a]
    ensures Start(s, r, w, a, now).place == s.place[a := Proc(r)]
    ensures Start(s, r, w, a, now).peons[r].stage == s.peons[r].stage
  {
    hide Moved, Extract;
    MovePeon(Note(s, Dispatch(now, s.peons[r].restrain), a, r), a, Proc(r), s.heap[a], r);
  }

  lemma KillSpares(s: State, k: Kind, a: Addr)
    requires a in s.heap
    ensures var s1 := Kill(s, k, s.heap[a]);
      s1 == s.(heap := s1.heap) && s1.heap.Keys == s.heap.Keys && s1.heap[a] == s.heap[a]
  {
    hide Rival;
  }

  /** A task that is judged is known under its number. */
  lemma JudgedKnown(s: State, r: PeonId, a: Addr, d: Deferral)
    requires Numbered(s) && a in s.heap && a in s.place && s.place[a] == Wait(r) && r != Recheck
    requires d == Deferral(a, r, s.heap[a], a in s.inherited, s.pending, d.batches, d.older)
    requires d.older != {} && forall n :: n in d.older ==> n < d.task.sn
    ensures Known(s, Judged(d)) && Traced(s, d)
  {
    assert a in s.inherited || Owner(s, a);
  }

  /** Once older rivals are dead, the judged task is outdated by nothing but what is out. */
  lemma JudgedOutdated(s: State, r: PeonId, a: Addr, d: Deferral)
    requires a in s.heap && r != Recheck
    requires var k, t := KindOf(r), s.heap[a];
      d == Deferral(a, r, t, d.inherited, s.pending, Batches(s, t.param), d.older)
    ensures Outdated(Kill(s, KindOf(r), s.heap[a]), Judged(d))
  {
    hide Match;
    var k, t := KindOf(r), s.heap[a];
    var s1 := Kill(s, k, t);
    forall x | Facing(s1, Judged(d), x)
      ensures s1.heap[x].sn >= t.sn
    {
      assert Rival(s, k, t, x) && s1.heap[x] == s.heap[x];
    }
    forall b | Handing(s1, Judged(d), b)
      ensures s1.heap[b].sn in d.batches
    {
      assert b in s.heap && s.place[b] == Proc(Dcb);
    }
  }

  /** Whoever puts the task off now was out when it was put off before. */
  lemma BlockersOut(s: State, r: PeonId, a: Addr, d: Deferral, n: nat)
    requires Watched(s, d) && a in s.heap && a in s.place && s.place[a] == Wait(r) && r != Recheck
    requires d.a == a && d.task.sn == s.heap[a].sn && n in Blockers(s, KindOf(r), s.heap[a])
    requires forall x :: x in s.place ==> s.place[x] != Proc(Recheck)
    ensures n in d.pending || (d.r == Conn && n in d.batches)
  {
    hide Match;
    var k, t := KindOf(r), s.heap[a];
    var x :| x in s.heap && Rival(s, k, t, x) && s.heap[x].sn < t.sn && s.place[x].Proc? && s.heap[x].sn == n;
    assert Facing(s, Judged(d), x);
  }

  lemma BlockersOlder(s: State, k: Kind, t: Task)
    requires Defers(s, k, t)
    ensures Blockers(s, k, t) != {} && forall n :: n in Blockers(s, k, t) ==> n < t.sn
  {
    var x :| x in s.heap && Rival(s, k, t, x) && s.heap[x].sn < t.sn && s.place[x].Proc?;
    assert s.heap[x].sn in Blockers(s, k, t);
    hide Rival;
  }

  lemma PutOffPatient(s: State, r: PeonId, a: Addr)
    requires Numbered(s) && Patient(s) && a in s.heap && a in s.place && s.place[a] == Wait(r) && r != Recheck
    requires Defers(s, KindOf(r), s.heap[a])
    requires forall x :: x in s.place ==> s.place[x] != Proc(Recheck)
    ensures var k, t := KindOf(r), s.heap[a]; Patient(PutOff(Kill(s, k, t), r, a, Blockers(s, k, t)))
  {
    var k, t := KindOf(r), s.heap[a];
    var s1 := Kill(s, k, t);
    var older := Blockers(s, k, t);
    var s2 := PutOff(s1, r, a, older);
    var d := s2.deferred[|s.deferred|];
    KillSpares(s, k, a);
    KillPatient(s, k, t);
    KillBatches(s, k, t, t.param);
    BlockersOlder(s, k, t);
    JudgedKnown(s, r, a, d);
    JudgedOutdated(s, r, a, d);
    KillStillKnown(s, k, t, d);
    hide Kill, Blockers, Known, Outdated, Traced;
    forall f | f in s2.deferred
      ensures Watched(s2, f)
    {
      assert Watched(s1, f) by {
        assert f in s1.deferred || f == d;
      }
      PutOffWatched(s1, s2, f);
    }
    PutOffExplained(s, r, a, d);
    hide Explained, Watched;
  }

  lemma PutOffExplained(s: State, r: PeonId, a: Addr, d: Deferral)
    requires Patient(s) && a in s.heap && a in s.place && s.place[a] == Wait(r) && r != Recheck
    requires d.a == a && d.task == s.heap[a] && d.older == Blockers(s, KindOf(r), s.heap[a])
    requires forall x :: x in s.place ==> s.place[x] != Proc(Recheck)
    ensures Explained(s.deferred + [d])
  {
    hide Blockers, Watched;
    var ds := s.deferred + [d];
    forall i, j, n | 0 <= i < j < |ds| && ds[i].a == ds[j].a && ds[i].task.sn == ds[j].task.sn && n in ds[j].older
      ensures n in ds[i].pending || (ds[i].r == Conn && n in ds[i].batches)
    {
      assert ds[i] == s.deferred[i] && ds[i] in s.deferred;
      if j == |s.deferred| {
        BlockersOut(s, r, a, ds[i], n);
      } else {
        assert ds[j] == s.deferred[j];
      }
    }
  }

  lemma PutOffWatched(s: State, s': State, d: Deferral)
    requires Watched(s, d) && s' == s.(deferred := s'.deferred)
    ensures Watched(s', d)
  {
    hide Match;
    assert forall a :: Facing(s', Judged(d), a) ==> Facing(s, Judged(d), a);
    assert forall a :: Owner(s', a) ==> Owner(s, a);
  }

  lemma KillBatches(s: State, k: Kind, t: Task, param: Param)
    ensures Batches(Kill(s, k, t), param) == Batches(s, param)
  {
    hide Rival, Match;
  }

  lemma KillStillKnown(s: State, k: Kind, t: Task, d: Deferral)
    requires Known(s, Judged(d)) && Traced(s, d)
    ensures Known(Kill(s, k, t), Judged(d)) && Traced(Kill(s, k, t), d)
  {
    hide Rival;
    assert forall a :: Owner(Kill(s, k, t), a) ==> Owner(s, a) && Kill(s, k, t).heap[a].sn == s.heap[a].sn;
  }

  lemma PutOffInv(s: State, r: PeonId, a: Addr)
    requires Inv(s) && a in s.heap && a in s.place && s.place[a] == Wait(r) && r in s.peons && r != Recheck
    requires Defers(s, KindOf(r), s.heap[a])
    ensures var k, t := KindOf(r), s.heap[a]; Inv(PutOff(Kill(s, k, t), r, a, Blockers(s, k, t)))
  {
    hide Listed, Staffed, Counted, DynCounted, Honest, Patient, Blockers, Kill, Defers;
    var k, t := KindOf(r), s.heap[a];
    HonestNumbered(s);
    KillSpares(s, k, a);
    KillInv(s, k, t);
    PutOffPatient(s, r, a);
    var s1 := Kill(s, k, t);
    var s2 := PutOff(s1, r, a, Blockers(s, k, t));
    FrameHonest(s1, s2);
    DeferredStocked(s1, s2);
    hide Stocked;
  }

  lemma DeferredStocked(s: State, s': State)
    requires Stocked(s) && s' == s.(deferred := s'.deferred)
    ensures Stocked(s')
  {
    hide Holds, StaffedPeon, Debt;
    assert DynIds(s') == DynIds(s);
  }

  lemma VisitInv(s: State, r: PeonId, w: nat, a: Addr, now: int)
    requires Inv(s) && Ready(s, r, w) && a in s.heap && a in s.place && s.place[a] == Wait(r)
    ensures Inv(Visit(s, r, w, a, now).0)
  {
    hide Inv, Drop, Start, Rival, Kill, Defers, Discards, TimeOut, Clear;
    var t, k := s.heap[a], KindOf(r);
    var s1 := Kill(s, k, t);
    KillSpares(s, k, a);
    KillInv(s, k, t);
    if t.state == Dead {
      DropInv(s, r, a);
    } else if Defers(s, k, t) {
      PutOffInv(s, r, a);
    } else if Discards(s, k, t) {
      DropInv(s1, r, a);
    } else if TimeOut(t, s.peons[r].restrain, now) {
      KillClears(s, k, t);
      StartInv(s1, r, w, a, now);
    }
  }

  lemma VisitFrame(s: State, r: PeonId, w: nat, a: Addr, now: int)
    requires Ready(s, r, w) && a in s.heap && a in s.place && s.place[a] == Wait(r)
    ensures var (s', v) := Visit(s, r, w, a, now);
      && (v != Chosen ==> SameCrew(s, s') && (s'.place == s.place || s'.place == s.place[a := Gone]))
      && (v == Chosen ==>
            && s'.place == s.place[a := Proc(r)]
            && r in s'.peons && s'.peons[r].busy == s.peons[r].busy[w := a] && s'.peons[r].stage == s.peons[r].stage)
  {
    var t, k := s.heap[a], KindOf(r);
    var s1 := Kill(s, k, t);
    assert s1.heap[a] == t;
    hide Inv, Drop, Start, Rival;
    if t.state == Dead {
      DropFrame(s, r, a);
    } else if Defers(s, k, t) {
    } else if Discards(s, k, t) {
      DropFrame(s1, r, a);
    } else if TimeOut(t, s.peons[r].restrain, now) {
      StartFrame(s1, r, w, a, now);
    }
  }

  lemma AllAtFirst(s: State, todo: seq<Addr>, p: Place)
    requires Inv(s) && AllAt(s, todo, p) && todo != [] && p != Gone
    ensures todo[0] in s.place && s.place[todo[0]] == p && todo[0] in s.heap
  {
    assert todo[0] in todo;
    hide Listed, Staffed, Counted, DynCounted, Honest;
  }

  lemma AllAtRest(s: State, s': State, todo: seq<Addr>, p: Place, to: Place)
    requires AllAt(s, todo, p) && todo != []
    requires s'.place == s.place || s'.place == s.place[todo[0] := to]
    ensures AllAt(s', todo[1..], p)
  {
    assert forall a :: a in todo[1..] ==> a in todo && a != todo[0];
  }

  lemma ReadyStays(s: State, s': State, r: PeonId, w: nat)
    requires Ready(s, r, w) && SameCrew(s, s')
    ensures Ready(s', r, w)
  {
  }

  /** What a pass leaves of the workers and stages, having handed out a task or not. */
  ghost predicate Crewed(s: State, s': State, r: PeonId, chosen: bool) {
    if chosen then r in s.peons && r in s'.peons && s'.peons[r].stage == s.peons[r].stage else SameCrew(s, s')
  }

  lemma CrewedTrans(s: State, s1: State, s2: State, r: PeonId, chosen: bool)
    requires SameCrew(s, s1) && Crewed(s1, s2, r, chosen)
    ensures Crewed(s, s2, r, chosen)
  {
  }

  lemma VisitCrewed(s: State, r: PeonId, w: nat, a: Addr, now: int)
    requires Ready(s, r, w) && a in s.heap && a in s.place && s.place[a] == Wait(r)
    ensures var (s', v) := Visit(s, r, w, a, now);
      && Crewed(s, s', r, v == Chosen)
      && (v != Chosen ==> SameCrew(s, s') && Ready(s', r, w) && (s'.place == s.place || s'.place == s.place[a := Gone]))
  {
    hide Visit;
    VisitFrame(s, r, w, a, now);
  }

  lemma {:induction false} PassInv(s: State, r: PeonId, w: nat, todo: seq<Addr>, clock: Addr -> int)
    requires Inv(s) && Ready(s, r, w) && AllAt(s, todo, Wait(r))
    ensures Inv(Pass(s, r, w, todo, clock).0)
    ensures Crewed(s, Pass(s, r, w, todo, clock).0, r, Pass(s, r, w, todo, clock).1)
    decreases |todo|
  {
    assert Crewed(s, s, r, false);
    if todo != [] {
      hide Inv, Visit, AllAt, Crewed, Ready;
      assert r in s.peons && r != Recheck;
      AllAtFirst(s, todo, Wait(r));
      VisitInv(s, r, w, todo[0], clock(todo[0]));
      VisitCrewed(s, r, w, todo[0], clock(todo[0]));
      var (s1, v) := Visit(s, r, w, todo[0], clock(todo[0]));
      if v != Chosen {
        AllAtRest(s, s1, todo, Wait(r), Gone);
        PassInv(s1, r, w, todo[1..], clock);
        assert SameCrew(s, s1);
        CrewedTrans(s, s1, Pass(s1, r, w, todo[1..], clock).0, r, Pass(s1, r, w, todo[1..], clock).1);
      }
    }
  }

  lemma WaitAllAt(s: State, r: PeonId)
    requires Inv(s) && r in s.peons
    ensures AllAt(s, s.peons[r].wait, Wait(r))
  {
    hide Honest, Staffed, Counted, DynCounted, Housed;
    assert Holds(s.peons[r].wait, s.place, Wait(r));
  }

  lemma DynIdle(s: State, r: PeonId, w: nat)
    requires Inv(s) && r in s.peons && r.Dyn? && w < WorkerNum(r) && w !in s.peons[r].busy
    ensures s.peons[r].busy == map[]
  {
    hide Honest, Listed, Counted, DynCounted, Housed;
    assert StaffedPeon(s.peons[r], r);
  }

  lemma GetInv(s: State, r: PeonId, w: nat, clock: Addr -> int)
    requires Inv(s) && Enabled(s, Get(r, w, clock))
    ensures Inv(GetTask(s, r, w, clock).0)
  {
    hide Inv, Pass, AllAt;
    WaitAllAt(s, r);
    PassInv(s, r, w, s.peons[r].wait, clock);
    if r.Dyn? {
      DynIdle(s, r, w);
    }
    var (s1, found) := Pass(s, r, w, s.peons[r].wait, clock);
    if r.Dyn? {
      SetStageInv(s1, r, if found then Serving else Closing);
    }
  }

  // ---------- peon_run_recheck ----------

  lemma RecheckFreeInv(s: State, a: Addr)
    requires Inv(s) && a in s.heap && a in s.place && s.place[a] == Wait(Recheck)
    ensures Inv(Move(Note(s, Free, a, Recheck), a, Gone, s.heap[a]))
  {
    hide Inv, Moved, Move;
    StaticsServe(s);
    var n := Note(s, Free, a, Recheck);
    var s' := Move(n, a, Gone, s.heap[a]);
    MoveRelocated(n, a, Gone, s.heap[a]);
    NotedRelocated(s, n, s', a, Gone, s.heap[a]);
    EventInv(s, s', n.log[|s.log|], Gone, s.heap[a], 0);
  }

  lemma ReliveInv(s: State, a: Addr, now: int)
    requires Inv(s) && a in s.heap && a in s.place && s.place[a] == Wait(Recheck) && s.heap[a].state == Live
    ensures var t := s.heap[a].(tm := now, nextRun := 0, sn := s.lastSn + 1, state := Live);
            Inv(Move(Note(s, Relive, a, Recheck).(lastSn := s.lastSn + 1), a, Wait(Conn), t))
  {
    hide Inv, Moved, Move;
    StaticsServe(s);
    var t := s.heap[a].(tm := now, nextRun := 0, sn := s.lastSn + 1, state := Live);
    var n := Note(s, Relive, a, Recheck).(lastSn := s.lastSn + 1);
    var s' := Move(n, a, Wait(Conn), t);
    MoveRelocated(n, a, Wait(Conn), t);
    NotedRelocated(s, n, s', a, Wait(Conn), t);
    EventInv(s, s', n.log[|s.log|], Wait(Conn), t, 0);
  }

  lemma RecheckVisitInv(s: State, a: Addr, lost: set<Addr>, now: int)
    requires Inv(s) && a in s.heap && a in s.place && s.place[a] == Wait(Recheck)
    ensures Inv(RecheckVisit(s, a, lost, now))
    ensures RecheckVisit(s, a, lost, now).place == s.place
         || RecheckVisit(s, a, lost, now).place == s.place[a := Gone]
         || RecheckVisit(s, a, lost, now).place == s.place[a := Wait(Conn)]
  {
    hide Inv, Attach, Detach;
    if s.heap[a].state == Dead || !s.heap[a].rechecks {
      RecheckFreeInv(s, a);
    } else if a in lost {
      ReliveInv(s, a, now);
    }
  }

  lemma {:induction false} RecheckInv(s: State, todo: seq<Addr>, lost: set<Addr>, clock: Addr -> int,
                                      issued: Addr -> nat)
    requires Inv(s) && AllAt(s, todo, Wait(Recheck))
    ensures Inv(RecheckAll(s, todo, lost, clock, issued))
    decreases |todo|
  {
    if todo != [] {
      hide Inv, RecheckVisit, AllAt, Meanwhile;
      RecheckTurnInv(s, todo, lost, clock(todo[0]), issued(todo[0]));
      var s1 := RecheckVisit(Meanwhile(s, issued(todo[0])), todo[0], lost, clock(todo[0]));
      RecheckInv(s1, todo[1..], lost, clock, issued);
    }
  }

  lemma MeanwhileInv(s: State, k: nat)
    requires Inv(s)
    ensures Inv(Meanwhile(s, k))
  {
    hide Inv;
    RenumberedInv(s, Meanwhile(s, k));
  }

  /** One turn of the loop: the task is there, the invariant is kept, and the rest of the loop finds its tasks. */
  lemma RecheckTurnInv(s: State, todo: seq<Addr>, lost: set<Addr>, now: int, k: nat)
    requires Inv(s) && AllAt(s, todo, Wait(Recheck)) && todo != []
    ensures var m := Meanwhile(s, k);
      && m == s.(lastSn := m.lastSn, pending := m.pending) && Inv(m)
      && todo[0] in m.heap && todo[0] in m.place && m.place[todo[0]] == Wait(Recheck)
      && Inv(RecheckVisit(m, todo[0], lost, now))
      && AllAt(RecheckVisit(m, todo[0], lost, now), todo[1..], Wait(Recheck))
  {
    hide Inv, RecheckVisit, AllAt;
    var m := Meanwhile(s, k);
    AllAtFirst(s, todo, Wait(Recheck));
    MeanwhileInv(s, k);
    RecheckVisitInv(m, todo[0], lost, now);
    var s1 := RecheckVisit(m, todo[0], lost, now);
    AllAtRest(s, s1, todo, Wait(Recheck), if s1.place == s.place[todo[0] := Gone] then Gone else Wait(Conn));
  }

  // ---------- Closing a dynamic peon ----------

  lemma CloseOneInv(s: State, r: PeonId, a: Addr)
    requires Inv(s) && r in s.peons && r.Dyn? && a in s.heap && a in s.place && s.place[a] == Wait(r)
    ensures Inv(Move(Note(s, Free, a, r), a, Gone, s.heap[a]))
  {
    hide Inv, Moved, Move;
    var n := Note(s, Free, a, r);
    var s' := Move(n, a, Gone, s.heap[a]);
    MoveRelocated(n, a, Gone, s.heap[a]);
    NotedRelocated(s, n, s', a, Gone, s.heap[a]);
    EventInv(s, s', n.log[|s.log|], Gone, s.heap[a], 0);
  }

  lemma CloseOneFrame(s: State, r: PeonId, todo: seq<Addr>)
    requires r in s.peons && s.peons[r].wait == todo && todo != []
    requires todo[0] in s.heap && todo[0] in s.place && s.place[todo[0]] == Wait(r)
    ensures var s1 := Move(Note(s, Free, todo[0], r), todo[0], Gone, s.heap[todo[0]]);
      && s1.place == s.place[todo[0] := Gone]
      && r in s1.peons && s1.peons[r].wait == todo[1..] && s1.peons[r].busy == s.peons[r].busy
  {
    assert Extract(todo, todo[0]) == todo[1..];
  }

  lemma {:induction false} CloseAllInv(s: State, r: PeonId, todo: seq<Addr>)
    requires Inv(s) && r in s.peons && r.Dyn? && s.peons[r].wait == todo && AllAt(s, todo, Wait(r))
    ensures var s' := CloseAll(s, r, todo);
      Inv(s') && r in s'.peons && s'.peons[r].wait == [] && s'.peons[r].busy == s.peons[r].busy
    decreases |todo|
  {
    if todo != [] {
      hide Inv, AllAt, Move;
      AllAtFirst(s, todo, Wait(r));
      CloseOneInv(s, r, todo[0]);
      CloseOneFrame(s, r, todo);
      var s1 := Move(Note(s, Free, todo[0], r), todo[0], Gone, s.heap[todo[0]]);
      AllAtRest(s, s1, todo, Wait(r), Gone);
      CloseAllInv(s1, r, todo[1..]);
    }
  }

  lemma CloseInv(s: State, d: nat)
    requires Inv(s) && Enabled(s, Close(d))
    ensures Inv(SetStage(CloseAll(s, Dyn(d), s.peons[Dyn(d)].wait), Dyn(d), Closed))
  {
    hide Listed, Housed, Staffed, Counted, Honest, AllAt, CloseAll;
    WaitAllAt(s, Dyn(d));
    CloseAllInv(s, Dyn(d), s.peons[Dyn(d)].wait);
    SetStageInv(CloseAll(s, Dyn(d), s.peons[Dyn(d)].wait), Dyn(d), Closed);
  }

  // ---------- peon_task_add ----------

  /** A new task may be accepted at `a`, by the peon `r`. */
  ghost predicate Fresh(s: State, r: PeonId, a: Addr) {
    a !in s.place && r in s.peons && r != Recheck && s.peons[r].stage != Closed
  }

  lemma AcceptPlaced(s: State, r: PeonId, a: Addr, t: Task)
    requires Placed(s) && Fresh(s, r, a)
    ensures Placed(Accept(s, r, a, t))
  {
    hide Listed, Housed, Accept;
    AcceptListed(s, r, a, t);
    AcceptHoused(s, r, a, t);
  }

  lemma AcceptHoused(s: State, r: PeonId, a: Addr, t: Task)
    requires Housed(s) && HasStatics(s) && Fresh(s, r, a)
    ensures Housed(Accept(s, r, a, t)) && HasStatics(Accept(s, r, a, t))
  {
  }

  lemma AcceptListed(s: State, r: PeonId, a: Addr, t: Task)
    requires Listed(s) && Fresh(s, r, a)
    ensures Listed(Accept(s, r, a, t))
  {
    hide Holds;
    var s' := Accept(s, r, a, t);
    forall q | q in s'.peons
      ensures Holds(s'.peons[q].wait, s'.place, Wait(q)) && Holds(s'.peons[q].proc, s'.place, Proc(q))
    {
      AcceptHolds(s.peons[q].wait, s.place, Wait(q), a, Wait(r));
      AcceptHolds(s.peons[q].proc, s.place, Proc(q), a, Wait(r));
    }
  }

  lemma AcceptHolds(l: seq<Addr>, place: map<Addr, Place>, p: Place, a: Addr, to: Place)
    requires Holds(l, place, p) && a !in place
    ensures Holds(if to == p then l + [a] else l, place[a := to], p)
  {
  }

  lemma AcceptStaffed(s: State, r: PeonId, a: Addr, t: Task)
    requires Staffed(s) && Fresh(s, r, a)
    ensures Staffed(Accept(s, r, a, t))
  {
    hide StaffedPeon;
    var s' := Accept(s, r, a, t);
    forall q | q in s'.peons
      ensures StaffedPeon(s'.peons[q], q)
    {
      SameStaff(s.peons[q], s'.peons[q], q);
    }
  }

  lemma AcceptCounted(s: State, r: PeonId, a: Addr, t: Task)
    requires Counted(s) && Fresh(s, r, a)
    ensures Counted(Accept(s, r, a, t))
  {
    hide Debt;
    var s' := Accept(s, r, a, t);
    assert forall q :: q in s'.peons && Working(q) ==> CountedPeon(s.peons[q], q, s.log);
  }

  lemma AcceptDyn(s: State, r: PeonId, a: Addr, t: Task)
    requires DynCounted(s) && Fresh(s, r, a)
    ensures DynCounted(Accept(s, r, a, t))
  {
    assert DynIds(Accept(s, r, a, t)) == DynIds(s);
  }

  lemma AcceptStocked(s: State, r: PeonId, a: Addr, t: Task)
    requires Stocked(s) && Fresh(s, r, a)
    ensures Stocked(Accept(s, r, a, t))
  {
    hide Placed, Staffed, Counted, DynCounted, Accept, Fresh;
    AcceptPlaced(s, r, a, t);
    AcceptStaffed(s, r, a, t);
    AcceptCounted(s, r, a, t);
    AcceptDyn(s, r, a, t);
  }

  lemma SpawnPlaced(s: State, r: PeonId, p: Peon)
    requires Placed(s) && r !in s.peons && p.wait == p.proc == []
    ensures Placed(s.(peons := s.peons[r := p], dynNum := s.dynNum + 1))
  {
    SpawnListed(s, r, p);
    hide Listed;
  }

  lemma SpawnListed(s: State, r: PeonId, p: Peon)
    requires Placed(s) && r !in s.peons && p.wait == p.proc == []
    ensures Listed(s.(peons := s.peons[r := p], dynNum := s.dynNum + 1))
  {
    assert forall a :: a in s.place ==> s.place[a] != Wait(r) && s.place[a] != Proc(r);
    assert Holds([], s.place, Wait(r)) && Holds([], s.place, Proc(r));
    hide Holds, Housed;
  }

  lemma SpawnStaffed(s: State, r: PeonId, p: Peon)
    requires Staffed(s) && p.proc == [] && p.busy == map[]
    ensures Staffed(s.(peons := s.peons[r := p], dynNum := s.dynNum + 1))
  {
    assert StaffedPeon(p, r);
    hide StaffedPeon;
  }

  lemma SpawnCounted(s: State, r: PeonId, p: Peon)
    requires Counted(s) && r.Dyn?
    ensures Counted(s.(peons := s.peons[r := p], dynNum := s.dynNum + 1))
  {
    hide CountedPeon;
  }

  lemma SpawnDyn(s: State, r: PeonId, p: Peon)
    requires DynCounted(s) && r.Dyn? && r !in s.peons && s.dynNum <= DYN_WORKER_LIMIT && p.stage == Spawned
    ensures DynCounted(s.(peons := s.peons[r := p], dynNum := s.dynNum + 1))
  {
    assert DynIds(s.(peons := s.peons[r := p], dynNum := s.dynNum + 1)) == DynIds(s) + {r};
  }

  lemma SpawnStocked(s: State, r: PeonId, restrain: nat)
    requires Stocked(s) && r.Dyn? && r !in s.peons && s.dynNum <= DYN_WORKER_LIMIT
    ensures Stocked(s.(peons := s.peons[r := NewPeon(restrain, Spawned)], dynNum := s.dynNum + 1))
  {
    hide Placed, Staffed, Counted, DynCounted;
    var p := NewPeon(restrain, Spawned);
    SpawnPlaced(s, r, p);
    SpawnStaffed(s, r, p);
    SpawnCounted(s, r, p);
    SpawnDyn(s, r, p);
  }

  /** The numbers of a task that is about to be inserted fit those already known. */
  ghost predicate Admissible(s: State, s': State, r: PeonId, a: Addr, t: Task) {
    && a !in s.place && t.state == Live && r != Recheck
    && s'.place == s.place[a := Wait(r)] && s'.heap == s.heap[a := t] && s'.log == s.log && s'.lastSn == s.lastSn
       && s'.deferred == s.deferred
    && ((t.sn in s.pending && s'.pending == s.pending - {t.sn} && s'.inherited == s.inherited)
        || (Handled(s, t.sn, t.param) && s'.pending == s.pending && s'.inherited == s.inherited + {a}
            && (r == Disc || r.Dyn?)))
    && t.nextRun == 0
  }

  lemma AdmitUnshared(s: State, s': State, r: PeonId, a: Addr, t: Task)
    requires Bounded(s) && Unshared(s) && Housed(s) && Admissible(s, s', r, a, t)
    ensures Unshared(s')
  {
    hide Handled;
    assert t.sn in s.pending ==> t.sn >= 1;
    assert a !in s.heap;
    assert forall x :: Owner(s', x) && x != a ==> Owner(s, x) && s'.heap[x] == s.heap[x];
    assert Owner(s', a) ==> t.sn in s.pending && s'.pending == s.pending - {t.sn};
    assert s'.heap[a] == t && s'.pending <= s.pending;
    assert forall x :: Owner(s, x) ==> x in s.heap && x != a;
    assert forall x :: Owner(s', x) ==> x in s'.heap;
    hide Owner, Admissible, Housed;
  }

  /** The number of a batch in processing, which an inherited task gets, is out and not pending. */
  lemma HandledNumber(s: State, sn: nat, param: Param)
    requires Numbered(s) && Handled(s, sn, param)
    ensures 1 <= sn <= s.lastSn && sn !in s.pending
  {
    var b :| b in s.heap && b in s.place && s.place[b] == Proc(Dcb) && s.heap[b].sn == sn;
    if b !in s.inherited {
      assert Owner(s, b);
    }
  }

  lemma AdmitBounded(s: State, s': State, r: PeonId, a: Addr, t: Task)
    requires Numbered(s) && Admissible(s, s', r, a, t)
    ensures Bounded(s')
  {
    if t.sn !in s.pending {
      HandledNumber(s, t.sn, t.param);
    }
    assert t.sn <= s.lastSn;
    hide Handled, Unshared, Borrowed, Owner;
  }

  lemma AdmitBorrowed(s: State, s': State, r: PeonId, a: Addr, t: Task)
    requires Numbered(s) && Housed(s) && Admissible(s, s', r, a, t)
    ensures Borrowed(s')
  {
    assert a !in s.inherited;
    if a in s'.inherited {
      HandledNumber(s, t.sn, t.param);
    }
    hide Handled, Unshared, Bounded, Owner;
  }

  lemma AdmitNumbered(s: State, s': State, r: PeonId, a: Addr, t: Task)
    requires Numbered(s) && Housed(s) && Admissible(s, s', r, a, t)
    ensures Numbered(s')
  {
    hide Bounded, Unshared, Borrowed, Admissible, Housed;
    AdmitBounded(s, s', r, a, t);
    AdmitUnshared(s, s', r, a, t);
    AdmitBorrowed(s, s', r, a, t);
  }

  lemma AdmitKnown(s: State, s': State, r: PeonId, a: Addr, t: Task)
    requires LogNumbered(s) && Admissible(s, s', r, a, t)
    ensures LogNumbered(s')
  {
    assert forall x :: Owner(s', x) && x != a ==> Owner(s, x);
    forall e | e in s'.log && Ran(e)
      ensures Known(s', e)
    {
      assert Known(s, e);
    }
  }

  lemma HandedOn(p: Param, q: Param, r: Param)
    requires Match(p, q, true) && Match(q, r, false)
    ensures Match(p, r, true)
  {
  }

  lemma AdmitOutdated(s: State, s': State, r: PeonId, a: Addr, t: Task, e: Event)
    requires Outdated(s, e) && Admissible(s, s', r, a, t)
    ensures Outdated(s', e)
  {
    assert forall b :: Handing(s', e, b) ==> Handing(s, e, b) by {
      hide Match;
    }
    forall x | Facing(s', e, x)
      ensures Later(e, s'.heap[x].sn, x in s'.inherited)
    {
      if x != a {
        assert Facing(s, e, x) by {
          hide Match;
        }
      } else if t.sn !in s.pending {
        var b :| b in s.heap && b in s.place && s.place[b] == Proc(Dcb) && s.heap[b].sn == t.sn
                 && Match(s.heap[b].param, t.param, true);
        HandedOn(s.heap[b].param, t.param, e.task.param);
        assert Handing(s, e, b);
      }
    }
  }

  lemma AdmitOrdered(s: State, s': State, r: PeonId, a: Addr, t: Task)
    requires Ordered(s) && Admissible(s, s', r, a, t)
    ensures Ordered(s')
  {
    hide Outdated, LogOrdered;
    forall e | e in s'.log && Ran(e)
      ensures Outdated(s', e)
    {
      AdmitOutdated(s, s', r, a, t, e);
    }
  }

  lemma AdmitMortal(s: State, s': State, r: PeonId, a: Addr, t: Task)
    requires Mortal(s) && Admissible(s, s', r, a, t)
    ensures Mortal(s')
  {
    hide FreedOnce;
  }

  lemma {:induction false} NoNextRun(log: seq<Event>, a: Addr)
    requires forall e :: e in log ==> e.a != a
    ensures NextRun(log, a) == 0
    decreases |log|
  {
    if log != [] {
      NoNextRun(log[..|log| - 1], a);
    }
  }

  lemma AdmitPunctual(s: State, s': State, r: PeonId, a: Addr, t: Task)
    requires Punctual(s) && Admissible(s, s', r, a, t)
    ensures Punctual(s')
  {
    hide AllDue, NextRun, Handled;
    NoNextRun(s.log, a);
  }

  lemma AdmitStillKnown(s: State, s': State, r: PeonId, a: Addr, t: Task, e: Event)
    requires Known(s, e) && Admissible(s, s', r, a, t)
    ensures Known(s', e)
  {
    hide Handled;
    assert forall x :: Owner(s', x) && x != a ==> Owner(s, x);
  }

  lemma AdmitPatient(s: State, s': State, r: PeonId, a: Addr, t: Task)
    requires Patient(s) && Admissible(s, s', r, a, t)
    ensures Patient(s')
  {
    hide Explained, Handled;
    forall d | d in s'.deferred
      ensures Watched(s', d)
    {
      assert Watched(s, d);
      AdmitStillKnown(s, s', r, a, t, Judged(d));
      AdmitOutdated(s, s', r, a, t, Judged(d));
    }
  }

  lemma AdmitHonest(s: State, s': State, r: PeonId, a: Addr, t: Task)
    requires Honest(s) && Housed(s) && Admissible(s, s', r, a, t)
    ensures Honest(s')
  {
    hide Numbered, LogNumbered, Ordered, Mortal, Punctual, Admissible;
    AdmitNumbered(s, s', r, a, t);
    AdmitKnown(s, s', r, a, t);
    AdmitOrdered(s, s', r, a, t);
    AdmitMortal(s, s', r, a, t);
    AdmitPunctual(s, s', r, a, t);
  }

  /** Before the insertion: the number leaves the pending ones, or the task is noted as inherited. */
  ghost predicate Booked(s: State, s0: State, r: PeonId, a: Addr, t: Task) {
    || (t.sn in s.pending && s0 == s.(pending := s.pending - {t.sn}))
    || (Handled(s, t.sn, t.param) && r == Disc && s0 == s.(inherited := s.inherited + {a}))
  }

  lemma AddStaticInv(s: State, s0: State, r: PeonId, a: Addr, t: Task)
    requires Inv(s) && Working(r) && a !in s.place && t.state == Live && t.nextRun == 0
    requires Booked(s, s0, r, a, t) && r in s0.peons
    ensures Inv(Accept(s0, r, a, t))
  {
    hide Listed, Staffed, Counted, DynCounted, Honest, Patient;
    StaticsServe(s);
    FrameStocked(s, s0);
    AcceptStocked(s0, r, a, t);
    AdmitHonest(s, Accept(s0, r, a, t), r, a, t);
    AdmitPatient(s, Accept(s0, r, a, t), r, a, t);
  }

  lemma AddDynamicInv(s: State, s0: State, r: PeonId, a: Addr, t: Task, restrain: nat)
    requires Inv(s) && r.Dyn? && r !in s.peons && s.dynNum <= DYN_WORKER_LIMIT && a !in s.place && t.state == Live
             && t.nextRun == 0
    requires Booked(s, s0, Disc, a, t)
    ensures Inv(Accept(s0.(peons := s0.peons[r := NewPeon(restrain, Spawned)], dynNum := s0.dynNum + 1), r, a, t))
  {
    hide Listed, Staffed, Counted, DynCounted, Honest, Patient;
    var s1 := s0.(peons := s0.peons[r := NewPeon(restrain, Spawned)], dynNum := s0.dynNum + 1);
    FrameStocked(s, s0);
    SpawnStocked(s0, r, restrain);
    AcceptStocked(s1, r, a, t);
    AdmitHonest(s, Accept(s1, r, a, t), r, a, t);
    AdmitPatient(s, Accept(s1, r, a, t), r, a, t);
  }

  lemma AddInv(s: State, s0: State, r: PeonId, a: Addr, t: Task, spawned: bool, d: nat, restrain: nat)
    requires Inv(s) && Working(r) && a !in s.place && Dyn(d) !in s.peons && t.state == Live && t.nextRun == 0
    requires Booked(s, s0, r, a, t) && r in s0.peons
    ensures Inv(AddTask(s0, r, a, t, spawned, d, restrain))
  {
    hide Inv, Accept;
    if r == Disc && s0.peons[r].count >= WorkerNum(r) && s0.dynNum <= DYN_WORKER_LIMIT && spawned {
      AddDynamicInv(s, s0, Dyn(d), a, t, restrain);
    } else {
      AddStaticInv(s, s0, r, a, t);
    }
  }

  lemma FrameStocked(s: State, s': State)
    requires Stocked(s) && s' == s.(pending := s'.pending, inherited := s'.inherited, lastSn := s'.lastSn)
    ensures Stocked(s')
  {
    hide Holds, StaffedPeon, Debt;
    assert DynIds(s') == DynIds(s);
  }

  // ---------- Steps that move no task ----------

  /** Numbers are issued, or given up: those pending were pending before, or are new. */
  ghost predicate Renumbered(s: State, s': State) {
    && s' == s.(lastSn := s'.lastSn, pending := s'.pending)
    && s'.lastSn >= s.lastSn
    && forall p :: p in s'.pending ==> p in s.pending || s.lastSn < p <= s'.lastSn
  }

  lemma RenumberedNumbered(s: State, s': State)
    requires Numbered(s) && Renumbered(s, s')
    ensures Numbered(s')
  {
    assert forall a :: Owner(s', a) ==> Owner(s, a);
  }

  lemma RenumberedKnown(s: State, s': State)
    requires LogNumbered(s) && Renumbered(s, s')
    ensures LogNumbered(s')
  {
    assert forall a :: Owner(s', a) ==> Owner(s, a);
    forall e | e in s'.log && Ran(e)
      ensures Known(s', e)
    {
      assert Known(s, e);
    }
  }

  lemma RenumberedOutdated(s: State, s': State, e: Event)
    requires Outdated(s, e) && e.task.sn <= s.lastSn && Renumbered(s, s')
    ensures Outdated(s', e)
  {
    hide Match;
    assert forall a :: Facing(s', e, a) ==> Facing(s, e, a);
  }

  lemma RenumberedOrdered(s: State, s': State)
    requires LogNumbered(s) && Ordered(s) && Renumbered(s, s')
    ensures Ordered(s')
  {
    hide Outdated, LogOrdered, Owned;
    forall e | e in s'.log && Ran(e)
      ensures Outdated(s', e)
    {
      assert Known(s, e);
      RenumberedOutdated(s, s', e);
    }
  }

  lemma RenumberedInv(s: State, s': State)
    requires Inv(s) && Renumbered(s, s')
    ensures Inv(s')
  {
    hide Stocked, Numbered, LogNumbered, Ordered;
    FrameStocked(s, s');
    RenumberedNumbered(s, s');
    RenumberedKnown(s, s');
    RenumberedOrdered(s, s');
    RenumberedPatient(s, s');
    hide Patient;
  }

  lemma RenumberedPatient(s: State, s': State)
    requires Patient(s) && Renumbered(s, s')
    ensures Patient(s')
  {
    hide Outdated, Explained;
    assert forall a :: Owner(s', a) ==> Owner(s, a);
    forall d | d in s'.deferred
      ensures Watched(s', d)
    {
      assert Watched(s, d);
      RenumberedOutdated(s, s', Judged(d));
    }
  }

  lemma ExitDyn(s: State, r: PeonId)
    requires DynCounted(s) && r in s.peons && r.Dyn?
    ensures DynCounted(s.(peons := s.peons - {r}, dynNum := s.dynNum - 1))
  {
    assert DynIds(s.(peons := s.peons - {r}, dynNum := s.dynNum - 1)) == DynIds(s) - {r};
  }

  lemma ExitInv(s: State, d: nat)
    requires Inv(s) && Enabled(s, Exit(d))
    ensures Inv(s.(peons := s.peons - {Dyn(d)}, dynNum := s.dynNum - 1))
  {
    hide Listed, Staffed, Counted, DynCounted, Honest;
    var s' := s.(peons := s.peons - {Dyn(d)}, dynNum := s.dynNum - 1);
    ClosedEmpty(s, Dyn(d));
    ExitDyn(s, Dyn(d));
    AlikeInv(s, s');
  }

  lemma ClosedEmpty(s: State, r: PeonId)
    requires Inv(s) && r in s.peons && s.peons[r].stage == Closed
    ensures forall a :: a in s.place && s.place[a] != Gone ==> s.place[a].r != r
  {
    hide Honest, Counted, Housed;
    assert s.peons[r].wait == [] && StaffedPeon(s.peons[r], r);
    assert Holds(s.peons[r].wait, s.place, Wait(r)) && Holds(s.peons[r].proc, s.place, Proc(r));
    if s.peons[r].proc != [] {
      assert s.peons[r].proc[0] in s.peons[r].proc;
    }
  }

  lemma SetRestrainAlike(s: State, t: nat)
    requires HasStatics(s) && DynCounted(s)
    ensures var s' := Next(s, SetRestrain(t));
      Alike(s, s') && s'.peons.Keys == s.peons.Keys && HasStatics(s') && DynCounted(s')
  {
    assert DynIds(Next(s, SetRestrain(t))) == DynIds(s);
  }

  lemma SetRestrainInv(s: State, t: nat)
    requires Inv(s) && HasStatics(s)
    ensures Inv(Next(s, SetRestrain(t)))
  {
    hide Listed, Staffed, Counted, DynCounted, Honest;
    var s' := Next(s, SetRestrain(t));
    SetRestrainAlike(s, t);
    assert forall a :: a in s.place && s.place[a] != Gone ==> s.place[a].r in s.peons;
    hide Housed;
    AlikeInv(s, s');
  }

  // ---------- Every step, and every run ----------

  lemma NextInv(s: State, e: Step)
    requires Inv(s) && HasStatics(s) && Enabled(s, e)
    ensures Inv(Next(s, e))
  {
    hide Inv, GetTask, CompleteTask, RecheckAll, CloseAll, AddTask, AllAt;
    StaticsServe(s);
    match e {
      case Issue => RenumberedInv(s, Next(s, e));
      case Abandon(sn) => RenumberedInv(s, Next(s, e));
      case Insert(r, sn, a, param, rechecks, now, spawned, d, restrain) =>
        AddInv(s, s.(pending := s.pending - {sn}), r, a, Task(sn, Live, now, 0, param, rechecks), spawned, d, restrain);
      case Inherit(sn, a, param, rechecks, now, spawned, d, restrain) =>
        AddInv(s, s.(inherited := s.inherited + {a}), Disc, a, Task(sn, Live, now, 0, param, rechecks), spawned, d,
               restrain);
      case Get(r, w, clock) => GetInv(s, r, w, clock);
      case Complete(r, w, failed, now) => CompleteInv(s, r, w, failed, now);
      case RecheckPass(lost, clock, issued) =>
        WaitAllAt(s, Recheck);
        RecheckInv(s, s.peons[Recheck].wait, lost, clock, issued);
      case Close(d) => CloseInv(s, d);
      case Exit(d) => ExitInv(s, d);
      case SetRestrain(t) => SetRestrainInv(s, t);
    }
  }

  /** Every state that a run reaches from a state with the invariant has it. */
  lemma {:induction false} RunInv(s: State, steps: seq<Step>, t: State)
    requires Inv(s) && Run(s, steps, t)
    ensures Inv(t)
    decreases |steps|
  {
    if steps != [] {
      hide Inv, Next;
      NextInv(s, steps[0]);
      RunInv(Next(s, steps[0]), steps[1..], t);
    }
  }
}

/** What the peon scheduler guarantees, over all runs. */
module PeonTheorems {
  import opened PeonModel
  import opened PeonInvariants
  import opened Collections
  import opened PeonSteps

  ghost predicate Reachable(s: State) {
    exists restrain: nat, steps: seq<Step> :: Run(Init(restrain), steps, s)
  }

  lemma ReachableInv(s: State)
    requires Reachable(s)
    ensures Inv(s)
  {
    hide Inv;
    var restrain: nat, steps: seq<Step> :| Run(Init(restrain), steps, s);
    InitInv(restrain);
    RunInv(Init(restrain), steps, s);
  }

  lemma {:induction false} RunThen(s: State, steps: seq<Step>, t: State, e: Step)
    requires Run(s, steps, t) && HasStatics(t) && Enabled(t, e)
    ensures Run(s, steps + [e], Next(t, e))
    decreases |steps|
  {
    hide Next, Enabled;
    if steps != [] {
      assert (steps + [e])[1..] == steps[1..] + [e];
      RunThen(Next(s, steps[0]), steps[1..], t, e);
    } else {
      assert Run(Next(t, e), [], Next(t, e));
      assert (steps + [e])[1..] == [];
    }
  }

  lemma ReachStep(s: State, e: Step)
    requires Reachable(s) && HasStatics(s) && Enabled(s, e)
    ensures Reachable(Next(s, e))
  {
    hide Next, Enabled;
    var restrain: nat, steps: seq<Step> :| Run(Init(restrain), steps, s);
    RunThen(Init(restrain), steps, s, e);
  }

  lemma ReachRun(s: State, steps: seq<Step>, t: State)
    requires Reachable(s) && Run(s, steps, t)
    ensures Reachable(t)
  {
    var restrain: nat, before: seq<Step> :| Run(Init(restrain), before, s);
    RunJoin(Init(restrain), before, s, steps, t);
  }

  lemma {:induction false} RunJoin(s: State, xs: seq<Step>, t: State, ys: seq<Step>, u: State)
    requires Run(s, xs, t) && Run(t, ys, u)
    ensures Run(s, xs + ys, u)
    decreases |xs|
  {
    hide Next, Enabled;
    if xs == [] {
      assert xs + ys == ys;
    } else {
      assert (xs + ys)[1..] == xs[1..] + ys;
      RunJoin(Next(s, xs[0]), xs[1..], t, ys, u);
    }
  }

  // ---------- Order ----------

  /**
  Of two dispatches of which the first had to wait for, or supersede, tasks like the second,
  the second has no smaller number, unless that number was already out when the first took
  place: issued to a task not yet inserted, or, for an inherited task, held by a batch that was
  being handled. Equal numbers mean one task, or an inherited one.
  */
  lemma DispatchOrder(s: State, i: nat, j: nat)
    requires Reachable(s)
    requires i < j < |s.log| && Follows(s.log[i], s.log[j])
    ensures || s.log[j].task.sn >= s.log[i].task.sn
            || s.log[j].task.sn in s.log[i].pending
            || (s.log[j].inherited && s.log[i].r == Conn && s.log[j].task.sn in s.log[i].batches)
    ensures s.log[j].task.sn == s.log[i].task.sn ==>
              s.log[j].a == s.log[i].a || s.log[i].inherited || s.log[j].inherited
  {
    ReachableInv(s);
    hide Stocked, Numbered, Mortal, Punctual, Known, Outdated, Follows;
    FollowsRan(s.log[i], s.log[j]);
  }

  lemma FollowsRan(e: Event, f: Event)
    ensures Follows(e, f) ==> Ran(e) && Ran(f)
  {
  }

  /** What was dispatched while nothing older was out comes in the order of the numbers. */
  lemma StrictOrder(s: State, i: nat, j: nat)
    requires Reachable(s)
    requires i < j < |s.log| && Follows(s.log[i], s.log[j])
    requires var e := s.log[i]; forall n :: n in e.pending || (e.r == Conn && n in e.batches) ==> n >= e.task.sn
    ensures s.log[j].task.sn >= s.log[i].task.sn
  {
    hide Reachable, Follows;
    DispatchOrder(s, i, j);
  }

  // ---------- Deferral ----------

  /**
  Whoever puts a task off again, under the same number, was not in a list yet when it was first put
  off: the number was pending then, or held by a batch for the host of a connect.
  */
  lemma DeferredAgain(s: State, i: nat, j: nat)
    requires Reachable(s) && i < j < |s.deferred|
    requires s.deferred[i].a == s.deferred[j].a && s.deferred[i].task.sn == s.deferred[j].task.sn
    ensures s.deferred[j].older != {}
    ensures forall n :: n in s.deferred[j].older ==>
              && n < s.deferred[i].task.sn
              && (n in s.deferred[i].pending || (s.deferred[i].r == Conn && n in s.deferred[i].batches))
  {
    hide Reachable, Inv, Explained;
    ReachableInv(s);
    InvPatient(s);
    assert Watched(s, s.deferred[j]) && Explained(s.deferred);
    ExplainedAt(s.deferred, i, j);
    hide Known, Outdated, Watched;
    assert Traced(s, s.deferred[j]);
  }

  lemma InvPatient(s: State)
    requires Inv(s)
    ensures Explained(s.deferred) && forall d :: d in s.deferred ==> Watched(s, d) && Traced(s, d)
  {
    hide Stocked, Honest, Known, Outdated;
  }

  lemma ExplainedAt(ds: seq<Deferral>, i: nat, j: nat)
    requires Explained(ds) && i < j < |ds| && ds[i].a == ds[j].a && ds[i].task.sn == ds[j].task.sn
    ensures forall n :: n in ds[j].older ==> n in ds[i].pending || (ds[i].r == Conn && n in ds[i].batches)
  {
  }

  // ---------- Time ----------

  lemma {:induction false} NextRunStays(log: seq<Event>, i: nat, k: nat, a: Addr)
    requires i < k <= |log| && log[i].a == a && log[i].what.Retry?
    requires forall m :: i < m < k && log[m].a == a ==> !log[m].what.Retry? && log[m].what != Relive
    ensures NextRun(log[..k], a) == log[i].what.at + RETRY_INTERVAL
    decreases k
  {
    assert log[..k][..k - 1] == log[..k - 1];
    if k - 1 > i {
      NextRunStays(log, i, k - 1, a);
    }
  }

  /** A task whose handler failed is not dispatched again within sixty seconds, unless it was relived since. */
  lemma FailedWaits(s: State, i: nat, j: nat)
    requires Reachable(s)
    requires i < j < |s.log| && s.log[i].a == s.log[j].a && s.log[i].what.Retry? && Ran(s.log[j])
    requires forall m :: i < m < j && s.log[m].a == s.log[i].a ==> !s.log[m].what.Retry? && s.log[m].what != Relive
    ensures s.log[j].what.at >= s.log[i].what.at + 60
  {
    ReachableInv(s);
    hide Stocked, Numbered, LogNumbered, Ordered, Mortal, NextRun, Run;
    NextRunStays(s.log, i, j, s.log[i].a);
    assert Due(s.log, j);
  }

  /**
  No task is dispatched within the restrain time of its peon, counted from its arrival, unless the
  clock went back.
  */
  lemma RestrainHolds(s: State, j: nat)
    requires Reachable(s) && j < |s.log| && Ran(s.log[j])
    ensures var e := s.log[j];
      e.what.restrain != 0 && e.what.at >= e.task.tm ==> e.what.at >= e.task.tm + e.what.restrain
  {
    ReachableInv(s);
    hide Stocked, Numbered, LogNumbered, Ordered, Mortal, NextRun;
    assert Due(s.log, j);
  }

  // ---------- Conservation ----------

  ghost predicate InList(s: State, a: Addr, p: Place) {
    && p != Gone && p.r in s.peons
    && (if p.Wait? then a in s.peons[p.r].wait else a in s.peons[p.r].proc)
  }

  /** A task ever accepted is in exactly one list, once, or it was freed, once. */
  lemma Conservation(s: State, a: Addr)
    requires Reachable(s) && a in s.place
    ensures a in s.heap <==> exists p :: InList(s, a, p)
    ensures forall p, q :: InList(s, a, p) && InList(s, a, q) ==> p == q
    ensures forall r :: r in s.peons ==> NoDup(s.peons[r].wait) && NoDup(s.peons[r].proc)
    ensures a !in s.heap <==> exists e :: e in s.log && e.what == Free && e.a == a
    ensures FreedOnce(s.log)
  {
    ReachableInv(s);
    ConservationAt(s, a);
  }

  lemma ConservationAt(s: State, a: Addr)
    requires Listed(s) && Housed(s) && Mortal(s) && a in s.place
    ensures a in s.heap <==> exists p :: InList(s, a, p)
    ensures forall p, q :: InList(s, a, p) && InList(s, a, q) ==> p == q
    ensures forall r :: r in s.peons ==> NoDup(s.peons[r].wait) && NoDup(s.peons[r].proc)
    ensures a !in s.heap <==> exists e :: e in s.log && e.what == Free && e.a == a
  {
    forall p | InList(s, a, p)
      ensures p == s.place[a]
    {
      assert Holds(s.peons[p.r].wait, s.place, Wait(p.r)) && Holds(s.peons[p.r].proc, s.place, Proc(p.r));
    }
    if a in s.heap {
      var r := s.place[a].r;
      assert Holds(s.peons[r].wait, s.place, Wait(r)) && Holds(s.peons[r].proc, s.place, Proc(r));
      assert InList(s, a, s.place[a]);
    }
  }

  // ---------- Workers and counters ----------

  function Elements(l: seq<Addr>): set<Addr> {
    set a | a in l
  }

  lemma {:induction false} ElementsSize(l: seq<Addr>)
    requires NoDup(l)
    ensures |Elements(l)| == |l|
  {
    if l == [] {
      assert Elements(l) == {};
    } else {
      assert l == [l[0]] + l[1..] && l[0] !in l[1..];
      ElementsSize(l[1..]);
      assert Elements(l) == Elements(l[1..]) + {l[0]};
    }
  }

  lemma {:induction false} Below(n: nat, s: set<nat>)
    requires forall w :: w in s ==> w < n
    ensures |s| <= n
  {
    if n == 0 {
      assert s == {};
    } else {
      Below(n - 1, s - {n - 1});
    }
  }

  /** The busy workers of a peon are as many as the tasks it handles, so never too many. */
  lemma InFlight(s: State, r: PeonId)
    requires Reachable(s) && r in s.peons
    ensures |s.peons[r].proc| == |s.peons[r].busy| <= WorkerNum(r)
    ensures forall a :: a in s.peons[r].proc <==> a in s.peons[r].busy.Values
    ensures 0 <= s.dynNum == |DynIds(s)| <= DYN_WORKER_LIMIT + 1
  {
    ReachableInv(s);
    InFlightAt(s, r);
  }

  lemma CrewSize(p: Peon, r: PeonId)
    requires StaffedPeon(p, r) && NoDup(p.proc)
    ensures |p.proc| == |p.busy| <= WorkerNum(r)
    ensures forall a :: a in p.proc <==> a in p.busy.Values
  {
    Injective(p.busy);
    ElementsSize(p.proc);
    Below(WorkerNum(r), p.busy.Keys);
    assert p.busy.Values == Elements(p.proc);
  }

  lemma InFlightAt(s: State, r: PeonId)
    requires Inv(s) && r in s.peons
    ensures |s.peons[r].proc| == |s.peons[r].busy| <= WorkerNum(r)
    ensures forall a :: a in s.peons[r].proc <==> a in s.peons[r].busy.Values
  {
    hide Honest, Counted, DynCounted, Housed;
    var p := s.peons[r];
    assert StaffedPeon(p, r) && Holds(p.proc, s.place, Proc(r));
    CrewSize(p, r);
  }

  /** `worker_all_count` is the number of tasks on hand, less one for every retry and relive. */
  lemma CounterLaw(s: State, r: PeonId)
    requires Reachable(s) && r in s.peons && Working(r)
    ensures s.peons[r].count == |s.peons[r].wait| + |s.peons[r].proc| - Debt(s.log, r)
  {
    ReachableInv(s);
    hide Honest, Placed, Staffed, DynCounted, Debt;
  }

  lemma {:induction false} NoDebt(log: seq<Event>, r: PeonId)
    requires r != Conn && forall e :: e in log && e.r == r ==> !e.what.Retry?
    ensures Debt(log, r) == 0
  {
    if log != [] {
      NoDebt(log[..|log| - 1], r);
    }
  }

  /** With handlers that never fail, the disconnect and batch peons count exactly what they have on hand. */
  lemma CounterExact(s: State, r: PeonId)
    requires Reachable(s) && r in s.peons && (r == Disc || r == Dcb)
    requires forall e :: e in s.log && e.r == r ==> !e.what.Retry?
    ensures s.peons[r].count == |s.peons[r].wait| + |s.peons[r].proc|
  {
    hide Reachable, Debt;
    CounterLaw(s, r);
    NoDebt(s.log, r);
  }
}

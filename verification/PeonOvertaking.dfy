/**
Which numbers can still be dispatched after a larger one that they should have preceded: exactly
those that are out.
*/
module PeonOvertaking {
  import opened Bytes
  import opened Collections
  import opened PeonModel
  import opened PeonInvariants
  import opened PeonSteps
  import opened PeonTheorems
  import opened PeonPasses
  import opened PeonDynamics
  import opened PeonProgress

  /** Some continuation dispatches a task with the number `n` that had to precede `e`, or to be superseded by it. */
  ghost predicate Overtakes(s: State, e: Event, n: nat) {
    exists steps: seq<Step>, t, j: nat :: Run(s, steps, t) && Overtaken(s, e, n, t, j)
  }

  ghost predicate Overtaken(s: State, e: Event, n: nat, t: State, j: nat) {
    |s.log| <= j < |t.log| && Follows(e, t.log[j]) && t.log[j].task.sn == n
  }

  /** Parameters of another family match nothing, not even themselves. */
  predicate Comparable(p: Param) {
    p.family == AF_INET || p.family == AF_INET6
  }

  /** `n` is out for tasks like `e`: pending, or held by a batch that may hand it on. */
  ghost predicate Out(s: State, e: Event, n: nat) {
    n in s.pending || (e.r == Conn && n in Batches(s, e.task.param))
  }

  // ---------- Room for one more task ----------

  lemma Room(s: State) returns (a: Addr, d: nat)
    ensures a !in s.place && Dyn(d) !in s.peons
  {
    a := LargerThan(s.place.Keys);
    var ds := set r | r in s.peons && r.Dyn? :: r.d;
    assert forall r :: r in s.peons && r.Dyn? ==> r.d in ds;
    d := LargerThan(ds);
  }

  lemma Member(l: seq<Addr>)
    ensures l != [] ==> l[0] in l
  {
  }

  lemma Emptiness(s: State, r: PeonId, all: bool)
    requires Inv(s) && Work(s, all) == {} && r in s.peons && Drained(r, all)
    ensures s.peons[r].wait == [] && s.peons[r].busy == map[]
  {
    hide Honest, Counted, DynCounted, Housed;
    var p := s.peons[r];
    assert StaffedPeon(p, r) && Holds(p.wait, s.place, Wait(r)) && Holds(p.proc, s.place, Proc(r));
    assert forall a :: a in s.place && s.place[a] != Gone && s.place[a].r == r ==> a in Work(s, all);
    assert forall a :: a !in p.wait && a !in p.proc;
    Member(p.wait);
    assert p.busy.Keys == {};
  }

  /** The new task of an empty peon, inserted without diversion. */
  lemma AddAlone(s: State, r: PeonId, a: Addr, t: Task, d: nat)
    requires r in s.peons && s.peons[r].wait == []
    ensures var u := AddTask(s, r, a, t, false, d, 0);
      && u.place == s.place[a := Wait(r)] && u.heap == s.heap[a := t] && u.log == s.log
      && u.pending == s.pending && u.inherited == s.inherited
      && u.peons == s.peons[r := s.peons[r].(wait := [a], count := s.peons[r].count + 1)]
  {
    assert [] + [a] == [a];
  }

  // ---------- The one waiting task of a peon is served ----------

  /** Nothing but older tasks that wait stands against the one waiting task of `r`. */
  ghost predicate NextUp(s: State, r: PeonId, a: Addr) {
    && Working(r) && r in s.peons && s.peons[r].wait == [a] && s.peons[r].busy == map[]
    && a in s.heap && a in s.place && s.heap[a].state == Live
    && forall x :: Rival(s, KindOf(r), s.heap[a], x) && x != a ==> s.heap[x].sn < s.heap[a].sn && s.place[x].Wait?
  }

  lemma Served(s: State, r: PeonId, a: Addr)
    requires Inv(s) && NextUp(s, r, a)
    ensures HasStatics(s) && Enabled(s, Get(r, 0, Late(s, r)))
    ensures var t := Next(s, Get(r, 0, Late(s, r)));
      && |t.log| == |s.log| + 1
      && var f := t.log[|s.log|];
         Ran(f) && f.a == a && f.r == r && f.task == s.heap[a] && f.inherited == (a in s.inherited)
  {
    hide Inv, Rival, Visit, Late;
    StaticsServe(s);
    var clock := Late(s, r);
    LateEnough(s, r, a);
    assert Unrivalled(s, r, a, clock(a));
    VisitServes(s, r, 0, a, clock(a));
    OnePass(s, r, a, clock);
  }

  // ---------- A pending number ----------

  /** The two steps from `s` end with the dispatch of a task with the number `n`, for the device of `param`. */
  ghost predicate Ends(s: State, steps: seq<Step>, t: State, r: PeonId, n: nat, param: Param) {
    && Run(s, steps, t) && |t.log| == |s.log| + 1
    && var f := t.log[|s.log|];
       Ran(f) && f.r == r && f.task.sn == n && f.task.param == param && f.inherited == (r == Disc)
  }

  lemma TwoSteps(s: State, e1: Step, e2: Step)
    requires HasStatics(s) && Enabled(s, e1) && HasStatics(Next(s, e1)) && Enabled(Next(s, e1), e2)
    ensures Run(s, [e1, e2], Next(Next(s, e1), e2))
  {
    hide Next, Enabled, HasStatics;
    assert [e1, e2][1..] == [e2] && [e2][1..] == [];
    assert Run(Next(Next(s, e1), e2), [], Next(Next(s, e1), e2));
  }

  /** With all lists empty, a pending number can be inserted as a connect and served at once. */
  lemma LateEnds(s: State, n: nat, param: Param) returns (steps: seq<Step>, t: State)
    requires Inv(s) && Work(s, true) == {} && n in s.pending
    ensures Ends(s, steps, t, Conn, n, param)
  {
    hide Inv, Late, Run;
    StaticsServe(s);
    Emptiness(s, Conn, true);
    var a, d := Room(s);
    var task := Task(n, Live, 0, 0, param, true);
    var e1 := Insert(Conn, n, a, param, true, 0, false, d, 0);
    var s0 := s.(pending := s.pending - {n});
    AddAlone(s0, Conn, a, task, d);
    var s1 := Next(s, e1);
    NextInv(s, e1);
    LateLone(s, s1, n, a);
    Served(s1, Conn, a);
    var e2 := Get(Conn, 0, Late(s1, Conn));
    TwoSteps(s, e1, e2);
    steps, t := [e1, e2], Next(s1, e2);
    NotInherited(s, a);
  }

  lemma NotInherited(s: State, a: Addr)
    requires Inv(s) && a !in s.place
    ensures a !in s.inherited
  {
    hide Stocked, LogNumbered, Ordered, Mortal, Punctual, Bounded, Unshared;
  }

  /** What is left is parked, with the number 0. */
  lemma Parked(s: State, x: Addr)
    requires Inv(s) && x in s.heap && x in s.place && s.place[x] != Gone && s.place[x].r == Recheck
    ensures s.place[x] == Wait(Recheck) && s.heap[x].sn == 0
  {
    hide Listed, Staffed, Counted, DynCounted, LogNumbered, Ordered, Mortal, Punctual, Unshared, Borrowed;
  }

  lemma LateLone(s: State, t: State, n: nat, a: Addr)
    requires Inv(s) && Work(s, true) == {} && n in s.pending && a !in s.place
    requires Conn in t.peons && t.peons[Conn].wait == [a] && t.peons[Conn].busy == map[]
    requires t.place == s.place[a := Wait(Conn)] && a in t.heap && t.heap == s.heap[a := t.heap[a]]
    requires t.heap[a].sn == n && t.heap[a].state == Live
    ensures NextUp(t, Conn, a)
  {
    hide Inv, Match;
    assert n >= 1 by {
      PendingIssued(s, n);
    }
    forall x | Rival(t, Connect, t.heap[a], x) && x != a
      ensures t.heap[x].sn < n && t.place[x].Wait?
    {
      assert x !in Work(s, true);
      Parked(s, x);
    }
  }

  lemma PendingIssued(s: State, n: nat)
    requires Inv(s) && n in s.pending
    ensures n >= 1
  {
    hide Stocked, LogNumbered, Ordered, Mortal, Punctual, Unshared, Borrowed;
  }

  // ---------- A number that a batch holds ----------

  lemma HeirLone(s: State, t: State, n: nat, a: Addr)
    requires Inv(s) && Work(s, false) == {} && n >= 1 && a !in s.place
    requires Disc in t.peons && t.peons[Disc].wait == [a] && t.peons[Disc].busy == map[]
    requires t.place == s.place[a := Wait(Disc)] && a in t.heap && t.heap == s.heap[a := t.heap[a]]
    requires t.heap[a].sn == n && t.heap[a].state == Live
    ensures NextUp(t, Disc, a)
  {
    hide Inv, Match;
    forall x | Rival(t, Disconnect, t.heap[a], x) && x != a
      ensures t.heap[x].sn < n && t.place[x].Wait?
    {
      assert x !in Work(s, false);
      Parked(s, x);
    }
  }

  /**
  With the other lists empty, a batch being handled can hand on its number to a disconnect, which
  is served at once.
  */
  lemma HeirEnds(s: State, n: nat, param: Param) returns (steps: seq<Step>, t: State)
    requires Inv(s) && Work(s, false) == {} && Handled(s, n, param)
    ensures Ends(s, steps, t, Disc, n, param)
  {
    hide Inv, Late, Run, Handled;
    StaticsServe(s);
    Emptiness(s, Disc, false);
    HandledIssued(s, n, param);
    var a, d := Room(s);
    var task := Task(n, Live, 0, 0, param, true);
    var e1 := Inherit(n, a, param, true, 0, false, d, 0);
    var s0 := s.(inherited := s.inherited + {a});
    AddAlone(s0, Disc, a, task, d);
    var s1 := Next(s, e1);
    NextInv(s, e1);
    HeirLone(s, s1, n, a);
    Served(s1, Disc, a);
    var e2 := Get(Disc, 0, Late(s1, Disc));
    TwoSteps(s, e1, e2);
    steps, t := [e1, e2], Next(s1, e2);
  }

  lemma HandledIssued(s: State, n: nat, param: Param)
    requires Inv(s) && Handled(s, n, param)
    ensures n >= 1
  {
    hide Stocked, LogNumbered, Ordered, Mortal, Punctual, Bounded, Unshared, Borrowed, Handled;
    HandledNumber(s, n, param);
  }

  /** Draining the other peons keeps a dead batch in the hands of its worker. */
  lemma HandledKept(s: State, t: State, n: nat, param: Param)
    requires Muted(s, false) && Keeps(s, t, false) && n in Batches(s, param)
    ensures Handled(t, n, param)
  {
    hide Match;
    var b :| b in s.heap && b in s.place && s.place[b] == Proc(Dcb) && Match(s.heap[b].param, param, true)
             && s.heap[b].sn == n;
    assert b in t.heap && t.heap[b] == s.heap[b];
  }

  // ---------- What is out can overtake ----------

  lemma MatchSelf(p: Param, q: Param, byHost: bool)
    ensures Comparable(p) ==> Match(p, p, byHost)
    ensures Match(q, p, byHost) ==> Comparable(p)
  {
  }

  lemma EndsOvertakes(s: State, before: seq<Step>, m: State, steps: seq<Step>, t: State, e: Event, r: PeonId, n: nat)
    requires Run(s, before, m) && s.log <= m.log && Ends(m, steps, t, r, n, e.task.param)
    requires Comparable(e.task.param) && Ran(e) && e.r != Recheck && (r == Conn || (r == Disc && e.r == Conn))
    ensures Overtakes(s, e, n)
  {
    hide Run, Match;
    RunJoin(s, before, m, steps, t);
    MatchSelf(e.task.param, e.task.param, ByHost(KindOf(e.r), r));
    assert Overtaken(s, e, n, t, |m.log|);
  }

  /** Whatever number is out for tasks like `e` can be dispatched after it. */
  lemma CanOvertake(s: State, e: Event, n: nat)
    requires Reachable(s) && e in s.log && Ran(e) && Comparable(e.task.param)
    requires n in s.pending || (e.r == Conn && n in Batches(s, e.task.param) && Muted(s, false))
    ensures Overtakes(s, e, n)
  {
    hide Reachable, Inv, Lively, Run, Work, Muted, Handled, Ends, Batches, Overtakes;
    ReachableInv(s);
    ReachableLively(s);
    RanElsewhere(s, e);
    if n in s.pending {
      assert Muted(s, true) by {
        AllMuted(s);
      }
      var before, m := Drains(s, true);
      RunInv(s, before, m);
      var steps, t := LateEnds(m, n, e.task.param);
      EndsOvertakes(s, before, m, steps, t, e, Conn, n);
    } else {
      var before, m := Drains(s, false);
      RunInv(s, before, m);
      HandledKept(s, m, n, e.task.param);
      var steps, t := HeirEnds(m, n, e.task.param);
      EndsOvertakes(s, before, m, steps, t, e, Disc, n);
    }
  }

  lemma AllMuted(s: State)
    ensures Muted(s, true)
  {
  }

  lemma RanElsewhere(s: State, e: Event)
    requires Inv(s) && e in s.log && Ran(e)
    ensures e.r != Recheck
  {
    hide Stocked, Numbered, Ordered, Mortal, Punctual;
    assert Known(s, e);
  }

  // ---------- What overtakes was out ----------

  /** The dispatch that the pass has just made. */
  function LastOf(log: seq<Event>): Event
    requires log != []
  {
    log[|log| - 1]
  }

  /** Right after `e` no batch of the host of a connect is live that is older, and there is one worker for batches. */
  lemma JustMuted(s: State, r: PeonId, w: nat, clock: Addr -> int, restrain: nat, n: nat)
    requires Inv(s) && HandedOut(s, r, w, clock, restrain)
    requires var e := LastOf(s.log); r == Conn && n in Batches(s, e.task.param) && n < e.task.sn
    ensures Muted(s, false)
  {
    hide Inv, Match;
    var e := LastOf(s.log);
    var b :| b in s.heap && b in s.place && s.place[b] == Proc(Dcb) && Match(s.heap[b].param, e.task.param, true)
             && s.heap[b].sn == n;
    assert s.heap[b].state == Dead by {
      assert Rival(s, Connect, e.task, b) <==> s.heap[b].state == Live;
    }
    forall c | c in s.heap && c in s.place && s.place[c] == Proc(Dcb)
      ensures s.heap[c].state == Dead
    {
      OneBatch(s, b, c);
    }
  }

  /** One batch is handled at a time. */
  lemma OneBatch(s: State, b: Addr, c: Addr)
    requires Inv(s) && b in s.place && s.place[b] == Proc(Dcb) && c in s.place && s.place[c] == Proc(Dcb)
    ensures b == c
  {
    hide Honest, Counted, DynCounted;
    var p := s.peons[Dcb];
    assert StaffedPeon(p, Dcb) && Holds(p.proc, s.place, Proc(Dcb));
    var w :| w in p.busy && p.busy[w] == b;
    var v :| v in p.busy && p.busy[v] == c;
  }

  /**
  Right after a dispatch, a smaller number can be dispatched for a task that the dispatched one had to
  wait for or supersede if and only if it is out: pending, or, after a connect, held by the batch
  that is being handled for its host.
  */
  lemma OvertakenIff(s: State, r: PeonId, w: nat, clock: Addr -> int, n: nat)
    requires Reachable(s) && HasStatics(s) && Enabled(s, Get(r, w, clock)) && GetTask(s, r, w, clock).1
    ensures var t := Next(s, Get(r, w, clock));
      t.log != [] && var e := LastOf(t.log);
      n < e.task.sn ==> (Overtakes(t, e, n) <==> Comparable(e.task.param) && Out(t, e, n))
  {
    hide Reachable, Inv, GetTask, Overtakes, Batches, Muted;
    var step := Get(r, w, clock);
    var t := Next(s, step);
    DispatchPostcondition(s, r, w, clock);
    ReachStep(s, step);
    ReachableInv(t);
    var e := LastOf(t.log);
    if n < e.task.sn {
      if Overtakes(t, e, n) {
        OvertakesOut(t, e, n);
      }
      if Comparable(e.task.param) && Out(t, e, n) {
        if n !in t.pending {
          JustMuted(t, r, w, clock, s.peons[r].restrain, n);
        }
        CanOvertake(t, e, n);
      }
    }
  }

  /** What overtakes the last dispatch was out when that took place. */
  lemma OvertakesOut(s: State, e: Event, n: nat)
    requires Reachable(s) && s.log != [] && e == LastOf(s.log) && n < e.task.sn && Overtakes(s, e, n)
    requires e.pending == s.pending && (e.r == Conn ==> e.batches == Batches(s, e.task.param))
    ensures Comparable(e.task.param) && Out(s, e, n)
  {
    hide Reachable, Inv, Run, Follows, Batches;
    ReachableInv(s);
    var steps: seq<Step>, t, j: nat :| Run(s, steps, t) && Overtaken(s, e, n, t, j);
    ReachRun(s, steps, t);
    RunGrows(s, steps, t);
    assert t.log[|s.log| - 1] == e;
    DispatchOrder(t, |s.log| - 1, j);
    FollowsComparable(e, t.log[j]);
  }

  lemma FollowsComparable(e: Event, f: Event)
    ensures Follows(e, f) ==> Comparable(e.task.param)
  {
    hide Match;
    if Follows(e, f) {
      MatchSelf(e.task.param, f.task.param, ByHost(KindOf(e.r), f.r));
    }
  }

  lemma {:induction false} RunGrows(s: State, steps: seq<Step>, t: State)
    requires Inv(s) && Run(s, steps, t)
    ensures s.log <= t.log
    decreases |steps|
  {
    hide Inv, Next, Enabled;
    if steps != [] {
      NextActed(s, steps[0]);
      NextInv(s, steps[0]);
      RunGrows(Next(s, steps[0]), steps[1..], t);
    }
  }

  /** From right after a dispatch on, serial order holds for ever if and only if no smaller number is out. */
  lemma OrderIff(s: State, r: PeonId, w: nat, clock: Addr -> int)
    requires Reachable(s) && HasStatics(s) && Enabled(s, Get(r, w, clock)) && GetTask(s, r, w, clock).1
    ensures var t := Next(s, Get(r, w, clock));
      t.log != [] && var e := LastOf(t.log);
      (forall n: nat :: Overtakes(t, e, n) ==> n >= e.task.sn)
      <==> (Comparable(e.task.param) ==> forall n: nat :: Out(t, e, n) ==> n >= e.task.sn)
  {
    hide Reachable, Next, Enabled, GetTask, Overtakes, Out, Comparable;
    OvertakenIff(s, r, w, clock, 0);
    forall n: nat
      ensures var t := Next(s, Get(r, w, clock)); var e := LastOf(t.log);
        n < e.task.sn ==> (Overtakes(t, e, n) <==> Comparable(e.task.param) && Out(t, e, n))
    {
      OvertakenIff(s, r, w, clock, n);
    }
  }
}

/** What one pass of a worker establishes. */
module PeonPasses {
  import opened PeonModel
  import opened PeonInvariants
  import opened PeonSteps
  import opened PeonTheorems

  // ---------- Judging twice ----------

  /** A second judgement kills nobody, discards as the first did, and never defers. */
  lemma JudgeTwice(s: State, k: Kind, t: Task)
    ensures var s1 := Kill(s, k, t);
      && Kill(s1, k, t) == s1
      && (Discards(s1, k, t) <==> Discards(s, k, t))
      && !Defers(s1, k, t)
  {
    hide Match;
    var s1 := Kill(s, k, t);
    assert forall x :: Rival(s1, k, t, x) ==> Rival(s, k, t, x) && s.heap[x].sn >= t.sn;
    DiscardsStill(s, k, t);
    assert forall x :: Rival(s1, k, t, x) ==> s1.heap[x] == s.heap[x];
    assert Kill(s1, k, t).heap == s1.heap;
    hide Rival, Discards;
  }

  lemma DiscardsStill(s: State, k: Kind, t: Task)
    ensures Discards(Kill(s, k, t), k, t) <==> Discards(s, k, t)
  {
    hide Match;
    if Discards(s, k, t) {
      var x :| x in s.heap && Rival(s, k, t, x) && s.heap[x].sn > t.sn;
      assert Rival(Kill(s, k, t), k, t, x);
    }
  }

  // ---------- A pass that finds a task ----------

  /** The last thing done was to hand `e.a` to worker `w` of `r`, with no live rival left. */
  ghost predicate HandedOut(s: State, r: PeonId, w: nat, clock: Addr -> int, restrain: nat) {
    && s.log != []
    && var e := s.log[|s.log| - 1];
       && e.what == Dispatch(clock(e.a), restrain) && e.r == r && r != Recheck
       && e.task.state == Live && TimeOut(e.task, restrain, clock(e.a))
       && e.a in s.heap && s.heap[e.a] == e.task
       && e.a in s.place && s.place[e.a] == Proc(r)
       && r in s.peons && w in s.peons[r].busy && s.peons[r].busy[w] == e.a
       && Clear(s, KindOf(r), e.task)
       && e.pending == s.pending && (r != Dcb ==> e.batches == Batches(s, e.task.param))
  }

  lemma VisitHandsOut(s: State, r: PeonId, w: nat, a: Addr, clock: Addr -> int)
    requires Ready(s, r, w) && a in s.heap && a in s.place && s.place[a] == Wait(r)
    requires Visit(s, r, w, a, clock(a)).1 == Chosen
    ensures HandedOut(Visit(s, r, w, a, clock(a)).0, r, w, clock, s.peons[r].restrain)
  {
    var t, k := s.heap[a], KindOf(r);
    var s1 := Kill(s, k, t);
    assert s1.heap[a] == t && s1.place == s.place;
    KillClears(s, k, t);
    var s2 := Start(s1, r, w, a, clock(a));
    StartFrame(s1, r, w, a, clock(a));
    assert s2.heap == s1.heap
           && s2.log == s.log + [Event(Dispatch(clock(a), s.peons[r].restrain), a, r, t, a in s.inherited, s.pending,
                                       Batches(s1, t.param))] by {
      hide Attach, Detach;
    }
    hide Start, Kill, Match;
    forall x | Rival(s2, k, t, x)
      ensures s2.heap[x].sn == t.sn
    {
      assert x == a || Rival(s1, k, t, x);
    }
  }

  lemma {:induction false} PassHandsOut(s: State, r: PeonId, w: nat, todo: seq<Addr>, clock: Addr -> int)
    requires Inv(s) && Ready(s, r, w) && AllAt(s, todo, Wait(r))
    requires Pass(s, r, w, todo, clock).1
    ensures HandedOut(Pass(s, r, w, todo, clock).0, r, w, clock, s.peons[r].restrain)
    decreases |todo|
  {
    hide Inv, Visit, AllAt, HandedOut;
    AllAtFirst(s, todo, Wait(r));
    VisitInv(s, r, w, todo[0], clock(todo[0]));
    VisitFrame(s, r, w, todo[0], clock(todo[0]));
    var (s1, v) := Visit(s, r, w, todo[0], clock(todo[0]));
    if v == Chosen {
      VisitHandsOut(s, r, w, todo[0], clock);
    } else {
      AllAtRest(s, s1, todo, Wait(r), Gone);
      ReadyStays(s, s1, r, w);
      PassHandsOut(s1, r, w, todo[1..], clock);
    }
  }

  lemma StageHandsOut(s: State, r: PeonId, w: nat, clock: Addr -> int, restrain: nat, stage: Stage)
    requires HandedOut(s, r, w, clock, restrain)
    ensures HandedOut(SetStage(s, r, stage), r, w, clock, restrain)
  {
    hide Match;
    assert forall k, t, x :: Rival(SetStage(s, r, stage), k, t, x) <==> Rival(s, k, t, x);
  }

  /** When a task is handed out, every scanned task for its device with another number is dead. */
  lemma DispatchPostcondition(s: State, r: PeonId, w: nat, clock: Addr -> int)
    requires Reachable(s) && Enabled(s, Get(r, w, clock)) && GetTask(s, r, w, clock).1
    ensures HandedOut(GetTask(s, r, w, clock).0, r, w, clock, s.peons[r].restrain)
  {
    hide Inv, Pass, Reachable, AllAt, HandedOut, SetStage;
    ReachableInv(s);
    WaitAllAt(s, r);
    PassHandsOut(s, r, w, s.peons[r].wait, clock);
    if r.Dyn? {
      StageHandsOut(Pass(s, r, w, s.peons[r].wait, clock).0, r, w, clock, s.peons[r].restrain, Serving);
    }
  }

  /** Nothing stands in the way of the waiting task at `a` but older tasks that wait as well. */
  ghost predicate Unrivalled(s: State, r: PeonId, a: Addr, now: int) {
    && r in s.peons && r != Recheck && a in s.heap && a in s.place
    && s.heap[a].state == Live && TimeOut(s.heap[a], s.peons[r].restrain, now)
    && forall x :: Rival(s, KindOf(r), s.heap[a], x) && s.heap[x].sn != s.heap[a].sn ==>
         s.heap[x].sn < s.heap[a].sn && s.place[x].Wait?
  }

  /**
  A task that is judged is handed out if and only if it is live and due, no live rival is newer,
  and every older rival that is being handled was dead already: the one that deferred it died
  in an earlier judgement.
  */
  lemma ChosenIff(s: State, r: PeonId, w: nat, a: Addr, now: int)
    requires r in s.peons && r != Recheck && a in s.heap && a in s.place
    ensures Visit(s, r, w, a, now).1 == Chosen <==> Unrivalled(s, r, a, now)
  {
    hide Match, Kill, Drop, Start;
    var t, k := s.heap[a], KindOf(r);
    if Defers(s, k, t) {
      var x :| x in s.heap && Rival(s, k, t, x) && s.heap[x].sn < t.sn && s.place[x].Proc?;
    } else if Discards(s, k, t) {
      var x :| x in s.heap && Rival(s, k, t, x) && s.heap[x].sn > t.sn;
    } else {
      forall x | Rival(s, k, t, x) && s.heap[x].sn != t.sn
        ensures s.heap[x].sn < t.sn && s.place[x].Wait?
      {
        assert x in s.heap && x in s.place;
      }
    }
  }

  /** The last judgement of a pass that hands out `a`, and the state it was made in. */
  ghost predicate Chose(s: State, r: PeonId, w: nat, a: Addr, now: int, t: State) {
    Unrivalled(s, r, a, now) && t == Visit(s, r, w, a, now).0
  }

  lemma {:induction false} PassChose(s: State, r: PeonId, w: nat, todo: seq<Addr>, clock: Addr -> int)
    requires Inv(s) && Ready(s, r, w) && AllAt(s, todo, Wait(r))
    requires Pass(s, r, w, todo, clock).1
    ensures exists s1, a :: a in todo && Chose(s1, r, w, a, clock(a), Pass(s, r, w, todo, clock).0)
    decreases |todo|
  {
    hide Inv, Visit, AllAt, Unrivalled;
    AllAtFirst(s, todo, Wait(r));
    VisitInv(s, r, w, todo[0], clock(todo[0]));
    VisitFrame(s, r, w, todo[0], clock(todo[0]));
    var (s1, v) := Visit(s, r, w, todo[0], clock(todo[0]));
    if v == Chosen {
      ChosenIff(s, r, w, todo[0], clock(todo[0]));
      assert Chose(s, r, w, todo[0], clock(todo[0]), s1);
    } else {
      AllAtRest(s, s1, todo, Wait(r), Gone);
      ReadyStays(s, s1, r, w);
      PassChose(s1, r, w, todo[1..], clock);
      var s2, a :| a in todo[1..] && Chose(s2, r, w, a, clock(a), Pass(s1, r, w, todo[1..], clock).0);
      assert a in todo;
    }
  }

  /** A static peon hands out a task only by a judgement that found no live rival but waiting older ones. */
  lemma DispatchPrecondition(s: State, r: PeonId, w: nat, clock: Addr -> int)
    requires Reachable(s) && Enabled(s, Get(r, w, clock)) && GetTask(s, r, w, clock).1 && !r.Dyn?
    ensures exists s1, a :: a in s.peons[r].wait && Chose(s1, r, w, a, clock(a), GetTask(s, r, w, clock).0)
  {
    hide Inv, Pass, Reachable, AllAt, Chose;
    ReachableInv(s);
    WaitAllAt(s, r);
    PassChose(s, r, w, s.peons[r].wait, clock);
  }

  // ---------- What a judgement kills across kinds ----------

  /**
  A live settled connect dies when a waiting disconnect is judged if and only if the two are for
  the same device, however old the disconnect is: parked connects have the number 0.
  */
  lemma SettledDies(s: State, c: Addr, d: Addr, r: PeonId)
    requires Reachable(s) && c in s.heap && c in s.place && s.place[c] == Wait(Recheck) && s.heap[c].state == Live
    requires d in s.heap && d in s.place && s.place[d] == Wait(r) && (r == Disc || r.Dyn?)
    ensures Kill(s, KindOf(r), s.heap[d]).heap[c].state == Dead <==> Match(s.heap[c].param, s.heap[d].param, false)
  {
    hide Inv, Reachable, Match;
    ReachableInv(s);
    SettledNumbers(s, c, d, r);
  }

  lemma SettledNumbers(s: State, c: Addr, d: Addr, r: PeonId)
    requires Inv(s) && c in s.heap && c in s.place && s.place[c] == Wait(Recheck)
    requires d in s.heap && d in s.place && s.place[d] == Wait(r) && (r == Disc || r.Dyn?)
    ensures s.heap[c].sn == 0 < s.heap[d].sn
  {
    hide Stocked, LogNumbered, Ordered, Mortal, Punctual;
    assert d in s.inherited || Owner(s, d);
  }

  /**
  A connect to one target, when it is judged, kills a live batch if and only if that is older and
  for the same host.
  */
  lemma BatchDies(s: State, c: Addr, b: Addr)
    requires c in s.heap
    requires b in s.heap && b in s.place && (s.place[b] == Wait(Dcb) || s.place[b] == Proc(Dcb))
             && s.heap[b].state == Live
    ensures Kill(s, Connect, s.heap[c]).heap[b].state == Dead
       <==> s.heap[b].sn < s.heap[c].sn && Match(s.heap[b].param, s.heap[c].param, true)
  {
    hide Match;
  }

  /**
  Once a connect was dispatched, an older batch for its host is dead for ever, waiting or being
  handled, unless its number was still pending then.
  */
  lemma BatchDead(s: State, e: Event, b: Addr)
    requires Reachable(s) && e in s.log && Ran(e) && e.r == Conn
    requires b in s.heap && b in s.place && (s.place[b] == Wait(Dcb) || s.place[b] == Proc(Dcb))
    requires s.heap[b].sn < e.task.sn && Match(s.heap[b].param, e.task.param, true)
    ensures s.heap[b].state == Dead || s.heap[b].sn in e.pending
  {
    hide Reachable, Inv, Match;
    ReachableInv(s);
    BatchOwn(s, b);
    assert Outdated(s, e) by {
      LogOutdated(s, e);
    }
    assert s.heap[b].state == Live ==> Facing(s, e, b);
  }

  lemma LogOutdated(s: State, e: Event)
    requires Inv(s) && e in s.log && Ran(e)
    ensures Outdated(s, e)
  {
    hide Stocked, Numbered, LogNumbered, Mortal, Punctual;
  }

  /** No batch is inherited. */
  lemma BatchOwn(s: State, b: Addr)
    requires Inv(s) && b in s.place && (s.place[b] == Wait(Dcb) || s.place[b] == Proc(Dcb))
    ensures b !in s.inherited
  {
    hide Stocked, LogNumbered, Ordered, Mortal, Punctual, Bounded, Unshared;
  }

  // ---------- A pass that finds none ----------

  /** No older live connect for the device of `p` is waiting. */
  ghost predicate Settled(s: State, p: Addr) {
    p in s.heap && s.heap[p].state == Live ==>
      forall q :: q in s.heap && q in s.place && s.place[q] == Wait(Conn) && s.heap[q].state == Live
                  && Match(s.heap[q].param, s.heap[p].param, false)
                ==> s.heap[q].sn >= s.heap[p].sn
  }

  /** From `s` on to `t` tasks only die or go, and the waiting ones do not change otherwise. */
  ghost predicate Shrinks(s: State, t: State) {
    && (forall x :: x in t.heap ==> x in s.heap && (t.heap[x] == s.heap[x] || t.heap[x] == s.heap[x].(state := Dead)))
    && (forall x :: x in t.place && t.place[x] == Wait(Conn) ==> x in s.place && s.place[x] == Wait(Conn))
  }

  lemma SettledStays(s: State, t: State, p: Addr)
    requires Shrinks(s, t) && Settled(s, p)
    ensures Settled(t, p)
  {
    hide Match;
  }

  lemma VisitShrinks(s: State, r: PeonId, w: nat, a: Addr, now: int)
    requires r in s.peons && r != Recheck && a in s.heap && a in s.place
    requires Visit(s, r, w, a, now).1 != Chosen
    ensures Shrinks(s, Visit(s, r, w, a, now).0)
  {
    hide Kill, Drop, Start, Defers, Discards, TimeOut;
    var t, k := s.heap[a], KindOf(r);
    KillSpares(s, k, a);
    KillShrinks(s, k, t);
    DropShrinks(s, s, r, a);
    DropShrinks(s, Kill(s, k, t), r, a);
    hide Shrinks;
  }

  lemma KillShrinks(s: State, k: Kind, t: Task)
    ensures Shrinks(s, s) && Shrinks(s, Kill(s, k, t))
  {
    hide Rival;
  }

  lemma DropShrinks(s: State, t: State, r: PeonId, a: Addr)
    requires Shrinks(s, t) && a in t.heap && a in t.place
    ensures Shrinks(s, Drop(t, r, a))
  {
    hide Attach, Detach;
  }

  lemma VisitSettles(s: State, w: nat, a: Addr, now: int)
    requires Conn in s.peons && a in s.heap && a in s.place && s.place[a] == Wait(Conn)
    requires Visit(s, Conn, w, a, now).1 != Chosen
    ensures Settled(Visit(s, Conn, w, a, now).0, a)
  {
    hide Attach, Detach, Match;
    var t := s.heap[a];
    var s1 := Kill(s, Connect, t);
    var s2 := Visit(s, Conn, w, a, now).0;
    if t.state == Live && a in s2.heap {
      assert s2.heap == s1.heap && s2.place == s1.place && s1.heap[a] == t;
      forall q | q in s1.heap && q in s1.place && s1.place[q] == Wait(Conn) && s1.heap[q].state == Live
                 && Match(s1.heap[q].param, t.param, false)
        ensures s1.heap[q].sn >= t.sn
      {
        assert Rival(s, Connect, t, q);
      }
    }
  }

  lemma {:induction false} PassSettles(s: State, w: nat, todo: seq<Addr>, clock: Addr -> int)
    requires Inv(s) && Ready(s, Conn, w) && AllAt(s, todo, Wait(Conn))
    requires forall p :: p in s.place && s.place[p] == Wait(Conn) && p !in todo ==> Settled(s, p)
    requires !Pass(s, Conn, w, todo, clock).1
    ensures var t := Pass(s, Conn, w, todo, clock).0;
            forall p :: p in t.place && t.place[p] == Wait(Conn) ==> Settled(t, p)
    decreases |todo|
  {
    if todo != [] {
      hide Inv, Visit, AllAt, Settled;
      var a := todo[0];
      AllAtFirst(s, todo, Wait(Conn));
      VisitInv(s, Conn, w, a, clock(a));
      VisitFrame(s, Conn, w, a, clock(a));
      var (s1, v) := Visit(s, Conn, w, a, clock(a));
      AllAtRest(s, s1, todo, Wait(Conn), Gone);
      ReadyStays(s, s1, Conn, w);
      VisitSettles(s, w, a, clock(a));
      VisitShrinks(s, Conn, w, a, clock(a));
      forall p | p in s1.place && s1.place[p] == Wait(Conn) && p !in todo[1..]
        ensures Settled(s1, p)
      {
        if p != a {
          SettledStays(s, s1, p);
        }
      }
      PassSettles(s1, w, todo[1..], clock);
    }
  }

  lemma MatchSymmetric(p: Param, q: Param)
    ensures Match(p, q, false) <==> Match(q, p, false)
  {
  }

  /** After a pass of the connect peon that hands out nothing, its live tasks are for different devices. */
  lemma QuiescentNormalForm(s: State, w: nat, clock: Addr -> int, p: Addr, q: Addr)
    requires Reachable(s) && Enabled(s, Get(Conn, w, clock)) && !GetTask(s, Conn, w, clock).1
    requires var t := GetTask(s, Conn, w, clock).0;
      && Conn in t.peons && p in t.peons[Conn].wait && q in t.peons[Conn].wait && p != q
      && p in t.heap && q in t.heap && t.heap[p].state == Live && t.heap[q].state == Live
    ensures var t := GetTask(s, Conn, w, clock).0;
            !Match(t.heap[p].param, t.heap[q].param, false)
  {
    hide Inv, Pass, Reachable, AllAt, Match;
    ReachableInv(s);
    WaitAllAt(s, Conn);
    WaitPlace(s, Conn);
    GetInv(s, Conn, w, clock);
    PassSettles(s, w, s.peons[Conn].wait, clock);
    var t := GetTask(s, Conn, w, clock).0;
    WaitPlace(t, Conn);
    SnsDiffer(t, p, q);
    MatchSymmetric(t.heap[p].param, t.heap[q].param);
  }

  lemma WaitPlace(s: State, r: PeonId)
    requires Inv(s) && r in s.peons
    ensures forall a :: a in s.peons[r].wait <==> a in s.place && s.place[a] == Wait(r)
  {
    hide Honest, Staffed, Counted, DynCounted, Housed;
    assert Holds(s.peons[r].wait, s.place, Wait(r));
  }

  lemma SnsDiffer(s: State, p: Addr, q: Addr)
    requires Inv(s) && p in s.heap && q in s.heap && p != q
    requires p in s.place && q in s.place && s.place[p] == Wait(Conn) && s.place[q] == Wait(Conn)
    ensures s.heap[p].sn != s.heap[q].sn
  {
    hide Stocked, LogNumbered, Ordered, Mortal;
    assert Owner(s, p) && Owner(s, q);
  }
}

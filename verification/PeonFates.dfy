/** What becomes of tasks that are dead, or superseded, in every continuation of a run. */
module PeonFates {
  import opened PeonModel
  import opened PeonInvariants
  import opened PeonSteps
  import opened PeonTheorems

  /** The task at `a` was accepted, and is dead or freed. */
  ghost predicate Lost(s: State, a: Addr) {
    a in s.place && (a !in s.heap || s.heap[a].state == Dead)
  }

  /** A live newer disconnect for the device of the connect `c` waits in the static pool. */
  ghost predicate Supersedes(s: State, d: Addr, c: Addr) {
    && c in s.heap && c in s.place && d in s.heap && d in s.place
    && s.place[c] == Wait(Conn) && s.place[d] == Wait(Disc)
    && s.heap[d].state == Live
    && Match(s.heap[c].param, s.heap[d].param, false)
    && s.heap[d].sn > s.heap[c].sn
  }

  ghost predicate Doomed(s: State, c: Addr) {
    Lost(s, c) || exists d :: Supersedes(s, d, c)
  }

  /** From `s` on to `t`, the dead stay where they are or are freed, and no doomed task is served. */
  ghost predicate Fated(s: State, t: State) {
    && s.log <= t.log
    && (forall a :: Lost(s, a) ==>
          Lost(t, a) && (a in t.heap && a in t.place ==> a in s.heap && t.place[a] == s.place[a]))
    && (forall a :: Doomed(s, a) ==> Doomed(t, a))
    && (forall i :: |s.log| <= i < |t.log| && t.log[i].what != Free ==> !Doomed(s, t.log[i].a))
  }

  lemma FatedTrans(s: State, t: State, u: State)
    requires Fated(s, t) && Fated(t, u)
    ensures Fated(s, u)
  {
    hide Doomed;
    forall i | |s.log| <= i < |u.log| && u.log[i].what != Free
      ensures !Doomed(s, u.log[i].a)
    {
      if i < |t.log| {
        assert u.log[i] == t.log[i];
      }
    }
  }

  lemma MatchChain(p: Param, q: Param, r: Param)
    requires Match(p, q, false) && Match(q, r, false)
    ensures Match(p, r, false)
  {
  }

  // ---------- Steps other than a pass of a worker ----------

  /** Only tasks that wait neither to connect nor to disconnect are touched, and the dead only freed. */
  ghost predicate Calm(s: State, t: State) {
    && s.log <= t.log
    && (forall a :: a in s.place ==> a in t.place)
    && (forall a :: a in s.heap && a in s.place && (s.place[a] == Wait(Conn) || s.place[a] == Wait(Disc)) ==>
          a in t.heap && t.heap[a] == s.heap[a] && t.place[a] == s.place[a])
    && (forall a :: Lost(s, a) ==> Lost(t, a) && (a in t.heap ==> a in s.heap && t.place[a] == s.place[a]))
    && (forall i :: |s.log| <= i < |t.log| && t.log[i].what != Free ==>
          t.log[i].a in s.place ==>
            !Lost(s, t.log[i].a) && s.place[t.log[i].a] != Wait(Conn) && s.place[t.log[i].a] != Wait(Disc))
  }

  lemma CalmFated(s: State, t: State)
    requires Calm(s, t)
    ensures Fated(s, t)
  {
    hide Match;
    forall a | Doomed(s, a)
      ensures Doomed(t, a)
    {
      if !Lost(s, a) {
        var d :| Supersedes(s, d, a);
        assert Supersedes(t, d, a);
      }
    }
  }

  lemma CalmTrans(s: State, t: State, u: State)
    requires Calm(s, t) && Calm(t, u)
    ensures Calm(s, u)
  {
    forall i | |s.log| <= i < |u.log| && u.log[i].what != Free && u.log[i].a in s.place
      ensures !Lost(s, u.log[i].a) && s.place[u.log[i].a] != Wait(Conn) && s.place[u.log[i].a] != Wait(Disc)
    {
      if i < |t.log| {
        assert u.log[i] == t.log[i];
      }
    }
  }

  /** One event, on a task that waits neither to connect nor to disconnect. */
  lemma EventCalm(s: State, t: State, e: Event, to: Place)
    requires e.a in s.heap && e.a in s.place && t.log == s.log + [e]
    requires s.place[e.a] != Wait(Conn) && s.place[e.a] != Wait(Disc) && s.place[e.a] != to
    requires t.place == s.place[e.a := to]
    requires if to == Gone then t.heap == s.heap - {e.a}
             else e.a in t.heap && t.heap == s.heap[e.a := t.heap[e.a]] && s.heap[e.a].state == Live
    requires e.what == Free <==> to == Gone
    ensures Calm(s, t)
  {
  }

  lemma LayDownShape(s: State, r: PeonId, w: nat, what: What, a: Addr, to: Place, t: Task)
    requires r in s.peons && a in s.heap && a in s.place
    ensures var s' := LayDown(s, r, w, what, a, to, t);
      && s'.place == s.place[a := to]
      && s'.heap == (if to == Gone then s.heap - {a} else s.heap[a := t])
      && s'.log == Note(s, what, a, r).log && s'.pending == s.pending
  {
    hide Attach, Detach;
  }

  lemma FinishCalm(s: State, r: PeonId, w: nat, failed: bool, now: int)
    requires Inv(s) && r in s.peons && r != Recheck && w in s.peons[r].busy
    ensures Calm(s, CompleteTask(s, r, w, failed, now))
  {
    hide Inv, LayDown, Calm;
    HandlingBusy(s, r, w);
    var a := s.peons[r].busy[w];
    var t := s.heap[a];
    var s' := CompleteTask(s, r, w, failed, now);
    if t.state == Live && failed {
      LayDownShape(s, r, w, Retry(now), a, Wait(r), t.(nextRun := now + RETRY_INTERVAL));
      EventCalm(s, s', s'.log[|s.log|], Wait(r));
    } else if t.state == Live && r == Conn {
      LayDownShape(s, r, w, Settle, a, Wait(Recheck), t.(sn := 0));
      EventCalm(s, s', s'.log[|s.log|], Wait(Recheck));
    } else {
      LayDownShape(s, r, w, Free, a, Gone, t);
      EventCalm(s, s', s'.log[|s.log|], Gone);
    }
  }

  lemma RecheckCalm(s: State, a: Addr, lost: set<Addr>, now: int)
    requires a in s.heap && a in s.place && s.place[a] == Wait(Recheck)
    ensures Calm(s, RecheckVisit(s, a, lost, now))
  {
    hide Attach, Detach;
    var t := RecheckVisit(s, a, lost, now);
    if s.heap[a].state == Dead || !s.heap[a].rechecks || a in lost {
      EventCalm(s, t, t.log[|s.log|], t.place[a]);
    }
  }

  lemma {:induction false} RecheckAllCalm(s: State, todo: seq<Addr>, lost: set<Addr>, clock: Addr -> int,
                                          issued: Addr -> nat)
    requires Inv(s) && AllAt(s, todo, Wait(Recheck))
    ensures Calm(s, RecheckAll(s, todo, lost, clock, issued))
    decreases |todo|
  {
    if todo != [] {
      hide Inv, RecheckVisit, AllAt, Calm, Meanwhile;
      RecheckTurnInv(s, todo, lost, clock(todo[0]), issued(todo[0]));
      var m := Meanwhile(s, issued(todo[0]));
      var s1 := RecheckVisit(m, todo[0], lost, clock(todo[0]));
      CalmSame(s, m);
      RecheckCalm(m, todo[0], lost, clock(todo[0]));
      CalmTrans(s, m, s1);
      RecheckAllCalm(s1, todo[1..], lost, clock, issued);
      CalmTrans(s, s1, RecheckAll(s1, todo[1..], lost, clock, issued));
    } else {
      CalmSame(s, s);
    }
  }

  lemma CalmSame(s: State, t: State)
    requires t.heap == s.heap && t.place == s.place && t.log == s.log
    ensures Calm(s, t)
  {
  }

  lemma {:induction false} CloseAllCalm(s: State, r: PeonId, todo: seq<Addr>)
    requires Inv(s) && r in s.peons && r.Dyn? && s.peons[r].wait == todo && AllAt(s, todo, Wait(r))
    ensures Calm(s, CloseAll(s, r, todo))
    decreases |todo|
  {
    if todo != [] {
      hide Inv, AllAt, Attach, Detach, Calm;
      AllAtFirst(s, todo, Wait(r));
      CloseOneInv(s, r, todo[0]);
      CloseOneFrame(s, r, todo);
      var n := Note(s, Free, todo[0], r);
      var s1 := Move(n, todo[0], Gone, s.heap[todo[0]]);
      AllAtRest(s, s1, todo, Wait(r), Gone);
      EventCalm(s, s1, n.log[|s.log|], Gone);
      CloseAllCalm(s1, r, todo[1..]);
      CalmTrans(s, s1, CloseAll(s1, r, todo[1..]));
    } else {
      CalmSame(s, s);
    }
  }

  lemma AddShape(s0: State, r: PeonId, a: Addr, t: Task, spawned: bool, d: nat, restrain: nat)
    requires r in s0.peons
    ensures var u := AddTask(s0, r, a, t, spawned, d, restrain);
      u.log == s0.log && u.heap == s0.heap[a := t] && a in u.place && u.place == s0.place[a := u.place[a]]
  {
    hide Attach;
  }

  lemma AddCalm(s: State, s0: State, r: PeonId, a: Addr, t: Task, spawned: bool, d: nat, restrain: nat)
    requires a !in s.place && Housed(s) && r in s0.peons
    requires s0.heap == s.heap && s0.place == s.place && s0.log == s.log
    ensures Calm(s, AddTask(s0, r, a, t, spawned, d, restrain))
  {
    AddShape(s0, r, a, t, spawned, d, restrain);
    hide AddTask;
  }

  lemma OtherCalm(s: State, e: Step)
    requires Inv(s) && HasStatics(s) && Enabled(s, e) && !e.Get?
    ensures Calm(s, Next(s, e))
  {
    hide Listed, Staffed, Counted, DynCounted, Honest, CompleteTask, RecheckAll, CloseAll, AddTask, AllAt, Calm;
    match e {
      case Insert(r, sn, a, param, rechecks, now, spawned, d, restrain) =>
        AddCalm(s, s.(pending := s.pending - {sn}), r, a, Task(sn, Live, now, 0, param, rechecks), spawned, d,
                restrain);
      case Inherit(sn, a, param, rechecks, now, spawned, d, restrain) =>
        AddCalm(s, s.(inherited := s.inherited + {a}), Disc, a, Task(sn, Live, now, 0, param, rechecks), spawned, d,
                restrain);
      case Complete(r, w, failed, now) => FinishCalm(s, r, w, failed, now);
      case RecheckPass(lost, clock, issued) =>
        WaitAllAt(s, Recheck);
        RecheckAllCalm(s, s.peons[Recheck].wait, lost, clock, issued);
      case Close(d) =>
        WaitAllAt(s, Dyn(d));
        var s1 := CloseAll(s, Dyn(d), s.peons[Dyn(d)].wait);
        CloseAllCalm(s, Dyn(d), s.peons[Dyn(d)].wait);
        CalmSame(s1, SetStage(s1, Dyn(d), Closed));
        CalmTrans(s, s1, SetStage(s1, Dyn(d), Closed));
      case Issue => CalmSame(s, Next(s, e));
      case Abandon(_) => CalmSame(s, Next(s, e));
      case Exit(_) => CalmSame(s, Next(s, e));
      case SetRestrain(_) => CalmSame(s, Next(s, e));
      case Get(_, _, _) => assert false;
    }
  }

  // ---------- The pass of a worker ----------

  /** Whoever judges, a doomed connect stays doomed: what kills its superseder kills it. */
  lemma KillFated(s: State, k: Kind, t: Task)
    ensures Fated(s, Kill(s, k, t))
  {
    var s' := Kill(s, k, t);
    forall c | Doomed(s, c)
      ensures Doomed(s', c)
    {
      if !Lost(s, c) {
        var d :| Supersedes(s, d, c);
        if s'.heap[d].state == Dead {
          MatchChain(s.heap[c].param, s.heap[d].param, t.param);
        } else if s'.heap[c].state == Live {
          assert Supersedes(s', d, c);
        }
      }
    }
  }

  /** A disconnect that is judged kills the connects it supersedes. */
  lemma KillSuperseded(s: State, a: Addr, c: Addr)
    requires Supersedes(s, a, c)
    ensures Lost(Kill(s, Disconnect, s.heap[a]), c)
  {
    assert Match(s.heap[c].param, s.heap[a].param, false);
  }

  /** A superseded connect that is judged is discarded. */
  lemma SupersededDiscards(s: State, d: Addr, c: Addr)
    requires Supersedes(s, d, c)
    ensures Discards(s, Connect, s.heap[c])
  {
    assert Rival(s, Connect, s.heap[c], d);
  }

  /** Whatever `a` supersedes is lost already. */
  ghost predicate Spent(s: State, a: Addr) {
    forall c :: Supersedes(s, a, c) ==> Lost(s, c)
  }

  lemma DoomStays(s: State, t: State, a: Addr, c: Addr)
    requires Spent(s, a) && Doomed(s, c) && c != a
    requires forall x :: x in s.place && x != a ==> x in t.place && t.place[x] == s.place[x]
    requires forall x :: x in s.heap && x != a ==> x in t.heap && t.heap[x] == s.heap[x]
    requires forall x :: x in t.heap ==> x in s.heap
    ensures Doomed(t, c)
  {
    hide Match;
    if !Lost(s, c) {
      var d :| Supersedes(s, d, c);
      assert Supersedes(t, d, c);
    }
  }

  lemma DropFated(s: State, r: PeonId, a: Addr)
    requires a in s.heap && a in s.place && Spent(s, a)
    ensures Fated(s, Drop(s, r, a))
  {
    var t := Drop(s, r, a);
    DropShape(s, r, a);
    hide Drop, Spent, Supersedes;
    forall c | Doomed(s, c)
      ensures Doomed(t, c)
    {
      if c != a {
        DoomStays(s, t, a, c);
      }
    }
  }

  lemma DropShape(s: State, r: PeonId, a: Addr)
    requires a in s.heap && a in s.place
    ensures Drop(s, r, a).place == s.place[a := Gone] && Drop(s, r, a).heap == s.heap - {a}
    ensures Drop(s, r, a).log == Note(s, Free, a, r).log && Drop(s, r, a).pending == s.pending
    ensures Drop(s, r, a).deferred == s.deferred
  {
    hide Attach, Detach;
  }

  lemma StartShape(s: State, r: PeonId, w: nat, a: Addr, now: int)
    requires a in s.heap && a in s.place && r in s.peons
    ensures Start(s, r, w, a, now).place == s.place[a := Proc(r)] && Start(s, r, w, a, now).heap == s.heap
    ensures Start(s, r, w, a, now).log == Note(s, Dispatch(now, s.peons[r].restrain), a, r).log
    ensures Start(s, r, w, a, now).pending == s.pending && Start(s, r, w, a, now).deferred == s.deferred
  {
    hide Attach, Detach;
  }

  lemma StartFated(s: State, r: PeonId, w: nat, a: Addr, now: int)
    requires a in s.heap && a in s.place && r in s.peons && Spent(s, a) && !Doomed(s, a)
    ensures Fated(s, Start(s, r, w, a, now))
  {
    var t := Start(s, r, w, a, now);
    StartShape(s, r, w, a, now);
    hide Start, Spent, Supersedes;
    forall c | Doomed(s, c)
      ensures Doomed(t, c)
    {
      DoomStays(s, t, a, c);
    }
  }

  lemma JudgedSpent(s: State, r: PeonId, a: Addr)
    requires a in s.heap && a in s.place && r != Recheck && s.place[a] == Wait(r)
    ensures Spent(Kill(s, KindOf(r), s.heap[a]), a)
  {
    var s1 := Kill(s, KindOf(r), s.heap[a]);
    forall c | Supersedes(s1, a, c)
      ensures Lost(s1, c)
    {
      assert Supersedes(s, a, c);
      KillSuperseded(s, a, c);
    }
  }

  lemma ChosenNotDoomed(s: State, r: PeonId, a: Addr)
    requires a in s.heap && a in s.place && r != Recheck && s.place[a] == Wait(r)
    requires s.heap[a].state == Live && !Discards(s, KindOf(r), s.heap[a])
    ensures !Doomed(Kill(s, KindOf(r), s.heap[a]), a)
  {
    var s1 := Kill(s, KindOf(r), s.heap[a]);
    hide Discards, Match;
    forall d
      ensures !Supersedes(s1, d, a)
    {
      if Supersedes(s1, d, a) {
        assert Supersedes(s, d, a);
        SupersededDiscards(s, d, a);
      }
    }
  }

  lemma VisitFated(s: State, r: PeonId, w: nat, a: Addr, now: int)
    requires r in s.peons && r != Recheck && a in s.heap && a in s.place && s.place[a] == Wait(r)
    ensures Fated(s, Visit(s, r, w, a, now).0)
  {
    var t, k := s.heap[a], KindOf(r);
    var s1 := Kill(s, k, t);
    if t.state == Dead {
      hide Drop, Fated, Kill;
      DropFated(s, r, a);
    } else {
      KillFated(s, k, t);
      JudgedSpent(s, r, a);
      assert s1.heap[a] == t && s1.place == s.place && s1.peons == s.peons;
      hide Drop, Start, Fated, Spent, Doomed, Kill, Discards, Defers;
      if Defers(s, k, t) {
        FatedSame(s1, PutOff(s1, r, a, Blockers(s, k, t)));
        FatedTrans(s, s1, PutOff(s1, r, a, Blockers(s, k, t)));
      } else if Discards(s, k, t) {
        DropFated(s1, r, a);
        FatedTrans(s, s1, Drop(s1, r, a));
      } else if TimeOut(t, s.peons[r].restrain, now) {
        ChosenNotDoomed(s, r, a);
        StartFated(s1, r, w, a, now);
        FatedTrans(s, s1, Start(s1, r, w, a, now));
      }
    }
  }

  lemma {:induction false} PassFated(s: State, r: PeonId, w: nat, todo: seq<Addr>, clock: Addr -> int)
    requires Inv(s) && Ready(s, r, w) && AllAt(s, todo, Wait(r))
    ensures Fated(s, Pass(s, r, w, todo, clock).0)
    decreases |todo|
  {
    hide Inv, Visit, AllAt, Fated;
    if todo == [] {
      FatedSame(s, s);
    } else {
      AllAtFirst(s, todo, Wait(r));
      VisitInv(s, r, w, todo[0], clock(todo[0]));
      VisitFrame(s, r, w, todo[0], clock(todo[0]));
      VisitFated(s, r, w, todo[0], clock(todo[0]));
      var (s1, v) := Visit(s, r, w, todo[0], clock(todo[0]));
      if v != Chosen {
        AllAtRest(s, s1, todo, Wait(r), Gone);
        ReadyStays(s, s1, r, w);
        PassFated(s1, r, w, todo[1..], clock);
        FatedTrans(s, s1, Pass(s1, r, w, todo[1..], clock).0);
      }
    }
  }

  lemma FatedSame(s: State, t: State)
    requires t.heap == s.heap && t.place == s.place && t.log == s.log
    ensures Fated(s, t)
  {
    CalmSame(s, t);
    CalmFated(s, t);
  }

  // ---------- Every continuation ----------

  lemma NextFated(s: State, e: Step)
    requires Inv(s) && HasStatics(s) && Enabled(s, e)
    ensures Fated(s, Next(s, e))
  {
    if e.Get? {
      hide Inv, Pass, AllAt, Fated;
      WaitAllAt(s, e.r);
      PassFated(s, e.r, e.w, s.peons[e.r].wait, e.clock);
      var s1 := Pass(s, e.r, e.w, s.peons[e.r].wait, e.clock).0;
      FatedSame(s1, Next(s, e));
      FatedTrans(s, s1, Next(s, e));
    } else {
      hide Inv, Next, Calm, Fated;
      OtherCalm(s, e);
      CalmFated(s, Next(s, e));
    }
  }

  lemma {:induction false} RunFated(s: State, steps: seq<Step>, t: State)
    requires Inv(s) && Run(s, steps, t)
    ensures Fated(s, t)
    decreases |steps|
  {
    hide Inv, Next, Fated;
    if steps == [] {
      FatedSame(s, t);
    } else {
      NextInv(s, steps[0]);
      NextFated(s, steps[0]);
      RunFated(Next(s, steps[0]), steps[1..], t);
      FatedTrans(s, Next(s, steps[0]), t);
    }
  }

  /** A dead task is never served again: it stays dead where it is, until it is freed. */
  lemma DeadForEver(s: State, steps: seq<Step>, t: State, a: Addr)
    requires Reachable(s) && a in s.heap && a in s.place && s.heap[a].state == Dead
    requires Run(s, steps, t)
    ensures a in t.heap && a in t.place ==> t.heap[a].state == Dead && t.place[a] == s.place[a]
    ensures s.log <= t.log
    ensures forall i :: |s.log| <= i < |t.log| && t.log[i].a == a ==> t.log[i].what == Free
  {
    ReachableInv(s);
    RunFated(s, steps, t);
    hide Inv, Run;
    assert Doomed(s, a);
  }

  /** A connect that waits while a newer disconnect of its device waits in the pool never runs. */
  lemma SupersededNeverRuns(s: State, steps: seq<Step>, t: State, c: Addr, d: Addr)
    requires Reachable(s) && Supersedes(s, d, c)
    requires Run(s, steps, t)
    ensures s.log <= t.log
    ensures forall i :: |s.log| <= i < |t.log| && t.log[i].a == c ==> t.log[i].what == Free
  {
    ReachableInv(s);
    RunFated(s, steps, t);
    hide Inv, Run;
    assert Doomed(s, c);
  }
}

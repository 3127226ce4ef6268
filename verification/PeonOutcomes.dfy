/**
What each operation of the scheduler comes to, in literal terms: whom a judgement concerns,
what a pass leaves undone, where a completed, a rechecked and a new task go.
*/
module PeonOutcomes {
  import opened Bytes
  import opened PeonModel
  import opened PeonInvariants
  import opened PeonSteps
  import opened PeonTheorems
  import opened PeonFates
  import opened PeonPasses

  // ---------- Whom a judgement concerns ----------

  /** The address octets that count: four for IPv4, sixteen for IPv6. */
  ghost predicate SameAddress(family: int, x: Ip, y: Ip) {
    (family == 2 && x[..4] == y[..4]) || (family == 10 && x == y)
  }

  /** Two tasks are for the same host, whatever the target. */
  ghost predicate SameHost(p: Param, q: Param) {
    p.protocol == q.protocol && p.family == q.family && SameAddress(p.family, p.hostIp, q.hostIp)
  }

  ghost predicate SameDevice(p: Param, q: Param) {
    SameHost(p, q) && p.portId == q.portId && SameAddress(p.family, p.targetIp, q.targetIp)
  }

  lemma MatchMeans(p: Param, q: Param)
    ensures Match(p, q, true) <==> SameHost(p, q)
    ensures Match(p, q, false) <==> SameDevice(p, q)
  {
    AddressMeans(p.family, p.hostIp, q.hostIp);
    AddressMeans(p.family, p.targetIp, q.targetIp);
    hide IpMatch, SameAddress;
  }

  lemma AddressMeans(family: int, x: Ip, y: Ip)
    ensures IpMatch(family, x, y) <==> SameAddress(family, x, y)
  {
    assert x[..4] == [x[0], x[1], x[2], x[3]] && y[..4] == [y[0], y[1], y[2], y[3]];
  }

  /**
  Whom the judgement of a task with the peon `r` concerns: for a connect, disconnects, connects
  and parked connects of its device and batches of its host; for a disconnect, connects and
  parked connects of its device; for a batch, connects of its host.
  */
  ghost predicate Concerns(r: PeonId, p: Place, t: Param, x: Param) {
    match r
    case Conn =>
      || (p in {Wait(Disc), Proc(Disc), Wait(Conn), Proc(Conn), Wait(Recheck)} && SameDevice(x, t))
      || (p in {Wait(Dcb), Proc(Dcb)} && SameHost(x, t))
    case Dcb => p in {Wait(Conn), Proc(Conn)} && SameHost(x, t)
    case Recheck => false
    case _ => p in {Wait(Conn), Proc(Conn), Wait(Recheck)} && SameDevice(x, t)
  }

  lemma RivalMeans(s: State, r: PeonId, t: Task, x: Addr)
    requires r != Recheck && x in s.heap && x in s.place && s.place[x] != Proc(Recheck)
    ensures Rival(s, KindOf(r), t, x) <==>
              s.heap[x].state == Live && Concerns(r, s.place[x], t.param, s.heap[x].param)
  {
    hide Match, SameHost, SameDevice;
    MatchMeans(s.heap[x].param, t.param);
  }

  /** Judging a task kills exactly the older live ones it concerns. */
  lemma JudgementKills(s: State, r: PeonId, a: Addr, x: Addr)
    requires Reachable(s) && r != Recheck && a in s.heap && x in s.heap && x in s.place
    ensures var t := Kill(s, KindOf(r), s.heap[a]);
      && x in t.heap
      && t.heap[x] == if s.heap[x].state == Live && s.heap[x].sn < s.heap[a].sn
                         && Concerns(r, s.place[x], s.heap[a].param, s.heap[x].param)
                      then s.heap[x].(state := Dead) else s.heap[x]
  {
    hide Reachable, Inv, Concerns, Rival;
    ReachableInv(s);
    NeverRechecked(s);
    RivalMeans(s, r, s.heap[a], x);
  }

  lemma NeverRechecked(s: State)
    requires Inv(s)
    ensures forall x :: x in s.place ==> s.place[x] != Proc(Recheck)
    ensures forall x :: x in s.heap <==> x in s.place && s.place[x] != Gone
  {
    hide Listed, Staffed, Counted, DynCounted, Honest, Patient;
  }

  /** It is put off iff one of those is older and being handled, and discarded iff one is newer. */
  lemma JudgementFlags(s: State, r: PeonId, a: Addr)
    requires Reachable(s) && r != Recheck && a in s.heap
    ensures Defers(s, KindOf(r), s.heap[a]) <==>
              exists x :: x in s.heap && x in s.place && s.place[x].Proc? && s.heap[x].state == Live
                          && s.heap[x].sn < s.heap[a].sn && Concerns(r, s.place[x], s.heap[a].param, s.heap[x].param)
    ensures Discards(s, KindOf(r), s.heap[a]) <==>
              exists x :: x in s.heap && x in s.place && s.heap[x].state == Live
                          && s.heap[x].sn > s.heap[a].sn && Concerns(r, s.place[x], s.heap[a].param, s.heap[x].param)
  {
    hide Reachable, Inv, Concerns, Rival;
    ReachableInv(s);
    NeverRechecked(s);
    forall x | x in s.heap
      ensures x in s.place && (Rival(s, KindOf(r), s.heap[a], x) <==>
                s.heap[x].state == Live && Concerns(r, s.place[x], s.heap[a].param, s.heap[x].param))
    {
      RivalMeans(s, r, s.heap[a], x);
    }
  }

  /** A batch, when it is judged, kills a live connect if and only if that is older and for the same host. */
  lemma ConnectDies(s: State, b: Addr, c: Addr)
    requires b in s.heap
    requires c in s.heap && c in s.place && (s.place[c] == Wait(Conn) || s.place[c] == Proc(Conn))
    requires s.heap[c].state == Live
    ensures Kill(s, Batch, s.heap[b]).heap[c].state == Dead <==>
              s.heap[c].sn < s.heap[b].sn && Match(s.heap[c].param, s.heap[b].param, true)
  {
    hide Match;
  }

  /**
  After a dispatch the tasks it concerns are not older and live, waiting or being handled, unless
  their number was still pending then, or was handed on by a batch of the connect's host.
  */
  lemma NoneOlderLive(s: State, e: Event, x: Addr)
    requires Reachable(s) && e in s.log && Ran(e)
    requires x in s.heap && x in s.place && s.heap[x].state == Live && s.place[x] != Wait(Recheck)
    requires Concerns(e.r, s.place[x], e.task.param, s.heap[x].param)
    ensures || s.heap[x].sn >= e.task.sn || s.heap[x].sn in e.pending
            || (x in s.inherited && e.r == Conn && s.heap[x].sn in e.batches)
  {
    hide Reachable, Inv, Match, SameHost, SameDevice;
    ReachableInv(s);
    DispatchOutdated(s, e);
    MatchMeans(s.heap[x].param, e.task.param);
    assert Facing(s, e, x);
  }

  lemma DispatchOutdated(s: State, e: Event)
    requires Inv(s) && e in s.log && Ran(e)
    ensures Outdated(s, e) && e.r != Recheck
  {
    hide Stocked, Numbered, Mortal, Punctual, Patient;
    assert Known(s, e);
  }

  /** Once a batch was dispatched, an older connect of its host is dead for ever, unless its number was pending then. */
  lemma ConnectDead(s: State, e: Event, c: Addr)
    requires Reachable(s) && e in s.log && Ran(e) && e.r == Dcb
    requires c in s.heap && c in s.place && (s.place[c] == Wait(Conn) || s.place[c] == Proc(Conn))
    requires s.heap[c].sn < e.task.sn && Match(s.heap[c].param, e.task.param, true)
    ensures s.heap[c].state == Dead || s.heap[c].sn in e.pending
  {
    hide Reachable, Match, SameHost, SameDevice;
    MatchMeans(s.heap[c].param, e.task.param);
    if s.heap[c].state == Live {
      NoneOlderLive(s, e, c);
    }
  }

  // ---------- Where a completed task goes ----------

  /** Nothing is done to the tasks other than `a`. */
  ghost predicate OthersStay(s: State, t: State, a: Addr) {
    forall x :: x != a ==>
      && (x in t.heap <==> x in s.heap) && (x in s.heap && x in t.heap ==> t.heap[x] == s.heap[x])
      && (x in t.place <==> x in s.place) && (x in s.place && x in t.place ==> t.place[x] == s.place[x])
  }

  /**
  The worker is free again. A live task whose handler failed goes to the end of the wait list it
  came from, to run again in sixty seconds, under its number; a live connect that was served is
  parked without a number; every other task is gone.
  */
  lemma Completed(s: State, r: PeonId, w: nat, failed: bool, now: int)
    requires Reachable(s) && HasStatics(s) && Enabled(s, Complete(r, w, failed, now))
    ensures var t, a := Next(s, Complete(r, w, failed, now)), s.peons[r].busy[w];
      && a in s.heap && a in t.place && OthersStay(s, t, a)
      && r in t.peons && t.peons[r].busy == s.peons[r].busy - {w}
      && var task := s.heap[a];
         if task.state == Live && failed then
           && a in t.heap && t.heap[a] == task.(nextRun := now + 60)
           && t.place[a] == Wait(r) && t.peons[r].wait == s.peons[r].wait + [a]
         else if task.state == Live && r == Conn then
           && a in t.heap && t.heap[a] == task.(sn := 0)
           && t.place[a] == Wait(Recheck) && Recheck in t.peons && t.peons[Recheck].wait == s.peons[Recheck].wait + [a]
         else a !in t.heap && t.place[a] == Gone
  {
    hide Reachable, Inv, LayDown, SetStage;
    ReachableInv(s);
    HandlingBusy(s, r, w);
    var a := s.peons[r].busy[w];
    var task := s.heap[a];
    if task.state == Live && failed {
      LaidDownLists(s, r, w, Retry(now), a, Wait(r), task.(nextRun := now + RETRY_INTERVAL));
    } else if task.state == Live && r == Conn {
      LaidDownLists(s, r, w, Settle, a, Wait(Recheck), task.(sn := 0));
    } else {
      LaidDownLists(s, r, w, Free, a, Gone, task);
    }
    StageLists(FinishTask(s, r, w, failed, now), r, Closing);
  }

  lemma StageLists(s: State, r: PeonId, stage: Stage)
    ensures var t := SetStage(s, r, stage);
      && t == s.(peons := t.peons) && t.peons.Keys == s.peons.Keys
      && forall q :: q in s.peons ==>
           t.peons[q].wait == s.peons[q].wait && t.peons[q].busy == s.peons[q].busy
  {
  }

  lemma LaidDownLists(s: State, r: PeonId, w: nat, what: What, a: Addr, to: Place, t: Task)
    requires Inv(s) && Handling(s, r, w, a) && Outcome(s, r, what, a, to, t)
    ensures var s' := LayDown(s, r, w, what, a, to, t);
      && a in s'.place && s'.place[a] == to && OthersStay(s, s', a)
      && (a in s'.heap <==> to != Gone) && (to != Gone ==> s'.heap[a] == t)
      && r in s'.peons && s'.peons[r].busy == s.peons[r].busy - {w}
      && (to != Gone ==> to.r in s'.peons && to.r in s.peons && s'.peons[to.r].wait == s.peons[to.r].wait + [a])
  {
    hide Inv, LayDown, Moved, Batches;
    StaticsServe(s);
    LaidDownPeon(s, r, w, what, a, to, t, r);
    LaidDown(s, r, w, what, a, to, t);
    if to != Gone {
      assert to.r in s.peons;
      WaitGrows(s.peons[to.r].wait, to, a, s.place[a]);
    }
    hide Relocated;
  }

  lemma WaitGrows(l: seq<Addr>, to: Place, a: Addr, from: Place)
    requires from != to
    ensures Moved(l, to, a, from, to) == l + [a]
  {
  }

  // ---------- What becomes of parked connects ----------

  /** The task at `a` is as it was, where it was. */
  ghost predicate Untouched(s: State, t: State, a: Addr) {
    && a in t.place && a in s.place && t.place[a] == s.place[a]
    && (a in t.heap <==> a in s.heap) && (a in s.heap && a in t.heap ==> t.heap[a] == s.heap[a])
  }

  /** The task at `a` waits to connect, afresh, under a number that was not out before. */
  ghost predicate Relived(s: State, t: State, a: Addr, now: int)
    requires a in s.heap
  {
    && a in t.place && t.place[a] == Wait(Conn) && a in t.heap && t.heap[a].sn > s.lastSn
    && t.heap[a] == s.heap[a].(tm := now, nextRun := 0, sn := t.heap[a].sn)
  }

  ghost predicate Fate(s: State, t: State, a: Addr, lost: set<Addr>, now: int) {
    a in s.heap &&
    if s.heap[a].state == Dead || !s.heap[a].rechecks then a !in t.heap && a in t.place && t.place[a] == Gone
    else if a in lost then Relived(s, t, a, now)
    else Untouched(s, t, a)
  }

  lemma VisitFate(s: State, a: Addr, lost: set<Addr>, now: int, x: Addr)
    requires a in s.heap && a in s.place && s.place[a] == Wait(Recheck) && x in s.place
    ensures var t := RecheckVisit(s, a, lost, now);
      && t.lastSn >= s.lastSn && (if x == a then Fate(s, t, a, lost, now) else Untouched(s, t, x))
  {
    hide Attach, Detach;
  }

  /** The tasks of `todo` have met their fate, and no other was touched. */
  ghost predicate Turned(s: State, t: State, todo: seq<Addr>, lost: set<Addr>, clock: Addr -> int, x: Addr) {
    t.lastSn >= s.lastSn && (if x in todo then Fate(s, t, x, lost, clock(x)) else Untouched(s, t, x))
  }

  lemma {:induction false} RecheckFates(s: State, todo: seq<Addr>, lost: set<Addr>, clock: Addr -> int,
                                        issued: Addr -> nat, x: Addr)
    requires Inv(s) && AllAt(s, todo, Wait(Recheck)) && x in s.place
    ensures Turned(s, RecheckAll(s, todo, lost, clock, issued), todo, lost, clock, x)
    decreases |todo|
  {
    hide Inv, AllAt, RecheckVisit, Meanwhile, Turned;
    if todo == [] {
      TurnedNone(s, lost, clock, x);
    } else {
      var m := Meanwhile(s, issued(todo[0]));
      RecheckTurnInv(s, todo, lost, clock(todo[0]), issued(todo[0]));
      var s1 := RecheckVisit(m, todo[0], lost, clock(todo[0]));
      VisitFate(m, todo[0], lost, clock(todo[0]), x);
      RecheckFates(s1, todo[1..], lost, clock, issued, x);
      TurnedMore(s, issued(todo[0]), s1, RecheckAll(s1, todo[1..], lost, clock, issued), todo, lost, clock, x);
    }
  }

  lemma TurnedNone(s: State, lost: set<Addr>, clock: Addr -> int, x: Addr)
    requires x in s.place
    ensures Turned(s, s, [], lost, clock, x)
  {
  }

  lemma TurnedMore(s: State, k: nat, u: State, t: State, todo: seq<Addr>, lost: set<Addr>, clock: Addr -> int, x: Addr)
    requires x in s.place && todo != [] && AllAt(s, todo, Wait(Recheck)) && Turned(u, t, todo[1..], lost, clock, x)
    requires var m := Meanwhile(s, k);
      u.lastSn >= m.lastSn && if x == todo[0] then Fate(m, u, x, lost, clock(x)) else Untouched(m, u, x)
    ensures Turned(s, t, todo, lost, clock, x)
  {
    FirstOnce(s, todo, Wait(Recheck));
    MeanwhileLast(s, k);
    var m := Meanwhile(s, k);
    hide AllAt, Meanwhile, Fate, Untouched;
    if x == todo[0] {
      FateThen(s, m, u, t, x, lost, clock(x));
    } else if x in todo[1..] {
      ThenFate(s, m, u, t, x, lost, clock(x));
    } else {
      UntouchedTrans(s, m, u, t, x);
    }
  }

  lemma MeanwhileLast(s: State, k: nat)
    ensures var m := Meanwhile(s, k); m == s.(lastSn := m.lastSn, pending := m.pending) && m.lastSn >= s.lastSn
  {
  }

  lemma FateThen(s: State, m: State, u: State, t: State, x: Addr, lost: set<Addr>, now: int)
    requires m == s.(lastSn := m.lastSn, pending := m.pending) && s.lastSn <= m.lastSn
    requires Fate(m, u, x, lost, now) && Untouched(u, t, x) && x in s.place
    ensures Fate(s, t, x, lost, now)
  {
  }

  lemma ThenFate(s: State, m: State, u: State, t: State, x: Addr, lost: set<Addr>, now: int)
    requires m == s.(lastSn := m.lastSn, pending := m.pending) && s.lastSn <= m.lastSn <= u.lastSn
    requires Untouched(m, u, x) && Fate(u, t, x, lost, now)
    ensures Fate(s, t, x, lost, now)
  {
  }

  lemma UntouchedTrans(s: State, m: State, u: State, t: State, x: Addr)
    requires m == s.(lastSn := m.lastSn, pending := m.pending) && Untouched(m, u, x) && Untouched(u, t, x)
    ensures Untouched(s, t, x)
  {
  }

  lemma FirstOnce(s: State, todo: seq<Addr>, p: Place)
    requires AllAt(s, todo, p) && todo != []
    ensures todo[0] !in todo[1..] && forall x :: x in todo <==> x == todo[0] || x in todo[1..]
  {
  }

  /**
  Of the parked connects a recheck frees those that are dead or need no recheck, puts those whose
  device is lost back to connecting, under new numbers, and leaves the others as they are.
  */
  lemma Rechecked(s: State, lost: set<Addr>, clock: Addr -> int, issued: Addr -> nat, a: Addr)
    requires Reachable(s) && HasStatics(s) && a in s.place && s.place[a] == Wait(Recheck)
    ensures var t := Next(s, RecheckPass(lost, clock, issued));
      && a in s.heap && a in t.place
      && (t.place[a] == Gone <==> s.heap[a].state == Dead || !s.heap[a].rechecks)
      && (t.place[a] != Gone ==>
            && (Relived(s, t, a, clock(a)) <==> a in lost)
            && (Untouched(s, t, a) <==> a !in lost))
  {
    hide Reachable, Inv, RecheckAll, AllAt;
    ReachableInv(s);
    NeverRechecked(s);
    WaitAllAt(s, Recheck);
    ParkedListed(s, a);
    RecheckFates(s, s.peons[Recheck].wait, lost, clock, issued, a);
  }

  lemma ParkedListed(s: State, a: Addr)
    requires Inv(s) && Recheck in s.peons && a in s.place && s.place[a] == Wait(Recheck)
    ensures a in s.peons[Recheck].wait
  {
    hide Honest, Staffed, Counted, DynCounted, Housed, Patient;
    assert Holds(s.peons[Recheck].wait, s.place, Wait(Recheck));
  }

  /** Nothing else is touched by a recheck. */
  lemma RecheckedOthers(s: State, lost: set<Addr>, clock: Addr -> int, issued: Addr -> nat, x: Addr)
    requires Reachable(s) && HasStatics(s) && x in s.place && s.place[x] != Wait(Recheck)
    ensures Untouched(s, Next(s, RecheckPass(lost, clock, issued)), x)
  {
    hide Reachable, Inv, RecheckAll, Untouched;
    ReachableInv(s);
    WaitAllAt(s, Recheck);
    RecheckFates(s, s.peons[Recheck].wait, lost, clock, issued, x);
  }

  // ---------- Where a new task goes ----------

  /** A new task waits at the end of the list of `q`, and nothing else has changed but its counts. */
  ghost predicate Joined(s: State, t: State, q: PeonId, a: Addr, task: Task) {
    && t.heap == s.heap[a := task] && t.place == s.place[a := Wait(q)] && t.log == s.log && t.lastSn == s.lastSn
    && q in t.peons && t.peons[q].wait == (if q in s.peons then s.peons[q].wait else []) + [a]
    && t.peons[q].proc == (if q in s.peons then s.peons[q].proc else [])
    && t.peons[q].count == (if q in s.peons then s.peons[q].count else 0) + 1
    && forall p :: p != q ==>
         (p in t.peons <==> p in s.peons) && (p in s.peons && p in t.peons ==> t.peons[p] == s.peons[p])
  }

  /** A disconnect gets a peon of its own, if one can be made, when sixteen are counted and the limit is not passed. */
  ghost predicate Diverted(s: State, spawned: bool)
    requires HasStatics(s)
  {
    s.peons[Disc].count >= 16 && s.dynNum <= 512 && spawned
  }

  /** A task goes to the end of the wait list it was meant for, unless it is diverted. */
  lemma Inserted(s: State, r: PeonId, sn: nat, a: Addr, param: Param, rechecks: bool, now: int, spawned: bool,
                 d: nat, restrain: nat)
    requires HasStatics(s) && Enabled(s, Insert(r, sn, a, param, rechecks, now, spawned, d, restrain))
    ensures var t := Next(s, Insert(r, sn, a, param, rechecks, now, spawned, d, restrain));
      var q := if r == Disc && Diverted(s, spawned) then Dyn(d) else r;
      && Joined(s, t, q, a, Task(sn, Live, now, 0, param, rechecks))
      && t.dynNum == s.dynNum + (if q.Dyn? then 1 else 0)
      && t.pending == s.pending - {sn} && t.inherited == s.inherited
  {
    AddJoins(s.(pending := s.pending - {sn}), r, a, Task(sn, Live, now, 0, param, rechecks), spawned, d, restrain);
    hide AddTask;
  }

  lemma InheritedJoins(s: State, sn: nat, a: Addr, param: Param, rechecks: bool, now: int, spawned: bool,
                       d: nat, restrain: nat)
    requires HasStatics(s) && Enabled(s, Inherit(sn, a, param, rechecks, now, spawned, d, restrain))
    ensures var t := Next(s, Inherit(sn, a, param, rechecks, now, spawned, d, restrain));
      var q := if Diverted(s, spawned) then Dyn(d) else Disc;
      && Joined(s, t, q, a, Task(sn, Live, now, 0, param, rechecks))
      && t.dynNum == s.dynNum + (if q.Dyn? then 1 else 0)
      && t.pending == s.pending && t.inherited == s.inherited + {a}
  {
    AddJoins(s.(inherited := s.inherited + {a}), Disc, a, Task(sn, Live, now, 0, param, rechecks), spawned, d,
             restrain);
    hide AddTask;
  }

  lemma AddJoins(s: State, r: PeonId, a: Addr, task: Task, spawned: bool, d: nat, restrain: nat)
    requires r in s.peons && (r == Disc ==> Dyn(d) !in s.peons)
    ensures var t := AddTask(s, r, a, task, spawned, d, restrain);
      var diverted := r == Disc && s.peons[Disc].count >= 16 && s.dynNum <= 512 && spawned;
      && Joined(s, t, if diverted then Dyn(d) else r, a, task)
      && t.dynNum == s.dynNum + (if diverted then 1 else 0)
      && t.pending == s.pending && t.inherited == s.inherited
  {
  }

  // ---------- Restraint in one of the two phases ----------

  /** The static peons are there as before, with the same restrain times. */
  ghost predicate SameRestraint(s: State, t: State) {
    forall q: PeonId :: !q.Dyn? ==>
      (q in t.peons <==> q in s.peons) && (q in s.peons && q in t.peons ==> t.peons[q].restrain == s.peons[q].restrain)
  }

  lemma SameRestraintTrans(s: State, t: State, u: State)
    requires SameRestraint(s, t) && SameRestraint(t, u)
    ensures SameRestraint(s, u)
  {
  }

  lemma MoveRestraint(s: State, what: What, a: Addr, r: PeonId, to: Place, t: Task)
    requires a in s.heap && a in s.place && to != s.place[a]
    requires to != Proc(Recheck) && (to != Gone ==> to.r in s.peons)
    ensures SameRestraint(s, Move(Note(s, what, a, r), a, to, t))
  {
    hide Move, Moved, Batches;
    MoveRelocated(Note(s, what, a, r), a, to, t);
  }

  lemma VisitRestraint(s: State, r: PeonId, w: nat, a: Addr, now: int)
    requires Ready(s, r, w) && a in s.heap && a in s.place && s.place[a] == Wait(r)
    ensures SameRestraint(s, Visit(s, r, w, a, now).0)
  {
    hide Kill, Drop, Move, Defers, Discards, TimeOut, Batches, SetBusy;
    var k, t := KindOf(r), s.heap[a];
    var s1 := Kill(s, k, t);
    KillSpares(s, k, a);
    VisitFrame(s, r, w, a, now);
    if t.state == Live && !Defers(s, k, t) && !Discards(s, k, t) && TimeOut(t, s.peons[r].restrain, now) {
      var n := Move(Note(s1, Dispatch(now, s1.peons[r].restrain), a, r), a, Proc(r), t);
      MoveRestraint(s1, Dispatch(now, s1.peons[r].restrain), a, r, Proc(r), t);
      BusyRestraint(n, r, s1.peons[r].busy[w := a]);
      SameRestraintTrans(s1, n, SetBusy(n, r, s1.peons[r].busy[w := a]));
    }
  }

  lemma BusyRestraint(s: State, r: PeonId, busy: map<nat, Addr>)
    ensures SameRestraint(s, SetBusy(s, r, busy))
  {
  }

  lemma {:induction false} PassRestraint(s: State, r: PeonId, w: nat, todo: seq<Addr>, clock: Addr -> int)
    requires Inv(s) && Ready(s, r, w) && AllAt(s, todo, Wait(r))
    ensures SameRestraint(s, Pass(s, r, w, todo, clock).0)
    decreases |todo|
  {
    assert SameRestraint(s, s);
    hide Inv, Visit, AllAt, SameRestraint;
    if todo != [] {
      AllAtFirst(s, todo, Wait(r));
      VisitInv(s, r, w, todo[0], clock(todo[0]));
      VisitFrame(s, r, w, todo[0], clock(todo[0]));
      VisitRestraint(s, r, w, todo[0], clock(todo[0]));
      var (s1, v) := Visit(s, r, w, todo[0], clock(todo[0]));
      if v != Chosen {
        AllAtRest(s, s1, todo, Wait(r), Gone);
        ReadyStays(s, s1, r, w);
        PassRestraint(s1, r, w, todo[1..], clock);
        SameRestraintTrans(s, s1, Pass(s1, r, w, todo[1..], clock).0);
      }
    }
  }

  lemma RecheckRestraint(s: State, k: nat, a: Addr, lost: set<Addr>, now: int)
    requires Conn in s.peons && a in s.heap && a in s.place && s.place[a] == Wait(Recheck)
    ensures SameRestraint(s, RecheckVisit(Meanwhile(s, k), a, lost, now))
  {
    hide Move, Batches;
    var m := Meanwhile(s, k);
    var n := Note(m, Relive, a, Recheck).(lastSn := m.lastSn + 1);
    var t := m.heap[a].(tm := now, nextRun := 0, sn := m.lastSn + 1, state := Live);
    MoveRestraint(m, Free, a, Recheck, Gone, m.heap[a]);
    MoveRelocated(n, a, Wait(Conn), t);
  }

  lemma {:induction false} RecheckAllRestraint(s: State, todo: seq<Addr>, lost: set<Addr>, clock: Addr -> int,
                                               issued: Addr -> nat)
    requires Inv(s) && AllAt(s, todo, Wait(Recheck))
    ensures SameRestraint(s, RecheckAll(s, todo, lost, clock, issued))
    decreases |todo|
  {
    assert SameRestraint(s, s);
    hide Inv, AllAt, RecheckVisit, Meanwhile, SameRestraint;
    if todo != [] {
      StaticsServe(s);
      AllAtFirst(s, todo, Wait(Recheck));
      RecheckTurnInv(s, todo, lost, clock(todo[0]), issued(todo[0]));
      RecheckRestraint(s, issued(todo[0]), todo[0], lost, clock(todo[0]));
      var s1 := RecheckVisit(Meanwhile(s, issued(todo[0])), todo[0], lost, clock(todo[0]));
      RecheckAllRestraint(s1, todo[1..], lost, clock, issued);
      SameRestraintTrans(s, s1, RecheckAll(s1, todo[1..], lost, clock, issued));
    }
  }

  lemma {:induction false} CloseRestraint(s: State, r: PeonId, todo: seq<Addr>)
    requires Inv(s) && r in s.peons && r.Dyn? && s.peons[r].wait == todo && AllAt(s, todo, Wait(r))
    ensures SameRestraint(s, CloseAll(s, r, todo))
    decreases |todo|
  {
    assert SameRestraint(s, s);
    hide Inv, AllAt, Move, Note, SameRestraint;
    if todo != [] {
      AllAtFirst(s, todo, Wait(r));
      CloseOneInv(s, r, todo[0]);
      CloseOneFrame(s, r, todo);
      MoveRestraint(s, Free, todo[0], r, Gone, s.heap[todo[0]]);
      var s1 := Move(Note(s, Free, todo[0], r), todo[0], Gone, s.heap[todo[0]]);
      AllAtRest(s, s1, todo, Wait(r), Gone);
      CloseRestraint(s1, r, todo[1..]);
      SameRestraintTrans(s, s1, CloseAll(s1, r, todo[1..]));
    }
  }

  lemma CompleteRestraint(s: State, r: PeonId, w: nat, failed: bool, now: int)
    requires Inv(s) && r in s.peons && r != Recheck && w in s.peons[r].busy
    ensures SameRestraint(s, CompleteTask(s, r, w, failed, now))
  {
    hide Inv, Move, Tick, SetBusy, SetStage, Batches;
    HandlingBusy(s, r, w);
    StaticsServe(s);
    var a := s.peons[r].busy[w];
    var t := s.heap[a];
    if t.state == Live && failed {
      LayDownRestraint(s, r, w, Retry(now), a, Wait(r), t.(nextRun := now + RETRY_INTERVAL));
    } else if t.state == Live && r == Conn {
      LayDownRestraint(s, r, w, Settle, a, Wait(Recheck), t.(sn := 0));
    } else {
      LayDownRestraint(s, r, w, Free, a, Gone, t);
    }
    StageRestraint(s, FinishTask(s, r, w, failed, now), r, Closing);
  }

  lemma StageRestraint(s: State, t: State, r: PeonId, stage: Stage)
    requires SameRestraint(s, t)
    ensures SameRestraint(s, SetStage(t, r, stage))
  {
  }

  lemma LayDownRestraint(s: State, r: PeonId, w: nat, what: What, a: Addr, to: Place, t: Task)
    requires Handling(s, r, w, a) && to != s.place[a] && to != Proc(Recheck) && (to != Gone ==> to.r in s.peons)
    ensures SameRestraint(s, LayDown(s, r, w, what, a, to, t))
  {
    hide Move, Tick, SetBusy, Batches;
    var m := Move(Note(s, what, a, r), a, to, t);
    MoveRestraint(s, what, a, r, to, t);
    MoveRelocated(Note(s, what, a, r), a, to, t);
    Idled(m, r, s.peons[r].busy - {w});
  }

  lemma AddRestraint(s: State, r: PeonId, a: Addr, task: Task, spawned: bool, d: nat, restrain: nat)
    requires r in s.peons
    ensures SameRestraint(s, AddTask(s, r, a, task, spawned, d, restrain))
  {
  }

  /** No step but the one for it changes a restrain time. */
  lemma NextRestraint(s: State, e: Step)
    requires Inv(s) && HasStatics(s) && Enabled(s, e) && !e.SetRestrain?
    ensures SameRestraint(s, Next(s, e))
  {
    hide Inv, Pass, CompleteTask, RecheckAll, CloseAll, AddTask, AllAt, SetStage;
    match e {
      case Insert(r, sn, a, param, rechecks, now, spawned, d, restrain) =>
        AddRestraint(s.(pending := s.pending - {sn}), r, a, Task(sn, Live, now, 0, param, rechecks), spawned, d,
                     restrain);
      case Inherit(sn, a, param, rechecks, now, spawned, d, restrain) =>
        AddRestraint(s.(inherited := s.inherited + {a}), Disc, a, Task(sn, Live, now, 0, param, rechecks), spawned, d,
                     restrain);
      case Get(r, w, clock) =>
        WaitAllAt(s, r);
        PassRestraint(s, r, w, s.peons[r].wait, clock);
        var (u, found) := Pass(s, r, w, s.peons[r].wait, clock);
        StageRestraint(s, u, r, if found then Serving else Closing);
      case Complete(r, w, failed, now) => CompleteRestraint(s, r, w, failed, now);
      case RecheckPass(lost, clock, issued) =>
        WaitAllAt(s, Recheck);
        RecheckAllRestraint(s, s.peons[Recheck].wait, lost, clock, issued);
      case Close(d) =>
        WaitAllAt(s, Dyn(d));
        CloseRestraint(s, Dyn(d), s.peons[Dyn(d)].wait);
        StageRestraint(s, CloseAll(s, Dyn(d), s.peons[Dyn(d)].wait), Dyn(d), Closed);
      case _ =>
    }
  }

  /** Connects are restrained, by three seconds, if and only if disconnects are not; batches never are. */
  ghost predicate OneRestrained(s: State) {
    && HasStatics(s) && s.peons[Dcb].restrain == 0
    && s.peons[Conn].restrain == if s.peons[Disc].restrain == 0 then 3 else 0
  }

  lemma {:induction false} RunRestrained(s: State, steps: seq<Step>, t: State)
    requires Inv(s) && OneRestrained(s) && Run(s, steps, t)
    ensures OneRestrained(t)
    decreases |steps|
  {
    if steps != [] {
      var n := Next(s, steps[0]);
      NextInv(s, steps[0]);
      assert OneRestrained(n) by {
        StepRestrained(s, steps[0]);
      }
      hide Inv, Next, Enabled, OneRestrained;
      RunRestrained(n, steps[1..], t);
    }
  }

  lemma StepRestrained(s: State, e: Step)
    requires Inv(s) && OneRestrained(s) && Enabled(s, e)
    ensures OneRestrained(Next(s, e))
  {
    hide Inv, GetTask, CompleteTask, RecheckAll, CloseAll, AddTask;
    if !e.SetRestrain? {
      NextRestraint(s, e);
      hide Next;
    }
  }

  /** In every reachable state one of the two phases is restrained, never both. */
  lemma Restrained(s: State)
    requires Reachable(s)
    ensures OneRestrained(s)
  {
    hide Inv, Run;
    var restrain: nat, steps: seq<Step> :| Run(Init(restrain), steps, s);
    InitInv(restrain);
    RunRestrained(Init(restrain), steps, s);
  }

  // ---------- What a pass leaves undone ----------

  /** The time of a task has not come: it failed too recently, or it arrived within the restrain time. */
  predicate NotDue(t: Task, restrain: nat, now: int) {
    now < t.nextRun || (restrain > 0 && t.tm <= now < t.tm + restrain)
  }

  lemma TimeMeans(t: Task, restrain: nat, now: int)
    ensures TimeOut(t, restrain, now) <==> !NotDue(t, restrain, now)
  {
  }

  /** The live task at `a` waits with the peon `r`, and nothing live that is newer concerns it. */
  ghost predicate Unsurpassed(s: State, r: PeonId, a: Addr) {
    && r in s.peons && r != Recheck && a in s.heap && a in s.place && s.place[a] == Wait(r)
    && s.heap[a].state == Live && !Discards(s, KindOf(r), s.heap[a])
  }

  /** A newer task of the same list whose judgement would kill it concerns it as well. */
  lemma RivalBack(s: State, r: PeonId, a: Addr, b: Addr)
    requires r != Recheck && a in s.heap && b in s.heap && a in s.place && b in s.place
    requires s.place[a] == Wait(r) && s.place[b] == Wait(r) && s.heap[b].state == Live
    ensures Rival(s, KindOf(r), s.heap[b], a) && s.heap[a].sn < s.heap[b].sn ==> Discards(s, KindOf(r), s.heap[a])
  {
    assert Rival(s, KindOf(r), s.heap[b], a) ==> Rival(s, KindOf(r), s.heap[a], b);
  }

  /** The judgement of another waiting task does not kill it. */
  lemma KillSparesNewest(s: State, r: PeonId, a: Addr, b: Addr)
    requires Unsurpassed(s, r, a) && b in s.heap && b in s.place && s.place[b] == Wait(r) && s.heap[b].state == Live
    ensures Unsurpassed(Kill(s, KindOf(r), s.heap[b]), r, a)
    ensures Kill(s, KindOf(r), s.heap[b]).heap[a] == s.heap[a]
  {
    var k := KindOf(r);
    var s1 := Kill(s, k, s.heap[b]);
    RivalBack(s, r, a, b);
    assert s1.heap[a] == s.heap[a];
    hide Match;
    assert forall x :: Rival(s1, k, s.heap[a], x) ==> Rival(s, k, s.heap[a], x) && s1.heap[x].sn == s.heap[x].sn;
  }

  /** Nor does it fall behind because others go. */
  lemma StillUnsurpassed(s: State, t: State, r: PeonId, a: Addr)
    requires Unsurpassed(s, r, a) && r in t.peons && a in t.heap && t.heap[a] == s.heap[a]
    requires a in t.place && t.place[a] == Wait(r)
    requires forall x :: x in t.heap ==> x in s.heap && t.heap[x] == s.heap[x]
    requires forall x :: x in t.heap && x in t.place && t.place[x] != Gone ==> x in s.place && t.place[x] == s.place[x]
    ensures Unsurpassed(t, r, a)
  {
    hide Match;
    assert forall x :: Rival(t, KindOf(r), s.heap[a], x) ==> Rival(s, KindOf(r), s.heap[a], x);
  }

  /** One turn of the loop, on another task. */
  lemma VisitOther(s: State, r: PeonId, w: nat, b: Addr, now: int, a: Addr)
    requires Ready(s, r, w) && Unsurpassed(s, r, a) && a != b && b in s.heap && b in s.place && s.place[b] == Wait(r)
    ensures var (t, v) := Visit(s, r, w, b, now);
      && a in t.heap && t.heap[a] == s.heap[a] && a in t.place && t.place[a] == Wait(r) && s.deferred <= t.deferred
      && (v != Chosen ==> Unsurpassed(t, r, a))
  {
    hide Kill, Drop, Start, Defers, Discards, TimeOut, Blockers, Unsurpassed;
    var k, task := KindOf(r), s.heap[b];
    var s1 := Kill(s, k, task);
    UnsurpassedHere(s, r, a);
    VisitFrame(s, r, w, b, now);
    KillSpares(s, k, b);
    if task.state == Dead {
      DropShape(s, r, b);
      StillUnsurpassed(s, Drop(s, r, b), r, a);
    } else {
      KillSparesNewest(s, r, a, b);
      DropShape(s1, r, b);
      StartShape(s1, r, w, b, now);
      if Defers(s, k, task) {
        StillUnsurpassed(s1, PutOff(s1, r, b, Blockers(s, k, task)), r, a);
      } else if Discards(s, k, task) {
        StillUnsurpassed(s1, Drop(s1, r, b), r, a);
      }
    }
  }

  lemma UnsurpassedHere(s: State, r: PeonId, a: Addr)
    ensures Unsurpassed(s, r, a) ==>
              r in s.peons && a in s.heap && a in s.place && s.place[a] == Wait(r) && s.heap[a].state == Live
  {
  }

  /** Nothing live that concerns the task is older. */
  ghost predicate NoneOlder(s: State, r: PeonId, task: Task)
    requires r != Recheck
  {
    forall x :: Rival(s, KindOf(r), task, x) ==> s.heap[x].sn >= task.sn
  }

  lemma KillNoneOlder(s: State, r: PeonId, a: Addr)
    requires r != Recheck && a in s.heap
    ensures NoneOlder(Kill(s, KindOf(r), s.heap[a]), r, s.heap[a])
  {
    hide Match;
    var s1 := Kill(s, KindOf(r), s.heap[a]);
    assert forall x :: Rival(s1, KindOf(r), s.heap[a], x) ==>
                         Rival(s, KindOf(r), s.heap[a], x) && s1.heap[x] == s.heap[x];
  }

  /** From `s` to `t` tasks die, go, or start where they waited; none comes. */
  ghost predicate Thins(s: State, t: State) {
    && (forall x :: x in t.heap ==> x in s.heap && (t.heap[x] == s.heap[x] || t.heap[x] == s.heap[x].(state := Dead)))
    && (forall x :: x in t.place && t.place[x] != Gone ==>
          x in s.place && s.place[x] != Gone && s.place[x].r == t.place[x].r)
  }

  lemma ThinsTrans(s: State, t: State, u: State)
    requires Thins(s, t) && Thins(t, u)
    ensures Thins(s, u)
  {
  }

  lemma StillNoneOlder(s: State, t: State, r: PeonId, task: Task)
    requires r != Recheck && NoneOlder(s, r, task) && Thins(s, t)
    ensures NoneOlder(t, r, task)
  {
    hide Match;
    assert forall x :: Rival(t, KindOf(r), task, x) ==> Rival(s, KindOf(r), task, x) && t.heap[x].sn == s.heap[x].sn;
  }

  lemma VisitThins(s: State, r: PeonId, w: nat, a: Addr, now: int)
    requires r in s.peons && r != Recheck && a in s.heap && a in s.place && s.place[a] == Wait(r)
    ensures Thins(s, Visit(s, r, w, a, now).0)
  {
    hide Kill, Drop, Start, Defers, Discards, TimeOut, Blockers;
    var k, task := KindOf(r), s.heap[a];
    KillSpares(s, k, a);
    KillThins(s, k, task);
    DropShape(s, r, a);
    DropShape(Kill(s, k, task), r, a);
    StartShape(Kill(s, k, task), r, w, a, now);
  }

  lemma KillThins(s: State, k: Kind, t: Task)
    ensures Thins(s, Kill(s, k, t))
  {
    hide Rival;
  }

  lemma {:induction false} PassThins(s: State, r: PeonId, w: nat, todo: seq<Addr>, clock: Addr -> int)
    requires Inv(s) && Ready(s, r, w) && AllAt(s, todo, Wait(r))
    ensures Thins(s, Pass(s, r, w, todo, clock).0)
    decreases |todo|
  {
    assert Thins(s, s);
    hide Inv, Visit, AllAt, Thins;
    if todo != [] {
      AllAtFirst(s, todo, Wait(r));
      VisitInv(s, r, w, todo[0], clock(todo[0]));
      VisitFrame(s, r, w, todo[0], clock(todo[0]));
      VisitThins(s, r, w, todo[0], clock(todo[0]));
      var (s1, v) := Visit(s, r, w, todo[0], clock(todo[0]));
      if v != Chosen {
        AllAtRest(s, s1, todo, Wait(r), Gone);
        ReadyStays(s, s1, r, w);
        PassThins(s1, r, w, todo[1..], clock);
        ThinsTrans(s, s1, Pass(s1, r, w, todo[1..], clock).0);
      }
    }
  }

  /** Its own turn: it is handed out, or put off, or its time has not come. */
  lemma VisitOwn(s: State, r: PeonId, w: nat, a: Addr, now: int)
    requires Ready(s, r, w) && Unsurpassed(s, r, a)
    ensures var (t, v) := Visit(s, r, w, a, now);
      && a in t.heap && t.heap[a] == s.heap[a] && a in t.place
      && t.place[a] == (if v == Chosen then Proc(r) else Wait(r)) && s.deferred <= t.deferred
      && (v != Chosen ==>
            && Unsurpassed(t, r, a) && NoneOlder(t, r, s.heap[a])
            && (NotDue(s.heap[a], s.peons[r].restrain, now)
                || (|t.deferred| > |s.deferred| && t.deferred[|s.deferred|].a == a)))
  {
    hide Kill, Drop, Start, Defers, Discards, TimeOut, Blockers;
    var k, task := KindOf(r), s.heap[a];
    var s1 := Kill(s, k, task);
    VisitFrame(s, r, w, a, now);
    KillSpares(s, k, a);
    KillSparesNewest(s, r, a, a);
    StartShape(s1, r, w, a, now);
    TimeMeans(task, s.peons[r].restrain, now);
    KillNoneOlder(s, r, a);
    if Defers(s, k, task) {
      StillUnsurpassed(s1, PutOff(s1, r, a, Blockers(s, k, task)), r, a);
      StillNoneOlder(s1, PutOff(s1, r, a, Blockers(s, k, task)), r, task);
    }
  }

  /**
  Why a pass did not hand out the task at `a`: its time had not come, or it was put off in that
  pass. In either case nothing live and older that concerns it is left.
  */
  ghost predicate Excused(s: State, t: State, r: PeonId, now: int, a: Addr)
    requires r in s.peons && r != Recheck && a in s.heap
  {
    && NoneOlder(t, r, s.heap[a])
    && (|| NotDue(s.heap[a], s.peons[r].restrain, now)
        || exists i :: |s.deferred| <= i < |t.deferred| && t.deferred[i].a == a)
  }

  /**
  What a pass does to a waiting task that nothing newer concerns: it is handed out, or else excused
  if the pass hands out nothing, or one that comes later in the list.
  */
  ghost predicate Spared(s: State, t: State, found: bool, r: PeonId, todo: seq<Addr>, clock: Addr -> int, a: Addr) {
    && r in s.peons && r != Recheck && a in s.heap && a in t.heap && t.heap[a] == s.heap[a] && a in t.place
    && (t.place[a] == Wait(r) || (found && t.place[a] == Proc(r))) && s.deferred <= t.deferred
    && (!found && a in todo ==> Excused(s, t, r, clock(a), a))
    && (forall i, j :: 0 <= i < j < |todo| && todo[i] == a && todo[j] in t.place && t.place[todo[j]] == Proc(r) ==>
          Excused(s, t, r, clock(a), a))
  }

  lemma {:induction false} PassSpares(s: State, r: PeonId, w: nat, todo: seq<Addr>, clock: Addr -> int, a: Addr)
    requires Inv(s) && Ready(s, r, w) && AllAt(s, todo, Wait(r)) && Unsurpassed(s, r, a)
    ensures var (t, found) := Pass(s, r, w, todo, clock); Spared(s, t, found, r, todo, clock, a)
    decreases |todo|
  {
    hide Inv, Visit, AllAt, Spared, Unsurpassed, NoneOlder, Thins;
    UnsurpassedHere(s, r, a);
    if todo == [] {
      SparedNone(s, r, clock, a);
    } else {
      AllAtFirst(s, todo, Wait(r));
      VisitInv(s, r, w, todo[0], clock(todo[0]));
      VisitFrame(s, r, w, todo[0], clock(todo[0]));
      if todo[0] == a {
        VisitOwn(s, r, w, a, clock(a));
      } else {
        VisitOther(s, r, w, todo[0], clock(todo[0]), a);
      }
      var (s1, v) := Visit(s, r, w, todo[0], clock(todo[0]));
      if v == Chosen {
        OthersWait(s, s1, todo, r);
        SparedFound(s, s1, r, todo, clock, a);
      } else {
        AllAtRest(s, s1, todo, Wait(r), Gone);
        ReadyStays(s, s1, r, w);
        PassSpares(s1, r, w, todo[1..], clock, a);
        var (t, found) := Pass(s1, r, w, todo[1..], clock);
        PassThins(s1, r, w, todo[1..], clock);
        if todo[0] == a {
          StillNoneOlder(s1, t, r, s.heap[a]);
        }
        SparedMore(s, s1, t, found, r, todo, clock, a);
      }
    }
  }

  lemma OthersWait(s: State, t: State, todo: seq<Addr>, r: PeonId)
    requires AllAt(s, todo, Wait(r)) && todo != [] && t.place == s.place[todo[0] := Proc(r)]
    ensures forall j :: 0 < j < |todo| && todo[j] in t.place ==> t.place[todo[j]] == Wait(r)
  {
  }

  lemma SparedNone(s: State, r: PeonId, clock: Addr -> int, a: Addr)
    requires r in s.peons && r != Recheck && a in s.heap && a in s.place && s.place[a] == Wait(r)
    ensures Spared(s, s, false, r, [], clock, a)
  {
  }

  lemma SparedFound(s: State, t: State, r: PeonId, todo: seq<Addr>, clock: Addr -> int, a: Addr)
    requires r in s.peons && r != Recheck && a in s.heap && a in t.heap && t.heap[a] == s.heap[a] && a in t.place
    requires t.place[a] == Wait(r) || t.place[a] == Proc(r)
    requires s.deferred <= t.deferred
    requires forall j :: 0 < j < |todo| && todo[j] in t.place ==> t.place[todo[j]] == Wait(r)
    ensures Spared(s, t, true, r, todo, clock, a)
  {
    hide Excused;
  }

  /** An excuse from the rest of the pass, or from the turn just taken, is one for the whole. */
  lemma ExcusedMore(s: State, m: State, t: State, r: PeonId, now: int, a: Addr)
    requires r in s.peons && r != Recheck && a in s.heap && a in m.heap && m.heap[a] == s.heap[a]
    requires r in m.peons && m.peons[r].restrain == s.peons[r].restrain && s.deferred <= m.deferred <= t.deferred
    requires || Excused(m, t, r, now, a)
             || (&& NoneOlder(t, r, s.heap[a])
                 && (|| NotDue(s.heap[a], s.peons[r].restrain, now)
                     || (|m.deferred| > |s.deferred| && m.deferred[|s.deferred|].a == a)))
    ensures Excused(s, t, r, now, a)
  {
    hide NotDue, NoneOlder;
    if |m.deferred| > |s.deferred| {
      assert t.deferred[|s.deferred|] == m.deferred[|s.deferred|];
    }
  }

  lemma SparedMore(s: State, m: State, t: State, found: bool, r: PeonId, todo: seq<Addr>, clock: Addr -> int, a: Addr)
    requires todo != [] && r in s.peons && r != Recheck && a in s.heap && Spared(m, t, found, r, todo[1..], clock, a)
    requires a in m.heap && m.heap[a] == s.heap[a] && r in m.peons && m.peons[r].restrain == s.peons[r].restrain
    requires s.deferred <= m.deferred
    requires todo[0] == a ==>
               && NoneOlder(t, r, s.heap[a])
               && (|| NotDue(s.heap[a], s.peons[r].restrain, clock(a))
                   || (|m.deferred| > |s.deferred| && m.deferred[|s.deferred|].a == a))
    ensures Spared(s, t, found, r, todo, clock, a)
  {
    hide NotDue, Excused, NoneOlder;
    if todo[0] == a || Excused(m, t, r, clock(a), a) {
      ExcusedMore(s, m, t, r, clock(a), a);
    }
    forall i, j | 0 <= i < j < |todo| && todo[i] == a && todo[j] in t.place && t.place[todo[j]] == Proc(r)
      ensures Excused(s, t, r, clock(a), a)
    {
      if i > 0 {
        assert todo[1..][i - 1] == a && todo[1..][j - 1] == todo[j];
      }
    }
    assert a in todo ==> a == todo[0] || a in todo[1..];
  }

  /**
  The task at `a` was not lost; and if worker `w` took nothing up, or a task that comes later in
  the list, it failed or arrived too recently or was put off in this pass, and what it concerns
  and is older is dead.
  */
  ghost predicate Heeded(s: State, t: State, r: PeonId, w: nat, now: int, a: Addr)
    requires a in s.heap && r in s.peons
  {
    && a in t.heap && t.heap[a] == s.heap[a] && a in t.place && r in t.peons
    && (t.place[a] == Wait(r) || (w in t.peons[r].busy && t.place[a] == Proc(r)))
    && (w !in t.peons[r].busy || Precedes(s.peons[r].wait, a, t.peons[r].busy[w]) ==>
          && (|| now < s.heap[a].nextRun
              || (s.peons[r].restrain > 0 && s.heap[a].tm <= now < s.heap[a].tm + s.peons[r].restrain)
              || exists i :: |s.deferred| <= i < |t.deferred| && t.deferred[i].a == a)
          && forall x :: x in t.heap && x in t.place && t.heap[x].state == Live && t.heap[x].sn < s.heap[a].sn ==>
               !Concerns(r, t.place[x], s.heap[a].param, t.heap[x].param))
  }

  ghost predicate Precedes(l: seq<Addr>, a: Addr, b: Addr) {
    exists i, j :: 0 <= i < j < |l| && l[i] == a && l[j] == b
  }

  /**
  A live task that waits, and that nothing live and newer concerns, is not lost in a pass, and not
  passed over without a reason, neither when the pass hands nothing out nor for one behind it.
  */
  lemma PassedOver(s: State, r: PeonId, w: nat, clock: Addr -> int, a: Addr)
    requires Reachable(s) && HasStatics(s) && Enabled(s, Get(r, w, clock))
    requires a in s.heap && a in s.place && s.place[a] == Wait(r) && s.heap[a].state == Live
    requires forall x :: x in s.heap && x in s.place && s.heap[x].state == Live && s.heap[x].sn > s.heap[a].sn ==>
               !Concerns(r, s.place[x], s.heap[a].param, s.heap[x].param)
    ensures Heeded(s, Next(s, Get(r, w, clock)), r, w, clock(a), a)
  {
    hide Reachable, Inv, Pass, AllAt, Concerns, Discards, HandedOut, NoneOlder;
    ReachableInv(s);
    JudgementFlags(s, r, a);
    WaitAllAt(s, r);
    WaitPlace(s, r);
    var todo := s.peons[r].wait;
    PassSpares(s, r, w, todo, clock, a);
    PassInv(s, r, w, todo, clock);
    var (u, found) := Pass(s, r, w, todo, clock);
    if found {
      PassHandsOut(s, r, w, todo, clock);
      HandedBusy(u, r, w, clock, s.peons[r].restrain);
    }
    assert a in todo;
    StageLists(u, r, if found then Serving else Closing);
    if NoneOlder(u, r, s.heap[a]) {
      NoneOlderMeans(u, r, s.heap[a]);
    }
  }

  lemma NoneOlderMeans(s: State, r: PeonId, task: Task)
    requires Inv(s) && r != Recheck && NoneOlder(s, r, task)
    ensures forall x :: x in s.heap && x in s.place && s.heap[x].state == Live && s.heap[x].sn < task.sn ==>
              !Concerns(r, s.place[x], task.param, s.heap[x].param)
  {
    hide Inv, Concerns, Rival;
    NeverRechecked(s);
    forall x | x in s.heap && x in s.place && s.heap[x].state == Live && s.heap[x].sn < task.sn
      ensures !Concerns(r, s.place[x], task.param, s.heap[x].param)
    {
      RivalMeans(s, r, task, x);
    }
  }

  lemma HandedBusy(s: State, r: PeonId, w: nat, clock: Addr -> int, restrain: nat)
    requires HandedOut(s, r, w, clock, restrain)
    ensures r in s.peons && w in s.peons[r].busy
    ensures s.peons[r].busy[w] in s.place && s.place[s.peons[r].busy[w]] == Proc(r)
  {
  }
}

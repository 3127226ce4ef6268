/** What every step of the peon scheduler keeps. */
module PeonInvariants {
  import opened PeonModel
  import opened Collections

  /** The list holds, once each, exactly the tasks whose place is `p`. */
  ghost predicate Holds(l: seq<Addr>, place: map<Addr, Place>, p: Place) {
    NoDup(l) && forall a :: a in l <==> a in place && place[a] == p
  }

  /** Every list holds exactly the tasks whose place it is. */
  ghost predicate Listed(s: State) {
    forall r :: r in s.peons ==>
      Holds(s.peons[r].wait, s.place, Wait(r)) && Holds(s.peons[r].proc, s.place, Proc(r))
  }

  /** A task accepted and not freed is in the heap, and its place is a list there is. */
  ghost predicate Housed(s: State) {
    && (forall a :: a in s.place && s.place[a] != Gone ==> s.place[a].r in s.peons)
    && (forall a :: a in s.place ==> s.place[a] != Proc(Recheck))
    && (forall a :: a in s.heap <==> a in s.place && s.place[a] != Gone)
  }

  ghost predicate Placed(s: State) {
    HasStatics(s) && Listed(s) && Housed(s)
  }

  /** Busy workers and tasks being handled correspond one to one. */
  ghost predicate StaffedPeon(p: Peon, r: PeonId) {
    && (forall w :: w in p.busy ==> w < WorkerNum(r) && p.busy[w] in p.proc)
    && (forall w, v :: w in p.busy && v in p.busy && w != v ==> p.busy[w] != p.busy[v])
    && (forall a :: a in p.proc ==> exists w :: w in p.busy && p.busy[w] == a)
  }

  ghost predicate Staffed(s: State) {
    forall r :: r in s.peons ==> StaffedPeon(s.peons[r], r)
  }

  /** How often `worker_all_count` was taken down, or not taken up, for a task that stays. */
  ghost function Debt(log: seq<Event>, r: PeonId): nat {
    if log == [] then 0
    else
      var e := log[|log| - 1];
      Debt(log[..|log| - 1], r) +
      (if (e.what.Retry? && e.r == r) || (e.what == Relive && r == Conn) then 1 else 0)
  }

  ghost predicate Counted(s: State) {
    forall r :: r in s.peons && Working(r) ==> CountedPeon(s.peons[r], r, s.log)
  }

  ghost predicate CountedPeon(p: Peon, r: PeonId, log: seq<Event>) {
    p.count == |p.wait| + |p.proc| - Debt(log, r)
  }

  function DynIds(s: State): set<PeonId> {
    set r | r in s.peons && r.Dyn?
  }

  ghost predicate DynCounted(s: State) {
    && s.dynNum == |DynIds(s)|
    && s.dynNum <= DYN_WORKER_LIMIT + 1
    && (forall r :: r in s.peons && !r.Dyn? ==> s.peons[r].stage == Serving)
    && (forall r :: r in s.peons && Ending(s.peons[r].stage) ==> s.peons[r].busy == map[])
    && (forall r :: r in s.peons && s.peons[r].stage == Closed ==> s.peons[r].wait == [])
  }

  /** Dispatched tasks of the log. */
  ghost predicate Ran(e: Event) {
    e.what.Dispatch?
  }

  /** `a` is a task of its own serial number: not inherited, and not parked for rechecking. */
  ghost predicate Owner(s: State, a: Addr) {
    a in s.heap && a in s.place && a !in s.inherited && s.place[a] != Wait(Recheck)
  }

  /** No number is larger than the last one issued, and a task parked for rechecking has none. */
  ghost predicate Bounded(s: State) {
    && (forall p :: p in s.pending ==> 1 <= p <= s.lastSn)
    && (forall a :: a in s.heap ==> s.heap[a].sn <= s.lastSn)
    && (forall a :: a in s.heap && a in s.place && s.place[a] == Wait(Recheck) ==> s.heap[a].sn == 0)
  }

  /** Each owner has a number to itself. */
  ghost predicate Unshared(s: State) {
    && (forall a :: Owner(s, a) ==> s.heap[a].sn >= 1 && s.heap[a].sn !in s.pending)
    && (forall a, b :: Owner(s, a) && Owner(s, b) && a != b ==> s.heap[a].sn != s.heap[b].sn)
  }

  /** An inherited task is a disconnect, under a number that was inserted before. */
  ghost predicate Borrowed(s: State) {
    && (forall a :: a in s.heap && a in s.inherited ==> s.heap[a].sn >= 1 && s.heap[a].sn !in s.pending)
    && (forall a :: a in s.inherited ==>
          a in s.place && (s.place[a] == Gone || s.place[a].r == Disc || s.place[a].r.Dyn?))
  }

  ghost predicate Numbered(s: State) {
    Bounded(s) && Unshared(s) && Borrowed(s)
  }

  /** A number in the log was issued, and unless inherited it belongs to one task for ever. */
  ghost predicate Known(s: State, e: Event) {
    && e.task.sn <= s.lastSn
    && e.r != Recheck
    && e.a in s.place
    && (e.inherited <==> e.a in s.inherited)
    && (!e.inherited ==> e.task.sn !in s.pending)
    && (forall a :: Owner(s, a) && !e.inherited && s.heap[a].sn == e.task.sn ==> a == e.a)
  }

  ghost predicate SameOwner(e: Event, f: Event) {
    Ran(e) && Ran(f) && !e.inherited && !f.inherited && e.task.sn == f.task.sn
  }

  /** Tasks dispatched under one number, and not inherited, are one task. */
  ghost predicate Owned(log: seq<Event>) {
    forall i, j :: 0 <= i < j < |log| && SameOwner(log[i], log[j]) ==> log[i].a == log[j].a
  }

  ghost predicate LogNumbered(s: State) {
    && (forall e :: e in s.log && Ran(e) ==> Known(s, e))
    && Owned(s.log)
  }

  /** A task that may still run and that the dispatched task `e` had to wait for or supersede. */
  ghost predicate Facing(s: State, e: Event, a: Addr) {
    && a in s.heap && a in s.place
    && s.heap[a].state == Live
    && s.place[a] != Gone && s.place[a].r != Recheck
    && e.r != Recheck && Watches(KindOf(e.r), s.place[a].r)
    && Match(s.heap[a].param, e.task.param, ByHost(KindOf(e.r), s.place[a].r))
  }

  /** A batch that is being handled, for the host of the connect `e`; it may be dead, and still hand its number on. */
  ghost predicate Handing(s: State, e: Event, b: Addr) {
    b in s.heap && b in s.place && s.place[b] == Proc(Dcb) && e.r == Conn && Match(s.heap[b].param, e.task.param, true)
  }

  /** The number `sn` is newer than the dispatch `e`, or it was already out when that took place. */
  predicate Later(e: Event, sn: nat, inherited: bool) {
    sn >= e.task.sn || sn in e.pending || (inherited && e.r == Conn && sn in e.batches)
  }

  /** Tasks that face `e`, those still to come, and the batches that may hand on a number come later. */
  ghost predicate Outdated(s: State, e: Event) {
    && (forall a :: Facing(s, e, a) ==> Later(e, s.heap[a].sn, a in s.inherited))
    && (forall p :: p in s.pending ==> p > e.task.sn || p in e.pending)
    && (forall b :: Handing(s, e, b) ==> Later(e, s.heap[b].sn, true))
  }

  /** The later event `f` is one that the dispatch `e` has to precede only in serial order. */
  ghost predicate Follows(e: Event, f: Event) {
    && Ran(e) && Ran(f)
    && e.r != Recheck && f.r != Recheck
    && Watches(KindOf(e.r), f.r)
    && Match(f.task.param, e.task.param, ByHost(KindOf(e.r), f.r))
  }

  ghost predicate LogOrdered(log: seq<Event>) {
    forall i, j :: 0 <= i < j < |log| && Follows(log[i], log[j]) ==>
      Later(log[i], log[j].task.sn, log[j].inherited)
  }

  ghost predicate Ordered(s: State) {
    && (forall e :: e in s.log && Ran(e) ==> Outdated(s, e))
    && LogOrdered(s.log)
  }

  ghost predicate FreedOnce(log: seq<Event>) {
    forall i, j :: 0 <= i < j < |log| && log[i].what == Free && log[j].what == Free ==> log[i].a != log[j].a
  }

  /** Only live tasks are dispatched, retried, settled or relived; a task is freed once. */
  ghost predicate Mortal(s: State) {
    && (forall e :: e in s.log && e.what != Free ==> e.task.state == Live)
    && (forall e :: e in s.log && e.what == Free ==> e.a in s.place && s.place[e.a] == Gone)
    && (forall a :: a in s.place && s.place[a] == Gone ==> exists e :: e in s.log && e.what == Free && e.a == a)
    && FreedOnce(s.log)
  }

  /** When the task at `a` may run again, by what the log says of it. */
  ghost function NextRun(log: seq<Event>, a: Addr): int {
    if log == [] then 0
    else
      var e := log[|log| - 1];
      if e.a == a && e.what.Retry? then e.what.at + RETRY_INTERVAL
      else if e.a == a && e.what == Relive then 0
      else NextRun(log[..|log| - 1], a)
  }

  /** A dispatch took place when the restrain time, and the wait after a failure, were over. */
  ghost predicate Due(log: seq<Event>, k: nat)
    requires k < |log|
  {
    var e := log[k];
    Ran(e) ==> e.task.nextRun == NextRun(log[..k], e.a) && TimeOut(e.task, e.what.restrain, e.what.at)
  }

  ghost predicate AllDue(log: seq<Event>) {
    forall k :: 0 <= k < |log| ==> Due(log, k)
  }

  ghost predicate Punctual(s: State) {
    && (forall e :: e in s.log ==> e.a in s.place)
    && (forall a :: a in s.heap ==> s.heap[a].nextRun == NextRun(s.log, a))
    && AllDue(s.log)
  }

  /** What concerns the lists, the workers and the counters. */
  ghost predicate Stocked(s: State) {
    Placed(s) && Staffed(s) && Counted(s) && DynCounted(s)
  }

  /** What concerns the tasks, their numbers and the log. */
  ghost predicate Honest(s: State) {
    Numbered(s) && LogNumbered(s) && Ordered(s) && Mortal(s) && Punctual(s)
  }

  /** A judgement that put a task off, seen as an event. */
  ghost function Judged(d: Deferral): Event {
    Event(Dispatch(0, 0), d.a, d.r, d.task, d.inherited, d.pending, d.batches)
  }

  /** While a task has the number it was put off under, it is with the same peon, for the same device. */
  ghost predicate Traced(s: State, d: Deferral) {
    && d.task.sn >= 1 && d.a in s.place
    && d.older != {} && (forall n :: n in d.older ==> n < d.task.sn)
    && (d.a in s.heap && s.place[d.a] != Gone ==>
          && s.heap[d.a].param == d.task.param
          && (s.heap[d.a].sn == d.task.sn ==> s.place[d.a].r == d.r))
  }

  ghost predicate Watched(s: State, d: Deferral) {
    Known(s, Judged(d)) && Outdated(s, Judged(d)) && Traced(s, d)
  }

  /** Who puts a task off again had a number that was out when it was first put off. */
  ghost predicate Explained(ds: seq<Deferral>) {
    forall i, j :: 0 <= i < j < |ds| && ds[i].a == ds[j].a && ds[i].task.sn == ds[j].task.sn ==>
      forall n :: n in ds[j].older ==> n in ds[i].pending || (ds[i].r == Conn && n in ds[i].batches)
  }

  ghost predicate Patient(s: State) {
    (forall d :: d in s.deferred ==> Watched(s, d)) && Explained(s.deferred)
  }

  ghost predicate Inv(s: State) {
    Stocked(s) && Honest(s) && Patient(s)
  }

  lemma InitInv(restrain: nat)
    ensures Inv(Init(restrain))
  {
    hide Placed, Staffed, Counted, DynCounted, Honest;
    InitPeons(restrain);
    InitCrew(restrain);
    InitHonest(restrain);
  }

  lemma InitPeons(restrain: nat)
    ensures var s := Init(restrain);
      && Placed(s)
      && forall r :: r in s.peons ==> !r.Dyn? && s.peons[r] == NewPeon(s.peons[r].restrain, Serving)
  {
    var s := Init(restrain);
    assert forall r :: r in s.peons ==> r == Conn || r == Disc || r == Dcb || r == Recheck;
  }

  lemma InitCrew(restrain: nat)
    ensures Staffed(Init(restrain)) && Counted(Init(restrain)) && DynCounted(Init(restrain))
  {
    hide Placed;
    InitPeons(restrain);
    assert DynIds(Init(restrain)) == {};
  }

  lemma InitHonest(restrain: nat)
    ensures Honest(Init(restrain))
  {
  }

  // ---------- Lists ----------

  lemma NoDupCons(x: Addr, l: seq<Addr>)
    requires NoDup(l) && x !in l
    ensures NoDup([x] + l)
  {
    var m := [x] + l;
    forall i, j | 0 <= i < j < |m|
      ensures m[i] != m[j]
    {
      assert m[j] == l[j - 1] && m[j] in l;
      assert i > 0 ==> m[i] == l[i - 1];
    }
  }

  lemma {:induction false} ExtractElements(l: seq<Addr>, a: Addr)
    requires NoDup(l)
    ensures NoDup(Extract(l, a))
    ensures forall x :: x in Extract(l, a) <==> x in l && x != a
    ensures |Extract(l, a)| == |l| - (if a in l then 1 else 0)
  {
    if l != [] {
      var tail := l[1..];
      assert l == [l[0]] + tail;
      assert l[0] !in tail by {
        assert forall i :: 0 <= i < |tail| ==> tail[i] == l[i + 1];
      }
      assert forall x :: x in l <==> x == l[0] || x in tail;
      ExtractElements(tail, a);
      if l[0] != a {
        NoDupCons(l[0], Extract(tail, a));
      }
    }
  }

  /** What becomes of a list for place `p` when `a` moves from `from` to `to`. */
  ghost function Moved(l: seq<Addr>, p: Place, a: Addr, from: Place, to: Place): seq<Addr> {
    (if from == p then Extract(l, a) else l) + (if to == p then [a] else [])
  }

  lemma HoldsMoved(l: seq<Addr>, place: map<Addr, Place>, p: Place, a: Addr, to: Place)
    requires Holds(l, place, p) && a in place && to != place[a]
    ensures Holds(Moved(l, p, a, place[a], to), place[a := to], p)
    ensures |Moved(l, p, a, place[a], to)|
         == |l| - (if place[a] == p then 1 else 0) + (if to == p then 1 else 0)
  {
    ExtractElements(l, a);
  }

  lemma MovePeon(s: State, a: Addr, to: Place, t: Task, r: PeonId)
    requires a in s.place && r in s.peons
    ensures Move(s, a, to, t).peons.Keys == s.peons.Keys
    ensures Move(s, a, to, t).peons[r]
         == s.peons[r].(wait := Moved(s.peons[r].wait, Wait(r), a, s.place[a], to),
                        proc := Moved(s.peons[r].proc, Proc(r), a, s.place[a], to))
  {
    hide Extract, Attach, Detach;
    var ps := Detach(s.peons, s.place[a], a);
    DetachPeon(s.peons, s.place[a], a, r);
    AttachPeon(ps, to, a, r);
    assert r in ps.Keys && r in Attach(ps, to, a).Keys;
  }

  lemma DetachPeon(ps: map<PeonId, Peon>, from: Place, a: Addr, r: PeonId)
    requires r in ps
    ensures Detach(ps, from, a).Keys == ps.Keys && r in Detach(ps, from, a)
    ensures Detach(ps, from, a)[r]
         == ps[r].(wait := if from == Wait(r) then Extract(ps[r].wait, a) else ps[r].wait,
                   proc := if from == Proc(r) then Extract(ps[r].proc, a) else ps[r].proc)
  {
    hide Extract;
  }

  lemma AttachPeon(ps: map<PeonId, Peon>, to: Place, a: Addr, r: PeonId)
    requires r in ps
    ensures Attach(ps, to, a).Keys == ps.Keys && r in Attach(ps, to, a)
    ensures Attach(ps, to, a)[r]
         == ps[r].(wait := if to == Wait(r) then ps[r].wait + [a] else ps[r].wait,
                   proc := if to == Proc(r) then ps[r].proc + [a] else ps[r].proc)
  {
  }

  ghost function Change(p: Place, from: Place, to: Place): int {
    (if to == p then 1 else 0) - (if from == p then 1 else 0)
  }

  /** The lists of peon `q` are those of `p` after `a` went from `from` to `to`. */
  ghost predicate Relisted(p: Peon, q: Peon, r: PeonId, place: map<Addr, Place>, a: Addr, to: Place) {
    && a in place
    && Holds(q.wait, place[a := to], Wait(r)) && Holds(q.proc, place[a := to], Proc(r))
    && |q.wait| == |p.wait| + Change(Wait(r), place[a], to)
    && |q.proc| == |p.proc| + Change(Proc(r), place[a], to)
  }

  /** In `s'`, the task at `a` has gone to `to`, and every list knows. */
  ghost predicate Rehoused(s: State, s': State, a: Addr, to: Place) {
    && a in s.heap && a in s.place && to != s.place[a]
    && to != Proc(Recheck) && (to != Gone ==> to.r in s.peons)
    && s'.place == s.place[a := to]
    && (forall x :: x in s'.heap <==> x in s.heap && (x != a || to != Gone))
    && (forall r :: r in s'.peons <==> r in s.peons)
    && (forall r :: r in s.peons ==> Relisted(s.peons[r], s'.peons[r], r, s.place, a, to))
  }

  /** The lists of `s'` are those that moving the task at `a` makes. */
  ghost predicate Relocated(s: State, s': State, a: Addr, to: Place) {
    && a in s.heap && a in s.place && to != s.place[a]
    && to != Proc(Recheck) && (to != Gone ==> to.r in s.peons)
    && s'.place == s.place[a := to]
    && (forall x :: x in s'.heap <==> x in s.heap && (x != a || to != Gone))
    && (forall r :: r in s'.peons <==> r in s.peons)
    && (forall r :: r in s.peons ==>
          && s'.peons[r].wait == Moved(s.peons[r].wait, Wait(r), a, s.place[a], to)
          && s'.peons[r].proc == Moved(s.peons[r].proc, Proc(r), a, s.place[a], to))
  }

  lemma MoveRelocated(s: State, a: Addr, to: Place, t: Task)
    requires a in s.heap && a in s.place && to != s.place[a]
    requires to != Proc(Recheck) && (to != Gone ==> to.r in s.peons)
    ensures Relocated(s, Move(s, a, to, t), a, to)
    ensures Move(s, a, to, t)
         == s.(peons := Move(s, a, to, t).peons, place := s.place[a := to],
               heap := if to == Gone then s.heap - {a} else s.heap[a := t])
    ensures forall r :: r in s.peons ==>
              var p, q := s.peons[r], Move(s, a, to, t).peons[r];
              q.count == p.count && q.restrain == p.restrain && q.busy == p.busy && q.stage == p.stage
  {
    hide Extract;
    var s' := Move(s, a, to, t);
    forall r
      ensures r in s'.peons <==> r in s.peons
    {
      assert r in s'.peons <==> r in s'.peons.Keys;
    }
    forall r | r in s.peons
      ensures s'.peons[r] == s.peons[r].(wait := Moved(s.peons[r].wait, Wait(r), a, s.place[a], to),
                                         proc := Moved(s.peons[r].proc, Proc(r), a, s.place[a], to))
    {
      MovePeon(s, a, to, t, r);
    }
  }

  lemma RelocatedRehoused(s: State, s': State, a: Addr, to: Place)
    requires Listed(s) && Relocated(s, s', a, to)
    ensures Rehoused(s, s', a, to)
  {
    hide Moved;
    forall r | r in s.peons
      ensures Relisted(s.peons[r], s'.peons[r], r, s.place, a, to)
    {
      HoldsMoved(s.peons[r].wait, s.place, Wait(r), a, to);
      HoldsMoved(s.peons[r].proc, s.place, Proc(r), a, to);
    }
  }

  /** Moving a task keeps lists and places in step. */
  lemma RehousedPlaced(s: State, s': State, a: Addr, to: Place)
    requires Placed(s) && Rehoused(s, s', a, to)
    ensures Placed(s')
  {
    assert Listed(s') by { RehousedListed(s, s', a, to); }
    assert Housed(s') by { RehousedHoused(s, s', a, to); }
    hide Listed, Housed;
  }

  lemma RehousedListed(s: State, s': State, a: Addr, to: Place)
    requires Rehoused(s, s', a, to)
    ensures Listed(s')
  {
    hide Holds;
  }

  lemma RehousedHoused(s: State, s': State, a: Addr, to: Place)
    requires Housed(s) && Rehoused(s, s', a, to)
    ensures Housed(s')
  {
    hide Relisted;
  }

  /** The counter of `r` follows the event `e`, which took place at `e.r`. */
  /** A task laid down or dropped is counted out; one that is handed out or relived is not. */
  predicate CountsOut(what: What) {
    what == Free || what.Retry? || what == Settle
  }

  ghost predicate Ticked(s: State, s': State, e: Event, to: Place) {
    && e.a in s.place
    && s'.log == s.log + [e]
    && (forall r :: r in s.peons && r in s'.peons && Working(r) ==>
          s'.peons[r].count == s.peons[r].count - (if r == e.r && CountsOut(e.what) then 1 else 0))
    && match e.what
       case Free => (s.place[e.a] == Wait(e.r) || s.place[e.a] == Proc(e.r)) && to == Gone
       case Dispatch(_, _) => s.place[e.a] == Wait(e.r) && to == Proc(e.r)
       case Retry(_) => s.place[e.a] == Proc(e.r) && to == Wait(e.r)
       case Settle => s.place[e.a] == Proc(Conn) && e.r == Conn && to == Wait(Recheck)
       case Relive => s.place[e.a] == Wait(Recheck) && e.r == Recheck && to == Wait(Conn)
  }

  lemma TickedCounted(s: State, s': State, e: Event, to: Place)
    requires Counted(s) && Rehoused(s, s', e.a, to) && Ticked(s, s', e, to)
    ensures Counted(s')
  {
    forall r | r in s'.peons && Working(r)
      ensures CountedPeon(s'.peons[r], r, s'.log)
    {
      TickedPeon(s, s', e, to, r);
    }
  }

  lemma TickedPeon(s: State, s': State, e: Event, to: Place, r: PeonId)
    requires Counted(s) && Rehoused(s, s', e.a, to) && Ticked(s, s', e, to)
    requires r in s.peons && r in s'.peons && Working(r)
    ensures CountedPeon(s'.peons[r], r, s'.log)
  {
    hide Holds;
    assert Relisted(s.peons[r], s'.peons[r], r, s.place, e.a, to);
    assert s'.log[..|s.log|] == s.log && s'.log[|s.log|] == e;
  }

  /** Worker `w` of `e.r` took up the task, or laid it down; the other workers went on. */
  ghost predicate Shifted(s: State, s': State, e: Event, to: Place, w: nat) {
    && e.a in s.place && e.r in s.peons && e.r in s'.peons
    && (forall r :: r in s.peons && r in s'.peons && r != e.r ==> s'.peons[r].busy == s.peons[r].busy)
    && var b, b' := s.peons[e.r].busy, s'.peons[e.r].busy;
       if to.Proc? then
         s.place[e.a].Wait? && to == Proc(e.r) && w < WorkerNum(e.r) && w !in b && b' == b[w := e.a]
       else if s.place[e.a].Proc? then s.place[e.a] == Proc(e.r) && w in b && b[w] == e.a && b' == b - {w}
       else b' == b
  }

  /** `x` is being handled afterwards iff it was before, but for the task that moved. */
  lemma RelistedProc(p: Peon, q: Peon, r: PeonId, place: map<Addr, Place>, a: Addr, to: Place)
    requires Relisted(p, q, r, place, a, to) && Holds(p.proc, place, Proc(r))
    ensures forall x :: x in q.proc <==> (x == a && to == Proc(r)) || (x != a && x in p.proc)
    ensures a in p.proc <==> place[a] == Proc(r)
  {
  }

  lemma ShiftedPeon(p: Peon, q: Peon, r: PeonId, a: Addr, w: nat)
    requires StaffedPeon(p, r)
    requires
      || (q.busy == p.busy && forall x :: x in q.proc <==> x in p.proc)
      || (a !in p.proc && w < WorkerNum(r) && w !in p.busy && q.busy == p.busy[w := a]
          && forall x :: x in q.proc <==> x == a || x in p.proc)
      || (w in p.busy && p.busy[w] == a && q.busy == p.busy - {w}
          && forall x :: x in q.proc <==> x != a && x in p.proc)
    ensures StaffedPeon(q, r)
  {
    forall x | x in q.proc
      ensures exists v :: v in q.busy && q.busy[v] == x
    {
      if x == a && x !in p.proc {
        assert q.busy[w] == x;
      } else {
        var v :| v in p.busy && p.busy[v] == x;
        assert v in q.busy && q.busy[v] == x;
      }
    }
  }

  lemma ShiftedStaffed(s: State, s': State, e: Event, to: Place, w: nat)
    requires Listed(s) && Staffed(s) && Rehoused(s, s', e.a, to) && Shifted(s, s', e, to, w)
    ensures Staffed(s')
  {
    forall r | r in s'.peons
      ensures StaffedPeon(s'.peons[r], r)
    {
      ShiftedStaffedAt(s, s', e, to, w, r);
    }
  }

  lemma ShiftedStaffedAt(s: State, s': State, e: Event, to: Place, w: nat, r: PeonId)
    requires Listed(s) && Staffed(s) && Rehoused(s, s', e.a, to) && Shifted(s, s', e, to, w)
    requires r in s.peons && r in s'.peons
    ensures StaffedPeon(s'.peons[r], r)
  {
    hide Holds, StaffedPeon;
    RelistedProc(s.peons[r], s'.peons[r], r, s.place, e.a, to);
    ShiftedPeon(s.peons[r], s'.peons[r], r, e.a, w);
  }

  /** The dynamic peons are the same, and nothing waits in a closed one. */
  lemma DynKept(s: State, s': State, e: Event, to: Place, w: nat)
    requires DynCounted(s) && Rehoused(s, s', e.a, to) && Shifted(s, s', e, to, w)
    requires s'.dynNum == s.dynNum
    requires forall r :: r in s.peons && r in s'.peons ==> s'.peons[r].stage == s.peons[r].stage
    requires to.Proc? ==> !Ending(s.peons[e.r].stage)
    requires to.Wait? ==> s.peons[to.r].stage != Closed
    ensures DynCounted(s')
  {
    hide Holds;
    assert DynIds(s') == DynIds(s);
    forall r | r in s'.peons && s'.peons[r].stage == Closed
      ensures s'.peons[r].wait == []
    {
      assert Relisted(s.peons[r], s'.peons[r], r, s.place, e.a, to);
    }
  }

  lemma ShiftedStocked(s: State, s': State, e: Event, to: Place, w: nat)
    requires Stocked(s) && Rehoused(s, s', e.a, to) && Ticked(s, s', e, to) && Shifted(s, s', e, to, w)
    requires s'.dynNum == s.dynNum
    requires forall r :: r in s.peons && r in s'.peons ==> s'.peons[r].stage == s.peons[r].stage
    requires to.Proc? ==> !Ending(s.peons[e.r].stage)
    requires to.Wait? ==> s.peons[to.r].stage != Closed
    ensures Stocked(s')
  {
    hide Listed, Housed, Staffed, Counted, DynCounted;
    RehousedPlaced(s, s', e.a, to);
    TickedCounted(s, s', e, to);
    ShiftedStaffed(s, s', e, to, w);
    DynKept(s, s', e, to, w);
  }

  // ---------- Tasks, numbers and the log ----------

  lemma KillOutdated(s: State, k: Kind, t: Task, e: Event)
    requires Outdated(s, e)
    ensures Outdated(Kill(s, k, t), e)
  {
    hide Match;
    var s' := Kill(s, k, t);
    assert forall a :: Facing(s', e, a) ==> Facing(s, e, a);
  }

  lemma KillNumbered(s: State, k: Kind, t: Task)
    requires Numbered(s) && LogNumbered(s)
    ensures Numbered(Kill(s, k, t)) && LogNumbered(Kill(s, k, t))
  {
    hide Rival;
    var s' := Kill(s, k, t);
    assert forall a :: Owner(s', a) ==> Owner(s, a) && s'.heap[a].sn == s.heap[a].sn;
  }

  lemma KillHonest(s: State, k: Kind, t: Task)
    requires Honest(s)
    ensures Honest(Kill(s, k, t))
  {
    var s' := Kill(s, k, t);
    hide Rival, Outdated, Known, Owner;
    KillNumbered(s, k, t);
    forall e | e in s'.log && Ran(e)
      ensures Outdated(s', e)
    {
      KillOutdated(s, k, t, e);
    }
  }

  lemma KillPatient(s: State, k: Kind, t: Task)
    requires Patient(s)
    ensures Patient(Kill(s, k, t))
  {
    hide Rival, Outdated;
    var s' := Kill(s, k, t);
    assert forall a :: Owner(s', a) ==> Owner(s, a) && s'.heap[a].sn == s.heap[a].sn;
    forall d | d in s'.deferred
      ensures Watched(s', d)
    {
      assert Watched(s, d);
      KillOutdated(s, k, t, Judged(d));
    }
  }

  /** The event `e` befell its task: it went to `to` and became `t`. */
  ghost predicate Befell(s: State, s': State, e: Event, to: Place, t: Task) {
    && e.a in s.heap && e.a in s.place
    && e == Event(e.what, e.a, e.r, s.heap[e.a], e.a in s.inherited, s.pending, Batches(s, s.heap[e.a].param))
    && s'.place == s.place[e.a := to]
    && s'.heap == (if to == Gone then s.heap - {e.a} else s.heap[e.a := t])
    && s'.log == s.log + [e]
    && s'.pending == s.pending && s'.inherited == s.inherited && s'.deferred == s.deferred
    && t.param == e.task.param && t.state == e.task.state
    && (e.what != Free ==> t.state == Live)
    && s'.lastSn == (if e.what == Relive then s.lastSn + 1 else s.lastSn)
    && t.nextRun == (if e.what.Retry? then e.what.at + RETRY_INTERVAL
                     else if e.what == Relive then 0 else e.task.nextRun)
    && match e.what
       case Free => to == Gone && t.sn == e.task.sn
       case Dispatch(at, restrain) =>
         && e.r != Recheck && s.place[e.a] == Wait(e.r) && to == Proc(e.r) && t.sn == e.task.sn
         && TimeOut(e.task, restrain, at)
       case Retry(_) => e.r != Recheck && s.place[e.a] == Proc(e.r) && to == Wait(e.r) && t.sn == e.task.sn
       case Settle => s.place[e.a] == Proc(Conn) && to == Wait(Recheck) && t.sn == 0
       case Relive => s.place[e.a] == Wait(Recheck) && to == Wait(Conn) && t.sn == s'.lastSn
  }

  lemma BefellBounded(s: State, s': State, e: Event, to: Place, t: Task)
    requires Bounded(s) && Befell(s, s', e, to, t)
    ensures Bounded(s')
  {
  }

  /** Who owns a number after the event owned it before, or it is the number of a relived task. */
  lemma BefellOwners(s: State, s': State, e: Event, to: Place, t: Task, a: Addr)
    requires Befell(s, s', e, to, t) && Owner(s', a)
    ensures if a == e.a && e.what == Relive then s'.heap[a].sn == s.lastSn + 1
            else Owner(s, a) && s'.heap[a].sn == s.heap[a].sn
  {
  }

  lemma BefellUnshared(s: State, s': State, e: Event, to: Place, t: Task)
    requires Bounded(s) && Unshared(s) && Befell(s, s', e, to, t)
    ensures Unshared(s')
  {
    assert s'.pending == s.pending;
    assert forall a :: Owner(s', a) ==> a in s'.heap;
    assert forall a :: Owner(s, a) ==> a in s.heap;
    forall a | Owner(s', a)
      ensures if a == e.a && e.what == Relive then s'.heap[a].sn == s.lastSn + 1
              else Owner(s, a) && s'.heap[a].sn == s.heap[a].sn
    {
      BefellOwners(s, s', e, to, t, a);
    }
    hide Befell, Owner;
  }

  lemma BefellBorrowed(s: State, s': State, e: Event, to: Place, t: Task)
    requires Borrowed(s) && Befell(s, s', e, to, t)
    ensures Borrowed(s')
  {
  }

  lemma BefellNumbered(s: State, s': State, e: Event, to: Place, t: Task)
    requires Numbered(s) && Befell(s, s', e, to, t)
    ensures Numbered(s')
  {
    hide Befell, Bounded, Unshared, Borrowed;
    BefellBounded(s, s', e, to, t);
    BefellUnshared(s, s', e, to, t);
    BefellBorrowed(s, s', e, to, t);
  }

  lemma BefellOwned(s: State, s': State, e: Event, to: Place, t: Task)
    requires LogNumbered(s) && Befell(s, s', e, to, t)
    ensures Owned(s'.log)
  {
    forall i, j | 0 <= i < j < |s'.log| && SameOwner(s'.log[i], s'.log[j])
      ensures s'.log[i].a == s'.log[j].a
    {
      assert s'.log[i] == s.log[i] && s.log[i] in s.log;
      if j == |s.log| {
        assert Known(s, s.log[i]) && Owner(s, e.a);
      }
    }
  }

  lemma BefellKnown(s: State, s': State, e: Event, to: Place, t: Task)
    requires Numbered(s) && LogNumbered(s) && Befell(s, s', e, to, t)
    ensures LogNumbered(s')
  {
    BefellOwned(s, s', e, to, t);
    hide Owned;
    assert forall a :: Owner(s', a) && a != e.a ==> Owner(s, a);
    forall f | f in s'.log && Ran(f)
      ensures Known(s', f)
    {
      if f in s.log {
        assert Known(s, f);
      } else {
        assert f == e && (e.inherited || Owner(s, e.a));
      }
    }
  }

  lemma BefellStillKnown(s: State, s': State, e: Event, to: Place, t: Task, f: Event)
    requires Known(s, f) && Befell(s, s', e, to, t)
    ensures Known(s', f)
  {
    assert forall a :: Owner(s', a) && a != e.a ==> Owner(s, a);
  }

  lemma BefellTraced(s: State, s': State, e: Event, to: Place, t: Task, d: Deferral)
    requires Traced(s, d) && d.task.sn <= s.lastSn && Befell(s, s', e, to, t) && s.place[e.a] != Gone
    ensures Traced(s', d)
  {
  }

  lemma BefellPatient(s: State, s': State, e: Event, to: Place, t: Task)
    requires Numbered(s) && Patient(s) && Befell(s, s', e, to, t) && s.place[e.a] != Gone
    ensures Patient(s')
  {
    forall d | d in s'.deferred
      ensures Watched(s', d)
    {
      assert Watched(s, d);
      BefellStillKnown(s, s', e, to, t, Judged(d));
      BefellStillOutdated(s, s', e, to, t, Judged(d));
      BefellTraced(s, s', e, to, t, d);
    }
    hide Befell, Explained, Watched;
  }

  /** No live rival is left: what a task must find when it is handed out. */
  ghost predicate Clear(s: State, k: Kind, t: Task) {
    forall x :: Rival(s, k, t, x) ==> s.heap[x].sn == t.sn
  }

  lemma BefellStillOutdated(s: State, s': State, e: Event, to: Place, t: Task, f: Event)
    requires Numbered(s) && Outdated(s, f) && Known(s, f) && Befell(s, s', e, to, t)
    ensures Outdated(s', f)
  {
    hide Match;
    forall a | Facing(s', f, a)
      ensures Later(f, s'.heap[a].sn, a in s'.inherited)
    {
      assert (a == e.a && e.what == Relive) || Facing(s, f, a);
    }
    forall b | Handing(s', f, b)
      ensures Later(f, s'.heap[b].sn, true)
    {
      assert if b == e.a && Ran(e) then Facing(s, f, b) else Handing(s, f, b);
    }
  }

  lemma BefellNewOutdated(s: State, s': State, e: Event, to: Place, t: Task)
    requires Numbered(s) && Befell(s, s', e, to, t) && Ran(e) && Clear(s, KindOf(e.r), e.task)
    ensures Outdated(s', e)
  {
    hide Match;
    forall a | Facing(s', e, a)
      ensures s'.heap[a].sn >= e.task.sn
    {
      assert a == e.a || Rival(s, KindOf(e.r), e.task, a);
    }
    forall b | Handing(s', e, b)
      ensures s'.heap[b].sn in e.batches
    {
      assert b in s.heap && b in s.place && s.place[b] == Proc(Dcb);
    }
  }

  lemma BefellOutdated(s: State, s': State, e: Event, to: Place, t: Task)
    requires Numbered(s) && LogNumbered(s) && Ordered(s) && Befell(s, s', e, to, t)
    requires Ran(e) ==> Clear(s, KindOf(e.r), e.task)
    ensures forall f :: f in s'.log && Ran(f) ==> Outdated(s', f)
  {
    forall f | f in s'.log && Ran(f)
      ensures Outdated(s', f)
    {
      if f in s.log {
        assert Outdated(s, f) && Known(s, f);
        BefellStillOutdated(s, s', e, to, t, f);
      } else {
        BefellNewOutdated(s, s', e, to, t);
      }
    }
  }

  lemma BefellOrdered(s: State, s': State, e: Event, to: Place, t: Task)
    requires Numbered(s) && LogNumbered(s) && Ordered(s) && Befell(s, s', e, to, t)
    requires Ran(e) ==> Clear(s, KindOf(e.r), e.task)
    ensures Ordered(s')
  {
    BefellOutdated(s, s', e, to, t);
    forall i, j | 0 <= i < j < |s'.log| && Follows(s'.log[i], s'.log[j])
      ensures Later(s'.log[i], s'.log[j].task.sn, s'.log[j].inherited)
    {
      var f := s'.log[i];
      assert f == s.log[i] && f in s.log;
      if j == |s.log| {
        assert Outdated(s, f);
        assert Facing(s, f, e.a);
      }
    }
  }

  lemma BefellMortal(s: State, s': State, e: Event, to: Place, t: Task)
    requires Mortal(s) && Befell(s, s', e, to, t) && s.place[e.a] != Gone
    ensures Mortal(s')
  {
    forall a | a in s'.place && s'.place[a] == Gone
      ensures exists f :: f in s'.log && f.what == Free && f.a == a
    {
      if a == e.a {
        assert e in s'.log;
      } else {
        var f :| f in s.log && f.what == Free && f.a == a;
        assert f in s'.log;
      }
    }
  }

  lemma BefellPunctual(s: State, s': State, e: Event, to: Place, t: Task)
    requires Punctual(s) && Befell(s, s', e, to, t)
    ensures Punctual(s')
  {
    assert s'.log[..|s.log|] == s.log;
    forall k | 0 <= k < |s'.log|
      ensures Due(s'.log, k)
    {
      if k < |s.log| {
        assert s'.log[..k] == s.log[..k] && Due(s.log, k);
      }
    }
  }

  lemma BefellHonest(s: State, s': State, e: Event, to: Place, t: Task)
    requires Honest(s) && Befell(s, s', e, to, t) && s.place[e.a] != Gone
    requires Ran(e) ==> Clear(s, KindOf(e.r), e.task)
    ensures Honest(s')
  {
    BefellNumbered(s, s', e, to, t);
    BefellKnown(s, s', e, to, t);
    BefellOrdered(s, s', e, to, t);
    BefellMortal(s, s', e, to, t);
    BefellPunctual(s, s', e, to, t);
  }
}

/**
The peon scheduler as the program runs it: tasks are objects that are changed in place,
the lists of a peon hold their addresses. Every method is one critical section, or a
part of one, and does to the abstract state exactly what PeonModel says.
*/
module PeonScheduler {
  import opened PeonModel
  import opened PeonInvariants
  import opened Collections
  import opened PeonSteps

  class PeonTask {
    var sn: nat
    var state: Life
    var tm: int
    var nextRun: int
    const param: Param
    const rechecks: bool

    constructor (sn: nat, now: int, param: Param, rechecks: bool)
      ensures Rec() == Task(sn, Live, now, 0, param, rechecks)
    {
      this.sn := sn;
      this.state := Live;
      this.tm := now;
      this.nextRun := 0;
      this.param := param;
      this.rechecks := rechecks;
    }

    function Rec(): Task
      reads this
    {
      Task(sn, state, tm, nextRun, param, rechecks)
    }

    /** The task starts over, under a new number. */
    method Renew(sn: nat, now: int)
      modifies this
      ensures Rec() == old(Rec()).(tm := now, nextRun := 0, sn := sn, state := Live)
    {
      tm := now;
      nextRun := 0;
      this.sn := sn;
      state := Live;
    }
  }

  // ---------- One scan of one list, on heaps ----------

  ghost predicate Hit(h: map<Addr, Task>, l: seq<Addr>, t: Task, byHost: bool, a: Addr) {
    a in l && a in h && h[a].state == Live && Match(h[a].param, t.param, byHost)
  }

  /** peon_task_scan_list: the older live matches in the list die. */
  ghost function KillIn(h: map<Addr, Task>, l: seq<Addr>, t: Task, byHost: bool): map<Addr, Task> {
    map a | a in h :: if Hit(h, l, t, byHost, a) && h[a].sn < t.sn then h[a].(state := Dead) else h[a]
  }

  ghost predicate OlderIn(h: map<Addr, Task>, l: seq<Addr>, t: Task, byHost: bool) {
    exists a :: Hit(h, l, t, byHost, a) && h[a].sn < t.sn
  }

  ghost predicate NewerIn(h: map<Addr, Task>, l: seq<Addr>, t: Task, byHost: bool) {
    exists a :: Hit(h, l, t, byHost, a) && h[a].sn > t.sn
  }

  /** The task at `a` is one the scan acts on: live, matching, and with another number. */
  ghost predicate Acted(h: map<Addr, Task>, t: Task, byHost: bool, a: Addr) {
    a in h && h[a].state == Live && Match(h[a].param, t.param, byHost) && h[a].sn != t.sn
  }

  lemma ScanNone(h: map<Addr, Task>, t: Task, byHost: bool)
    ensures KillIn(h, [], t, byHost) == h
    ensures !OlderIn(h, [], t, byHost) && !NewerIn(h, [], t, byHost)
  {
  }

  lemma ScanMore(h: map<Addr, Task>, l: seq<Addr>, i: nat, t: Task, byHost: bool)
    requires NoDup(l) && i < |l| && l[i] in h
    ensures KillIn(h, l[..i], t, byHost)[l[i]] == h[l[i]]
    ensures KillIn(h, l[..i + 1], t, byHost)
         == if Acted(h, t, byHost, l[i]) && h[l[i]].sn < t.sn
            then KillIn(h, l[..i], t, byHost)[l[i] := h[l[i]].(state := Dead)] else KillIn(h, l[..i], t, byHost)
    ensures OlderIn(h, l[..i + 1], t, byHost)
       <==> OlderIn(h, l[..i], t, byHost) || (Acted(h, t, byHost, l[i]) && h[l[i]].sn < t.sn)
    ensures NewerIn(h, l[..i + 1], t, byHost)
       <==> NewerIn(h, l[..i], t, byHost) || (Acted(h, t, byHost, l[i]) && h[l[i]].sn > t.sn)
  {
    hide Match;
    assert l[..i + 1] == l[..i] + [l[i]];
    assert forall a :: Hit(h, l[..i + 1], t, byHost, a) <==>
                         Hit(h, l[..i], t, byHost, a) || (a == l[i] && Hit(h, l, t, byHost, a));
  }

  // ---------- Judging as a series of scans ----------

  /** The state after the lists for the places `done` have been scanned. */
  ghost function KillOver(s: State, k: Kind, t: Task, done: set<Place>): map<Addr, Task> {
    map x | x in s.heap ::
      if Rival(s, k, t, x) && s.place[x] in done && s.heap[x].sn < t.sn then s.heap[x].(state := Dead) else s.heap[x]
  }

  ghost predicate OlderAt(s: State, k: Kind, t: Task, p: Place) {
    exists x :: x in s.heap && Rival(s, k, t, x) && s.place[x] == p && s.heap[x].sn < t.sn
  }

  ghost predicate NewerAt(s: State, k: Kind, t: Task, p: Place) {
    exists x :: x in s.heap && Rival(s, k, t, x) && s.place[x] == p && s.heap[x].sn > t.sn
  }

  lemma ScanStep(s: State, k: Kind, t: Task, done: set<Place>, p: Place, l: seq<Addr>)
    requires p != Gone && Watches(k, p.r) && p !in done && Holds(l, s.place, p)
    requires forall a :: a in s.heap ==> a in s.place
    ensures var h := KillOver(s, k, t, done);
      && KillIn(h, l, t, ByHost(k, p.r)) == KillOver(s, k, t, done + {p})
      && (OlderIn(h, l, t, ByHost(k, p.r)) <==> OlderAt(s, k, t, p))
      && (NewerIn(h, l, t, ByHost(k, p.r)) <==> NewerAt(s, k, t, p))
  {
    hide Match;
    var h := KillOver(s, k, t, done);
    forall a | a in s.heap
      ensures Hit(h, l, t, ByHost(k, p.r), a) <==> Rival(s, k, t, a) && s.place[a] == p
    {
    }
    assert KillIn(h, l, t, ByHost(k, p.r)).Keys == s.heap.Keys;
  }

  ghost predicate Covers(k: Kind, done: set<Place>) {
    forall p: Place :: p != Gone && p != Proc(Recheck) && Watches(k, p.r) <==> p in done
  }

  /** The scans together are the judgement. */
  lemma JudgeDone(s: State, k: Kind, t: Task, done: set<Place>)
    requires Housed(s) && Covers(k, done)
    ensures KillOver(s, k, t, done) == Kill(s, k, t).heap
    ensures Discards(s, k, t) <==> exists p :: p in done && NewerAt(s, k, t, p)
    ensures Defers(s, k, t) <==> exists p :: p in done && p.Proc? && OlderAt(s, k, t, p)
  {
    hide Match;
    assert forall x :: Rival(s, k, t, x) ==> s.place[x] in done;
    if Discards(s, k, t) {
      var x :| x in s.heap && Rival(s, k, t, x) && s.heap[x].sn > t.sn;
      assert NewerAt(s, k, t, s.place[x]);
    }
    if Defers(s, k, t) {
      var x :| x in s.heap && Rival(s, k, t, x) && s.heap[x].sn < t.sn && s.place[x].Proc?;
      assert OlderAt(s, k, t, s.place[x]);
    }
  }

  lemma NothingDone(s: State, k: Kind, t: Task)
    ensures KillOver(s, k, t, {}) == s.heap
  {
  }

  lemma InvPlaced(s: State)
    requires Inv(s)
    ensures Placed(s) && Housed(s)
  {
    hide Listed, Staffed, Counted, DynCounted, Honest;
  }

  lemma ReleasePeons(s: State, r: PeonId, w: nat, a: Addr)
    requires r in s.peons && a in s.heap && a in s.place && s.place[a] == Proc(r)
    ensures var p := s.peons[r];
      LayDown(s, r, w, Free, a, Gone, s.heap[a]).peons
      == s.peons[r := p.(proc := Extract(p.proc, a), busy := p.busy - {w}, count := p.count - 1)]
  {
    hide Extract;
  }

  lemma RetryPeons(s: State, r: PeonId, w: nat, a: Addr, now: int)
    requires Handling(s, r, w, a)
    ensures var p := s.peons[r];
      LayDown(s, r, w, Retry(now), a, Wait(r), s.heap[a].(nextRun := now + RETRY_INTERVAL)).peons
      == s.peons[r := p.(proc := Extract(p.proc, a), wait := p.wait + [a], busy := p.busy - {w}, count := p.count - 1)]
  {
    hide Extract;
  }

  lemma SettlePeons(s: State, w: nat, a: Addr)
    requires Handling(s, Conn, w, a) && Recheck in s.peons
    ensures var p, q := s.peons[Conn], s.peons[Recheck];
      LayDown(s, Conn, w, Settle, a, Wait(Recheck), s.heap[a].(sn := 0)).peons
      == s.peons[Recheck := q.(wait := q.wait + [a])]
                [Conn := p.(proc := Extract(p.proc, a), busy := p.busy - {w}, count := p.count - 1)]
  {
    hide Extract;
  }

  lemma RelivePeons(s: State, n: State, a: Addr, t: Task)
    requires Conn in s.peons && Recheck in s.peons && a in s.place && s.place[a] == Wait(Recheck)
    requires n.peons == s.peons && n.place == s.place
    ensures var p, q := s.peons[Recheck], s.peons[Conn];
      Move(n, a, Wait(Conn), t).peons
      == s.peons[Recheck := p.(wait := Extract(p.wait, a))][Conn := q.(wait := q.wait + [a])]
  {
    hide Extract;
  }

  lemma NotInHeap(s: State, a: Addr)
    requires Inv(s) && a !in s.place
    ensures a !in s.heap
  {
    hide Listed, Staffed, Counted, DynCounted, Honest;
  }

  class Scheduler {
    var mem: map<Addr, PeonTask>
    var peons: map<PeonId, Peon>
    var dynNum: int
    var lastSn: nat
    ghost var pending: set<nat>
    ghost var place: map<Addr, Place>
    ghost var inherited: set<Addr>
    ghost var log: seq<Event>
    ghost var deferred: seq<Deferral>

    /** Different addresses hold different objects. */
    ghost predicate Distinct()
      reads this
    {
      forall a, b :: a in mem && b in mem && a != b ==> mem[a] != mem[b]
    }

    ghost function Heap(): map<Addr, Task>
      reads this, mem.Values
    {
      map a | a in mem :: mem[a].Rec()
    }

    ghost function Abs(): State
      reads this, mem.Values
    {
      State(Heap(), peons, dynNum, lastSn, pending, place, inherited, log, deferred)
    }

    ghost predicate Valid()
      reads this, mem.Values
    {
      Distinct() && Inv(Abs())
    }

    method ScanList(l: seq<Addr>, task: PeonTask, byHost: bool, isWait: bool) returns (wait: bool, discard: bool)
      requires Distinct() && task in mem.Values && NoDup(l)
      requires forall a :: a in l ==> a in mem
      modifies mem.Values
      ensures unchanged(this) && Distinct()
      ensures task.Rec() == old(task.Rec())
      ensures Heap() == KillIn(old(Heap()), l, task.Rec(), byHost)
      ensures wait == (!isWait && OlderIn(old(Heap()), l, task.Rec(), byHost))
      ensures discard == NewerIn(old(Heap()), l, task.Rec(), byHost)
    {
      hide KillIn, OlderIn, NewerIn, Match;
      ghost var h, t := Heap(), task.Rec();
      wait, discard := false, false;
      var i := 0;
      ScanNone(h, t, byHost);
      assert l[..0] == [];
      while i < |l|
        invariant 0 <= i <= |l|
        invariant task.Rec() == t
        invariant Heap() == KillIn(h, l[..i], t, byHost)
        invariant wait == (!isWait && OlderIn(h, l[..i], t, byHost))
        invariant discard == NewerIn(h, l[..i], t, byHost)
      {
        assert l[i] in l;
        ScanMore(h, l, i, t, byHost);
        var p := mem[l[i]];
        assert p.Rec() == Heap()[l[i]] == h[l[i]];
        if p.state == Live && Match(p.param, task.param, byHost) && task.sn != p.sn {
          if task.sn < p.sn {
            discard := true;
          } else {
            if !isWait {
              wait := true;
            }
            Bury(l[i], task);
          }
        }
        i := i + 1;
      }
      assert l[..i] == l;
    }

    /** Marks the task at `a` dead. */
    method Bury(a: Addr, ghost task: PeonTask)
      requires Distinct() && a in mem && task in mem.Values && task.sn != mem[a].sn
      modifies mem[a]
      ensures unchanged(this)
      ensures Heap() == old(Heap())[a := old(Heap())[a].(state := Dead)]
      ensures task.Rec() == old(task.Rec())
    {
      mem[a].state := Dead;
    }
  
    method ScanPlace(p: Place, k: Kind, task: PeonTask, ghost s: State, ghost done: set<Place>)
      returns (wait: bool, discard: bool)
      requires Distinct() && task in mem.Values && Placed(s) && peons == s.peons
      requires Heap() == KillOver(s, k, task.Rec(), done)
      requires p != Gone && p.r in peons && Watches(k, p.r) && p !in done
      modifies mem.Values
      ensures unchanged(this) && Distinct() && task.Rec() == old(task.Rec())
      ensures Heap() == KillOver(s, k, task.Rec(), done + {p})
      ensures wait == (p.Proc? && OlderAt(s, k, task.Rec(), p))
      ensures discard == NewerAt(s, k, task.Rec(), p)
    {
      hide Match, OlderAt, NewerAt, OlderIn, NewerIn, KillIn, Rival;
      var l := if p.Wait? then peons[p.r].wait else peons[p.r].proc;
      assert Holds(l, s.place, p);
      forall a | a in l
        ensures a in mem
      {
        assert a in s.heap && a in Heap();
      }
      ScanStep(s, k, task.Rec(), done, p, l);
      wait, discard := ScanList(l, task, ByHost(k, p.r), p.Wait?);
    }

    /** The two scans of one peon: those that wait, and those that are being handled. */
    method ScanPeon(r: PeonId, k: Kind, task: PeonTask, ghost s: State, ghost done: set<Place>)
      returns (wait: bool, discard: bool)
      requires Distinct() && task in mem.Values && Placed(s) && peons == s.peons
      requires Heap() == KillOver(s, k, task.Rec(), done)
      requires r in peons && Watches(k, r) && Wait(r) !in done && Proc(r) !in done
      modifies mem.Values
      ensures unchanged(this) && Distinct() && task.Rec() == old(task.Rec())
      ensures Heap() == KillOver(s, k, task.Rec(), done + {Wait(r), Proc(r)})
      ensures wait == OlderAt(s, k, task.Rec(), Proc(r))
      ensures discard == (NewerAt(s, k, task.Rec(), Wait(r)) || NewerAt(s, k, task.Rec(), Proc(r)))
    {
      hide Placed, KillOver, OlderAt, NewerAt;
      var w1, d1 := ScanPlace(Wait(r), k, task, s, done);
      var w2, d2 := ScanPlace(Proc(r), k, task, s, done + {Wait(r)});
      assert done + {Wait(r)} + {Proc(r)} == done + {Wait(r), Proc(r)};
      wait, discard := w1 || w2, d1 || d2;
    }

    /** The scans for a connect: the disconnects, the batches, the connects, and the parked connects. */
    method JudgeConnect(task: PeonTask, ghost s: State) returns (wait: bool, discard: bool, ghost done: set<Place>)
      requires Distinct() && task in mem.Values && Placed(s) && peons == s.peons && Heap() == s.heap
      modifies mem.Values
      ensures unchanged(this) && Distinct() && task.Rec() == old(task.Rec()) && Covers(Connect, done)
      ensures Heap() == KillOver(s, Connect, task.Rec(), done)
      ensures wait <==> exists p :: p in done && p.Proc? && OlderAt(s, Connect, task.Rec(), p)
      ensures discard <==> exists p :: p in done && NewerAt(s, Connect, task.Rec(), p)
    {
      hide Listed, Housed, KillOver, OlderAt, NewerAt;
      NothingDone(s, Connect, task.Rec());
      done := {};
      var w1, d1 := ScanPeon(Disc, Connect, task, s, done);
      done := done + {Wait(Disc), Proc(Disc)};
      var w2, d2 := ScanPeon(Dcb, Connect, task, s, done);
      done := done + {Wait(Dcb), Proc(Dcb)};
      var w3, d3 := ScanPeon(Conn, Connect, task, s, done);
      done := done + {Wait(Conn), Proc(Conn)};
      var w4, d4 := ScanPlace(Wait(Recheck), Connect, task, s, done);
      done := done + {Wait(Recheck)};
      wait, discard := w1 || w2 || w3 || w4, d1 || d2 || d3 || d4;
    }

    /** The scans for a disconnect: the connects, and the parked connects. */
    method JudgeDisconnect(task: PeonTask, ghost s: State) returns (wait: bool, discard: bool, ghost done: set<Place>)
      requires Distinct() && task in mem.Values && Placed(s) && peons == s.peons && Heap() == s.heap
      modifies mem.Values
      ensures unchanged(this) && Distinct() && task.Rec() == old(task.Rec()) && Covers(Disconnect, done)
      ensures Heap() == KillOver(s, Disconnect, task.Rec(), done)
      ensures wait <==> exists p :: p in done && p.Proc? && OlderAt(s, Disconnect, task.Rec(), p)
      ensures discard <==> exists p :: p in done && NewerAt(s, Disconnect, task.Rec(), p)
    {
      hide Listed, Housed, KillOver, OlderAt, NewerAt;
      NothingDone(s, Disconnect, task.Rec());
      done := {};
      var w1, d1 := ScanPeon(Conn, Disconnect, task, s, done);
      done := done + {Wait(Conn), Proc(Conn)};
      var w2, d2 := ScanPlace(Wait(Recheck), Disconnect, task, s, done);
      done := done + {Wait(Recheck)};
      wait, discard := w1 || w2, d1 || d2;
    }

    /** The scans for a batch: the connects, by host. */
    method JudgeBatch(task: PeonTask, ghost s: State) returns (wait: bool, discard: bool, ghost done: set<Place>)
      requires Distinct() && task in mem.Values && Placed(s) && peons == s.peons && Heap() == s.heap
      modifies mem.Values
      ensures unchanged(this) && Distinct() && task.Rec() == old(task.Rec()) && Covers(Batch, done)
      ensures Heap() == KillOver(s, Batch, task.Rec(), done)
      ensures wait <==> exists p :: p in done && p.Proc? && OlderAt(s, Batch, task.Rec(), p)
      ensures discard <==> exists p :: p in done && NewerAt(s, Batch, task.Rec(), p)
    {
      hide Listed, Housed, KillOver, OlderAt, NewerAt;
      NothingDone(s, Batch, task.Rec());
      done := {};
      wait, discard := ScanPeon(Conn, Batch, task, s, done);
      done := done + {Wait(Conn), Proc(Conn)};
    }

    /** peon_task_action_judge */
    method ActionJudge(k: Kind, task: PeonTask) returns (wait: bool, discard: bool)
      requires Valid() && task in mem.Values
      modifies mem.Values
      ensures unchanged(this) && Valid() && task.Rec() == old(task.Rec())
      ensures Abs() == Kill(old(Abs()), k, task.Rec())
      ensures wait == Defers(old(Abs()), k, task.Rec())
      ensures discard == Discards(old(Abs()), k, task.Rec())
    {
      hide Inv, KillOver, OlderAt, NewerAt, Defers, Discards, Listed, Covers;
      ghost var s, t := Abs(), task.Rec();
      InvPlaced(s);
      ghost var done: set<Place>;
      match k {
        case Connect => wait, discard, done := JudgeConnect(task, s);
        case Disconnect => wait, discard, done := JudgeDisconnect(task, s);
        case Batch => wait, discard, done := JudgeBatch(task, s);
      }
      JudgeDone(s, k, t, done);
      KillInv(s, k, t);
    }
  
    // ---------- peon_task_get ----------

    /** Takes a task off the wait list of `r`, frees it, and counts it out. */
    method DropTask(r: PeonId, a: Addr)
      requires a in mem && a in place && place[a] == Wait(r) && r in peons
      modifies this
      ensures Abs() == Drop(old(Abs()), r, a)
      ensures mem == old(mem) - {a}
    {
      log := log + [Event(Free, a, r, mem[a].Rec(), a in inherited, pending, Batches(Abs(), mem[a].Rec().param))];
      var p := peons[r];
      peons := peons[r := p.(wait := Extract(p.wait, a), count := p.count - 1)];
      place := place[a := Gone];
      mem := mem - {a};
      assert Heap() == old(Heap()) - {a};
      assert peons == Drop(old(Abs()), r, a).peons;
    }

    /** Moves a task from the wait list of `r` to its processing list, for worker `w`. */
    method StartTask(r: PeonId, w: nat, a: Addr, now: int)
      requires a in mem && a in place && place[a] == Wait(r) && r in peons
      modifies this
      ensures Abs() == Start(old(Abs()), r, w, a, now)
      ensures mem == old(mem)
    {
      log := log + [Event(Dispatch(now, peons[r].restrain), a, r, mem[a].Rec(), a in inherited, pending,
                          Batches(Abs(), mem[a].Rec().param))];
      var p := peons[r];
      peons := peons[r := p.(wait := Extract(p.wait, a), proc := p.proc + [a], busy := p.busy[w := a])];
      place := place[a := Proc(r)];
      assert Heap() == old(Heap()) == old(Heap())[a := old(Heap())[a]];
      assert peons == Start(old(Abs()), r, w, a, now).peons;
    }

    /** peon_task_restrain_timeout */
    method RestrainTimeout(task: PeonTask, restrain: nat, now: int) returns (expired: bool)
      ensures expired == TimeOut(task.Rec(), restrain, now)
    {
      if restrain == 0 || now < task.tm || now >= task.tm + restrain {
        expired := now >= task.nextRun;
      } else {
        expired := false;
      }
    }

    /** History only: that the task was put off. */
    ghost method NoteDeferral(r: PeonId, a: Addr, older: set<nat>)
      requires a in mem
      modifies this`deferred
      ensures Abs() == PutOff(old(Abs()), r, a, older)
    {
      deferred := PutOff(Abs(), r, a, older).deferred;
      assert Heap() == old(Heap());
    }

    /** One turn of the loop of peon_task_get. */
    method VisitTask(r: PeonId, w: nat, a: Addr, now: int) returns (v: Verdict)
      requires Valid() && Ready(Abs(), r, w) && a in mem && a in place && place[a] == Wait(r)
      modifies this, mem.Values
      ensures Valid() && Abs() == Visit(old(Abs()), r, w, a, now).0 && v == Visit(old(Abs()), r, w, a, now).1
      ensures mem.Values <= old(mem.Values)
    {
      hide Inv, Drop, Start, Defers, Discards, Kill;
      ghost var s := Abs();
      VisitInv(s, r, w, a, now);
      var p := mem[a];
      assert p.Rec() == s.heap[a];
      if p.state == Dead {
        DropTask(r, a);
        v := Discard;
      } else {
        var wait, discard := ActionJudge(KindOf(r), p);
        if wait {
          v := Skip;
          NoteDeferral(r, a, Blockers(s, KindOf(r), s.heap[a]));
        } else if discard {
          DropTask(r, a);
          v := Discard;
        } else {
          var expired := RestrainTimeout(p, peons[r].restrain, now);
          if expired {
            StartTask(r, w, a, now);
            v := Chosen;
          } else {
            v := Skip;
          }
        }
      }
    }

    /** The loop of peon_task_get. */
    method TaskPass(r: PeonId, w: nat, clock: Addr -> int) returns (found: bool)
      requires Valid() && Ready(Abs(), r, w)
      modifies this, mem.Values
      ensures Valid() && (Abs(), found) == Pass(old(Abs()), r, w, old(peons)[r].wait, clock)
    {
      hide Inv, Visit, AllAt;
      ghost var s := Abs();
      WaitAllAt(s, r);
      found := false;
      var todo := peons[r].wait;
      while todo != [] && !found
        invariant Valid() && mem.Values <= old(mem.Values)
        invariant !found ==> Ready(Abs(), r, w) && AllAt(Abs(), todo, Wait(r))
        invariant !found ==> Pass(Abs(), r, w, todo, clock) == Pass(s, r, w, s.peons[r].wait, clock)
        invariant found ==> (Abs(), true) == Pass(s, r, w, s.peons[r].wait, clock)
        decreases |todo|, !found
      {
        ghost var s0 := Abs();
        var a := todo[0];
        AllAtFirst(s0, todo, Wait(r));
        VisitFrame(s0, r, w, a, clock(a));
        var v := VisitTask(r, w, a, clock(a));
        if v == Chosen {
          found := true;
        } else {
          AllAtRest(s0, Abs(), todo, Wait(r), Gone);
          ReadyStays(s0, Abs(), r, w);
          todo := todo[1..];
        }
      }
    }

    /** peon_task_get: hands the first task of the wait list whose turn it is, if any, to worker `w`. */
    method TaskGet(r: PeonId, w: nat, clock: Addr -> int) returns (found: bool)
      requires Valid() && Ready(Abs(), r, w) && peons[r].stage == (if r.Dyn? then Spawned else Serving)
      modifies this, mem.Values
      ensures Valid() && (Abs(), found) == GetTask(old(Abs()), r, w, clock)
    {
      hide Inv, Pass;
      ghost var s := Abs();
      GetInv(s, r, w, clock);
      found := TaskPass(r, w, clock);
      SetStageOf(r, if found then Serving else Closing);
    }

    /** A dynamic peon goes to its next stage. */
    method SetStageOf(r: PeonId, stage: Stage)
      requires Distinct()
      modifies this
      ensures mem == old(mem) && Distinct()
      ensures Abs() == if r.Dyn? then SetStage(old(Abs()), r, stage) else old(Abs())
    {
      if r.Dyn? && r in peons {
        peons := peons[r := peons[r].(stage := stage)];
      }
    }

    // ---------- peon_task_complete ----------

    /** The task in the hands of worker `w` of `r` is put back, to be tried again later. */
    method RetryTask(r: PeonId, w: nat, a: Addr, now: int)
      requires Distinct() && Handling(Abs(), r, w, a)
      modifies this, mem[a]
      ensures mem == old(mem) && Distinct()
      ensures Abs() == LayDown(old(Abs()), r, w, Retry(now), a, Wait(r),
                               old(mem[a].Rec()).(nextRun := now + RETRY_INTERVAL))
    {
      hide Extract, Attach, Detach;
      ghost var s := Abs();
      RetryPeons(s, r, w, a, now);
      log := log + [Event(Retry(now), a, r, mem[a].Rec(), a in inherited, pending, Batches(Abs(), mem[a].Rec().param))];
      var p := peons[r];
      peons := peons[r := p.(proc := Extract(p.proc, a), wait := p.wait + [a], busy := p.busy - {w},
                             count := p.count - 1)];
      place := place[a := Wait(r)];
      mem[a].nextRun := now + RETRY_INTERVAL;
      assert Heap() == s.heap[a := s.heap[a].(nextRun := now + RETRY_INTERVAL)];
    }

    /** peon_move_task_to_recheck */
    method MoveTaskToRecheck(w: nat, a: Addr)
      requires Distinct() && Handling(Abs(), Conn, w, a) && Recheck in peons
      modifies this, mem[a]
      ensures mem == old(mem) && Distinct()
      ensures Abs() == LayDown(old(Abs()), Conn, w, Settle, a, Wait(Recheck), old(mem[a].Rec()).(sn := 0))
    {
      hide Extract, Attach, Detach;
      ghost var s := Abs();
      SettlePeons(s, w, a);
      log := log + [Event(Settle, a, Conn, mem[a].Rec(), a in inherited, pending, Batches(Abs(), mem[a].Rec().param))];
      var p, q := peons[Conn], peons[Recheck];
      peons := peons[Recheck := q.(wait := q.wait + [a])]
                    [Conn := p.(proc := Extract(p.proc, a), busy := p.busy - {w}, count := p.count - 1)];
      place := place[a := Wait(Recheck)];
      mem[a].sn := 0;
      assert Heap() == s.heap[a := s.heap[a].(sn := 0)];
    }

    /** The task in the hands of worker `w` of `r` is freed. */
    method ReleaseTask(r: PeonId, w: nat, a: Addr)
      requires Distinct() && Handling(Abs(), r, w, a)
      modifies this
      ensures Distinct()
      ensures Abs() == LayDown(old(Abs()), r, w, Free, a, Gone, old(mem[a].Rec()))
    {
      ghost var s := Abs();
      log := log + [Event(Free, a, r, mem[a].Rec(), a in inherited, pending, Batches(Abs(), mem[a].Rec().param))];
      var p := peons[r];
      peons := peons[r := p.(proc := Extract(p.proc, a), busy := p.busy - {w}, count := p.count - 1)];
      place := place[a := Gone];
      mem := mem - {a};
      assert Heap() == s.heap - {a};
      ReleasePeons(s, r, w, a);
    }

    /** peon_task_complete, `failed` being the verdict of the handler. */
    method TaskComplete(r: PeonId, w: nat, failed: bool, now: int)
      requires Valid() && r in peons && r != Recheck && w in peons[r].busy
      modifies this, mem.Values
      ensures Valid() && Abs() == CompleteTask(old(Abs()), r, w, failed, now)
    {
      hide Inv, LayDown;
      ghost var s := Abs();
      CompleteInv(s, r, w, failed, now);
      HandlingBusy(s, r, w);
      StaticsServe(s);
      var a := peons[r].busy[w];
      assert a in s.heap && mem[a].Rec() == s.heap[a];
      if mem[a].state == Live && failed {
        RetryTask(r, w, a, now);
      } else if mem[a].state == Live && r == Conn {
        MoveTaskToRecheck(w, a);
      } else {
        ReleaseTask(r, w, a);
      }
      SetStageOf(r, Closing);
    }

    // ---------- peon_run_recheck ----------

    /** peon_move_task_to_connect: the task gets a new number, and waits to connect again. */
    method MoveTaskToConnect(a: Addr, now: int)
      requires Distinct() && Conn in peons && Recheck in peons
      requires a in mem && a in place && place[a] == Wait(Recheck)
      modifies this, mem[a]
      ensures mem == old(mem) && Distinct()
      ensures var t := old(mem[a].Rec()).(tm := now, nextRun := 0, sn := old(lastSn) + 1, state := Live);
        Abs() == Move(Note(old(Abs()), Relive, a, Recheck).(lastSn := old(lastSn) + 1), a, Wait(Conn), t)
    {
      hide Extract, Attach, Detach;
      ghost var s := Abs();
      ghost var t := s.heap[a].(tm := now, nextRun := 0, sn := s.lastSn + 1, state := Live);
      RelivePeons(s, Note(s, Relive, a, Recheck).(lastSn := s.lastSn + 1), a, t);
      log := log + [Event(Relive, a, Recheck, mem[a].Rec(), a in inherited, pending,
                          Batches(Abs(), mem[a].Rec().param))];
      var p, q := peons[Recheck], peons[Conn];
      peons := peons[Recheck := p.(wait := Extract(p.wait, a))][Conn := q.(wait := q.wait + [a])];
      place := place[a := Wait(Conn)];
      lastSn := lastSn + 1;
      mem[a].Renew(lastSn, now);
      assert Heap() == s.heap[a := t];
    }

    /** list_del and peon_task_free, for a task that no counter counts. */
    method FreeTask(r: PeonId, a: Addr)
      requires Distinct() && r in peons && a in mem && a in place && place[a] == Wait(r)
      modifies this
      ensures mem == old(mem) - {a} && Distinct()
      ensures Abs() == Move(Note(old(Abs()), Free, a, r), a, Gone, old(mem[a].Rec()))
    {
      ghost var s := Abs();
      log := log + [Event(Free, a, r, mem[a].Rec(), a in inherited, pending, Batches(Abs(), mem[a].Rec().param))];
      peons := peons[r := peons[r].(wait := Extract(peons[r].wait, a))];
      place := place[a := Gone];
      mem := mem - {a};
      assert Heap() == s.heap - {a};
      assert peons == Move(Note(s, Free, a, r), a, Gone, s.heap[a]).peons;
    }

    /** peon_run_recheck: frees the useless tasks, and relives those whose device is `lost`. */
    method RunRecheck(lost: set<Addr>, clock: Addr -> int, issued: Addr -> nat)
      requires Valid() && Recheck in peons
      modifies this, mem.Values
      ensures Valid() && Abs() == RecheckAll(old(Abs()), old(peons)[Recheck].wait, lost, clock, issued)
    {
      hide Inv, AllAt, Move, Meanwhile, RecheckVisit;
      ghost var s := Abs();
      WaitAllAt(s, Recheck);
      var todo := peons[Recheck].wait;
      while todo != []
        invariant Valid() && mem.Values <= old(mem.Values)
        invariant AllAt(Abs(), todo, Wait(Recheck))
        invariant RecheckAll(Abs(), todo, lost, clock, issued)
                  == RecheckAll(s, s.peons[Recheck].wait, lost, clock, issued)
        decreases |todo|
      {
        ghost var s0 := Abs();
        var a := todo[0];
        StaticsServe(s0);
        RecheckTurnInv(s0, todo, lost, clock(a), issued(a));
        OthersIssue(issued(a));
        RecheckTurn(a, lost, clock(a));
        todo := todo[1..];
      }
    }

    /** What other threads may do to the generator while the list lock is held: they issue `k` numbers. */
    method OthersIssue(k: nat)
      requires Distinct()
      modifies this`lastSn, this`pending
      ensures Distinct() && Abs() == Meanwhile(old(Abs()), k)
    {
      ghost var s := Abs();
      pending := pending + NumbersAfter(lastSn, k);
      lastSn := lastSn + k;
      assert Heap() == s.heap;
    }

    /** One turn of the loop of peon_run_recheck. */
    method RecheckTurn(a: Addr, lost: set<Addr>, now: int)
      requires Distinct() && Conn in peons && Recheck in peons
      requires a in mem && a in place && place[a] == Wait(Recheck)
      modifies this, mem.Values
      ensures Distinct() && mem.Values <= old(mem.Values)
      ensures Abs() == RecheckVisit(old(Abs()), a, lost, now)
    {
      hide Move;
      ghost var s := Abs();
      var task := mem[a];
      assert task.Rec() == s.heap[a];
      if task.state == Dead || !task.rechecks {
        FreeTask(Recheck, a);
      } else if a in lost {
        MoveTaskToConnect(a, now);
      }
    }
  
    // ---------- peon_task_add ----------

    constructor (restrain: nat)
      ensures Valid() && Abs() == Init(restrain)
    {
      mem := map[];
      peons := Init(restrain).peons;
      dynNum := 0;
      lastSn := 0;
      pending := {};
      place := map[];
      inherited := {};
      log := [];
      deferred := [];
      new;
      assert Heap() == map[];
      InitInv(restrain);
    }

    /** peon_sn_generate */
    method SnGenerate() returns (sn: nat)
      requires Valid()
      modifies this
      ensures Valid() && Abs() == Next(old(Abs()), Issue)
      ensures sn == old(lastSn) + 1
    {
      hide Inv;
      ghost var s := Abs();
      StaticsServe(s);
      NextInv(s, Issue);
      lastSn := lastSn + 1;
      sn := lastSn;
      pending := pending + {sn};
      assert Heap() == s.heap;
    }

    /**
    The locked part of peon_task_add, for a task object `task` that was made at the new
    address `a`; `spawned` says whether a dynamic peon `d` could be created. A number of
    the caller's own makes the task an inherited one.
    */
    method TaskAdd(r: PeonId, a: Addr, task: PeonTask, spawned: bool, d: nat, restrain: nat, ghost own: bool)
      requires Valid() && r in peons && Working(r) && a !in place && Dyn(d) !in peons
      requires task !in mem.Values && task.state == Live
      requires task.nextRun == 0
      requires if own then Handled(Abs(), task.sn, task.param) && r == Disc else task.sn in pending
      modifies this
      ensures Valid()
      ensures var s0 := if own then old(Abs()).(inherited := old(inherited) + {a})
                        else old(Abs()).(pending := old(pending) - {task.sn});
        Abs() == AddTask(s0, r, a, task.Rec(), spawned, d, restrain)
    {
      hide Inv, Accept;
      ghost var s := Abs();
      ghost var s0 := if own then s.(inherited := inherited + {a}) else s.(pending := pending - {task.sn});
      AddInv(s, s0, r, a, task.Rec(), spawned, d, restrain);
      NotInHeap(s, a);
      if own {
        inherited := inherited + {a};
      } else {
        pending := pending - {task.sn};
      }
      assert Heap() == s.heap;
      if r == Disc && peons[r].count >= WorkerNum(r) && dynNum <= DYN_WORKER_LIMIT && spawned {
        peons := peons[Dyn(d) := NewPeon(restrain, Spawned)];
        dynNum := dynNum + 1;
        assert Heap() == s.heap;
        AcceptTask(Dyn(d), a, task);
      } else {
        AcceptTask(r, a, task);
      }
    }

    /** Appends a new task to the wait list of `r`, counting it in. */
    method AcceptTask(r: PeonId, a: Addr, task: PeonTask)
      requires Distinct() && r in peons && a !in mem && task !in mem.Values
      modifies this
      ensures Distinct() && mem == old(mem)[a := task]
      ensures Abs() == Accept(old(Abs()), r, a, task.Rec())
    {
      ghost var s := Abs();
      var p := peons[r];
      peons := peons[r := p.(wait := p.wait + [a], count := p.count + 1)];
      place := place[a := Wait(r)];
      mem := mem[a := task];
      assert Heap() == s.heap[a := task.Rec()];
      assert peons == Accept(s, r, a, task.Rec()).peons;
    }

    // ---------- The end of a dynamic peon ----------

    /** peon_deconstruct of a dynamic peon: whatever still waits is freed. */
    method Deconstruct(d: nat)
      requires Valid() && Dyn(d) in peons && peons[Dyn(d)].stage == Closing
      modifies this
      ensures Valid()
      ensures Abs() == SetStage(CloseAll(old(Abs()), Dyn(d), old(peons)[Dyn(d)].wait), Dyn(d), Closed)
    {
      ghost var s := Abs();
      CloseInv(s, d);
      hide Inv, AllAt, Move;
      WaitAllAt(s, Dyn(d));
      var todo := peons[Dyn(d)].wait;
      while todo != []
        invariant Distinct() && Inv(Abs()) && Dyn(d) in peons && peons[Dyn(d)].wait == todo
        invariant AllAt(Abs(), todo, Wait(Dyn(d)))
        invariant CloseAll(Abs(), Dyn(d), todo) == CloseAll(s, Dyn(d), s.peons[Dyn(d)].wait)
        decreases |todo|
      {
        ghost var s0 := Abs();
        AllAtFirst(s0, todo, Wait(Dyn(d)));
        CloseOneInv(s0, Dyn(d), todo[0]);
        CloseOneFrame(s0, Dyn(d), todo);
        FreeTask(Dyn(d), todo[0]);
        AllAtRest(s0, Abs(), todo, Wait(Dyn(d)), Gone);
        todo := todo[1..];
      }
      SetStageOf(Dyn(d), Closed);
    }

    /** The last thing a dynamic worker does is to take itself off the count. */
    method ExitDynamic(d: nat)
      requires Valid() && Dyn(d) in peons && peons[Dyn(d)].stage == Closed
      modifies this
      ensures Valid() && Abs() == old(Abs()).(peons := old(peons) - {Dyn(d)}, dynNum := old(dynNum) - 1)
    {
      hide Inv;
      ghost var s := Abs();
      ExitInv(s, d);
      peons := peons - {Dyn(d)};
      dynNum := dynNum - 1;
      assert Heap() == s.heap;
    }
  }
}

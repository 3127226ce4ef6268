/** Runs that show which orders the peon scheduler does not guarantee. */
module PeonExamples {
  import opened Bytes
  import opened PeonModel
  import opened PeonInvariants
  import opened PeonTheorems
  import opened PeonPasses
  import opened PeonDynamics

  lemma ReachInit()
    ensures Reachable(Init(0))
  {
    assert Run(Init(0), [], Init(0));
  }

  // ---------- Single steps, in the form of record updates ----------

  const HOST: Ip := [10, 0, 0, 1, 0, 0, 0, 0, 0, 0, 0, 0, 0, 0, 0, 0]
  const TARGET: Ip := [10, 0, 0, 2, 0, 0, 0, 0, 0, 0, 0, 0, 0, 0, 0, 0]
  const DEVICE := Param(1, AF_INET, 0, HOST, TARGET)

  function Demo(sn: nat): Task {
    Task(sn, Live, 0, 0, DEVICE, true)
  }

  function DemoInsert(r: PeonId, sn: nat, a: Addr, q: Param): Step {
    Insert(r, sn, a, q, true, 0, false, 0, 0)
  }

  lemma InsertFacts(s: State, r: PeonId, sn: nat, a: Addr, q: Param)
    requires HasStatics(s) && Enabled(s, DemoInsert(r, sn, a, q)) && r in s.peons
    ensures var p := s.peons[r];
      Next(s, DemoInsert(r, sn, a, q))
      == s.(peons := s.peons[r := p.(wait := p.wait + [a], count := p.count + 1)], place := s.place[a := Wait(r)],
            heap := s.heap[a := Task(sn, Live, 0, 0, q, true)], pending := s.pending - {sn})
  {
  }

  /** `a` is the only waiting task of `r`, is live, and its time has come. */
  ghost predicate Lone(s: State, r: PeonId, a: Addr, now: int) {
    && r in s.peons && r != Recheck && !r.Dyn? && s.peons[r].wait == [a]
    && a in s.heap && a in s.place && s.place[a] == Wait(r) && s.heap[a].state == Live
    && TimeOut(s.heap[a], s.peons[r].restrain, now)
  }

  ghost function Started(s: State, r: PeonId, w: nat, a: Addr, now: int): State
    requires r in s.peons && a in s.heap
  {
    var p := s.peons[r];
    s.(peons := s.peons[r := p.(wait := [], proc := p.proc + [a], busy := p.busy[w := a])],
       place := s.place[a := Proc(r)], log := Note(s, Dispatch(now, p.restrain), a, r).log)
  }

  lemma StartFacts(s: State, r: PeonId, w: nat, a: Addr, now: int)
    requires r in s.peons && s.peons[r].wait == [a] && a in s.heap && a in s.place && s.place[a] == Wait(r)
    ensures Start(s, r, w, a, now) == Started(s, r, w, a, now)
  {
    assert Extract([a], a) == [];
    assert s.heap[a := s.heap[a]] == s.heap;
  }

  /** A lone task without rivals is handed out. */
  lemma LoneTask(s: State, r: PeonId, w: nat, a: Addr, now: int, clock: Addr -> int)
    requires Lone(s, r, a, now) && clock(a) == now
    requires forall x :: Rival(s, KindOf(r), s.heap[a], x) ==> x == a
    ensures GetTask(s, r, w, clock).0 == Started(s, r, w, a, now)
  {
    hide Start, Match;
    assert Kill(s, KindOf(r), s.heap[a]).heap == s.heap;
    StartFacts(s, r, w, a, now);
  }

  /** A lone task kills its only rival `b`, an older one, and is handed out unless `b` is being handled. */
  lemma LoneRival(s: State, r: PeonId, w: nat, a: Addr, b: Addr, now: int, clock: Addr -> int)
    requires Lone(s, r, a, now) && clock(a) == now
    requires a != b && Rival(s, KindOf(r), s.heap[a], b) && s.heap[b].sn < s.heap[a].sn
    requires forall x :: Rival(s, KindOf(r), s.heap[a], x) ==> x == a || x == b
    ensures var s1 := s.(heap := s.heap[b := s.heap[b].(state := Dead)]);
      GetTask(s, r, w, clock).0
      == if s.place[b].Proc? then PutOff(s1, r, a, {s.heap[b].sn}) else Started(s1, r, w, a, now)
  {
    hide Start, Drop, Match;
    var k, t := KindOf(r), s.heap[a];
    var s1 := s.(heap := s.heap[b := s.heap[b].(state := Dead)]);
    assert Kill(s, k, t).heap == s1.heap;
    assert Defers(s, k, t) <==> s.place[b].Proc?;
    assert s.place[b].Proc? ==> Blockers(s, k, t) == {s.heap[b].sn};
    assert !Discards(s, k, t);
    StartFacts(s1, r, w, a, now);
    hide Kill, Defers, Discards, Rival, Started, Blockers;
    assert [a][1..] == [];
    var s2 := PutOff(s1, r, a, {s.heap[b].sn});
    assert Pass(s2, r, w, [], clock) == (s2, false);
    assert Visit(s, r, w, a, now).0 == if s.place[b].Proc? then s2 else Started(s1, r, w, a, now);
  }

  /** `s'` is one step after the reachable state `s`, and reachable. */
  ghost predicate Leads(s: State, s': State) {
    Reachable(s) && HasStatics(s) ==> Reachable(s') && HasStatics(s')
  }

  lemma LeadsBy(s: State, e: Step)
    requires HasStatics(s) ==> Enabled(s, e)
    ensures HasStatics(s) ==> Leads(s, Next(s, e))
  {
    hide Next, Enabled;
    if Reachable(s) && HasStatics(s) {
      ReachStep(s, e);
      ReachableInv(Next(s, e));
    }
  }

  lemma LeadsIssue(s: State)
    requires HasStatics(s)
    ensures Leads(s, s.(lastSn := s.lastSn + 1, pending := s.pending + {s.lastSn + 1}))
  {
    hide Leads;
    LeadsBy(s, Issue);
  }

  lemma LeadsInsert(s: State, r: PeonId, sn: nat, a: Addr, q: Param)
    requires HasStatics(s) && Enabled(s, DemoInsert(r, sn, a, q)) && r in s.peons
    ensures var p := s.peons[r];
      Leads(s, s.(peons := s.peons[r := p.(wait := p.wait + [a], count := p.count + 1)], place := s.place[a := Wait(r)],
                  heap := s.heap[a := Task(sn, Live, 0, 0, q, true)], pending := s.pending - {sn}))
  {
    hide Leads, Next;
    LeadsBy(s, DemoInsert(r, sn, a, q));
    InsertFacts(s, r, sn, a, q);
  }

  lemma LeadsStart(s: State, r: PeonId, a: Addr, now: int)
    requires HasStatics(s) && Lone(s, r, a, now) && s.peons[r].busy == map[] && s.peons[r].stage == Serving
    requires forall x :: Rival(s, KindOf(r), s.heap[a], x) ==> x == a
    ensures Leads(s, Started(s, r, 0, a, now))
  {
    hide Leads, Rival, GetTask, Started;
    var clock := (x: Addr) => now;
    LeadsBy(s, Get(r, 0, clock));
    LoneTask(s, r, 0, a, now, clock);
  }

  lemma LeadsRival(s: State, r: PeonId, a: Addr, b: Addr, now: int)
    requires HasStatics(s) && Lone(s, r, a, now) && s.peons[r].busy == map[] && s.peons[r].stage == Serving
    requires a != b && Rival(s, KindOf(r), s.heap[a], b) && s.heap[b].sn < s.heap[a].sn
    requires forall x :: Rival(s, KindOf(r), s.heap[a], x) ==> x == a || x == b
    ensures var s1 := s.(heap := s.heap[b := s.heap[b].(state := Dead)]);
      Leads(s, if s.place[b].Proc? then PutOff(s1, r, a, {s.heap[b].sn}) else Started(s1, r, 0, a, now))
  {
    hide Leads, Rival, GetTask, Started;
    var clock := (x: Addr) => now;
    LeadsBy(s, Get(r, 0, clock));
    LoneRival(s, r, 0, a, b, now, clock);
  }

  lemma LeadsFree(s: State, r: PeonId, a: Addr)
    requires HasStatics(s) && r in s.peons && r != Recheck && r != Conn && !r.Dyn?
    requires s.peons[r].proc == [a] && s.peons[r].busy == map[0 := a]
    requires a in s.heap && a in s.place && s.place[a] == Proc(r)
    ensures var p := s.peons[r];
      Leads(s, s.(peons := s.peons[r := p.(proc := [], busy := map[], count := p.count - 1)],
                  place := s.place[a := Gone], heap := s.heap - {a}, log := Note(s, Free, a, r).log))
  {
    hide Leads;
    LeadsBy(s, Complete(r, 0, false, 0));
    assert Extract([a], a) == [] && map[0 := a] - {0} == map[];
    var p := s.peons[r];
    assert Next(s, Complete(r, 0, false, 0)).peons
        == s.peons[r := p.(proc := [], busy := map[], count := p.count - 1)];
  }

  lemma LeadsSettle(s: State, a: Addr)
    requires HasStatics(s) && s.peons[Conn].proc == [a] && s.peons[Conn].busy == map[0 := a]
    requires a in s.heap && a in s.place && s.place[a] == Proc(Conn) && s.heap[a].state == Live
    ensures var p, q := s.peons[Conn], s.peons[Recheck];
      Leads(s, s.(peons := s.peons[Recheck := q.(wait := q.wait + [a])]
                                  [Conn := p.(proc := [], busy := map[], count := p.count - 1)],
                  place := s.place[a := Wait(Recheck)], heap := s.heap[a := s.heap[a].(sn := 0)],
                  log := Note(s, Settle, a, Conn).log))
  {
    hide Leads;
    LeadsBy(s, Complete(Conn, 0, false, 0));
    assert Extract([a], a) == [] && map[0 := a] - {0} == map[];
    var p, q := s.peons[Conn], s.peons[Recheck];
    assert Next(s, Complete(Conn, 0, false, 0)).peons
        == s.peons[Recheck := q.(wait := q.wait + [a])][Conn := p.(proc := [], busy := map[], count := p.count - 1)];
  }

  function DemoInherit(sn: nat, a: Addr): Step {
    Inherit(sn, a, DEVICE, true, 0, false, 0, 0)
  }

  lemma LeadsInherit(s: State, sn: nat, a: Addr)
    requires HasStatics(s) && Enabled(s, DemoInherit(sn, a))
    ensures var p := s.peons[Disc];
      Leads(s, s.(peons := s.peons[Disc := p.(wait := p.wait + [a], count := p.count + 1)],
                  place := s.place[a := Wait(Disc)],
                  heap := s.heap[a := Demo(sn)], inherited := s.inherited + {a}))
  {
    hide Leads;
    LeadsBy(s, DemoInherit(sn, a));
    var p := s.peons[Disc];
    assert Next(s, DemoInherit(sn, a)).peons == s.peons[Disc := p.(wait := p.wait + [a], count := p.count + 1)];
  }

  // ---------- A connect may start while a disconnect of its device is still being handled ----------

  lemma OverlapFirst() returns (s: State)
    ensures Reachable(s) && HasStatics(s)
    ensures s.heap == map[0 := Demo(1)] && s.place == map[0 := Proc(Disc)] && s.lastSn == 1 && s.pending == {}
    ensures s.peons[Disc].proc == [0] && s.peons[Disc].count == 1
    ensures s.peons[Conn] == Init(0).peons[Conn] && Dyn(0) !in s.peons
  {
    hide Reachable, Match;
    var s0 := Init(0);
    ReachInit();
    LeadsIssue(s0);
    var s1 := s0.(lastSn := 1, pending := {1});
    assert s0.pending + {1} == {1};
    LeadsInsert(s1, Disc, 1, 0, DEVICE);
    var p := s1.peons[Disc];
    var s2 := s1.(peons := s1.peons[Disc := p.(wait := p.wait + [0], count := p.count + 1)],
                  place := s1.place[0 := Wait(Disc)],
                  heap := s1.heap[0 := Demo(1)], pending := s1.pending - {1});
    LeadsStart(s2, Disc, 0, 3);
    s := Started(s2, Disc, 0, 0, 3);
  }

  /** A connect is handed out while a disconnect of its device is in the hands of a worker. */
  lemma Overlap() returns (s: State)
    ensures Reachable(s) && HasStatics(s)
    ensures s.peons[Disc].proc == [0] && s.peons[Conn].proc == [1]
    ensures 0 in s.heap && 1 in s.heap && Match(s.heap[0].param, s.heap[1].param, false)
  {
    hide Reachable;
    var s3 := OverlapFirst();
    LeadsIssue(s3);
    var s4 := s3.(lastSn := 2, pending := {2});
    assert s3.pending + {2} == {2};
    LeadsInsert(s4, Conn, 2, 1, DEVICE);
    var p := s4.peons[Conn];
    var s5 := s4.(peons := s4.peons[Conn := p.(wait := p.wait + [1], count := p.count + 1)],
                  place := s4.place[1 := Wait(Conn)],
                  heap := s4.heap[1 := Demo(2)], pending := s4.pending - {2});
    LeadsRival(s5, Conn, 1, 0, 3);
    var s6 := PutOff(s5.(heap := s5.heap[0 := s5.heap[0].(state := Dead)]), Conn, 1, {1});
    LeadsStart(s6, Conn, 1, 3);
    s := Started(s6, Conn, 0, 1, 3);
  }

  // ---------- Dispatches against the order of the serial numbers ----------

  /** Two numbers are issued; the task of the second is inserted, and served, first. */
  lemma LateFirst() returns (s: State)
    ensures Reachable(s) && HasStatics(s)
    ensures s.heap == map[] && s.place == map[0 := Gone] && s.lastSn == 2 && s.pending == {1} && s.inherited == {}
    ensures s.peons[Conn] == Init(0).peons[Conn] && Dyn(0) !in s.peons
    ensures |s.log| == 2 && s.log[0] == Event(Dispatch(3, 0), 0, Disc, Demo(2), false, {1}, {}) && s.log[1].what == Free
  {
    hide Reachable, Match;
    var s0 := Init(0);
    ReachInit();
    LeadsIssue(s0);
    var s1 := s0.(lastSn := 1, pending := {1});
    assert s0.pending + {1} == {1};
    LeadsIssue(s1);
    var s2 := s1.(lastSn := 2, pending := {1, 2});
    assert s1.pending + {2} == {1, 2};
    LeadsInsert(s2, Disc, 2, 0, DEVICE);
    var p := s2.peons[Disc];
    var s3 := s2.(peons := s2.peons[Disc := p.(wait := p.wait + [0], count := p.count + 1)],
                  place := s2.place[0 := Wait(Disc)],
                  heap := s2.heap[0 := Demo(2)], pending := s2.pending - {2});
    assert s3.pending == {1};
    LeadsStart(s3, Disc, 0, 3);
    var s4 := Started(s3, Disc, 0, 0, 3);
    LeadsFree(s4, Disc, 0);
    var q := s4.peons[Disc];
    s := s4.(peons := s4.peons[Disc := q.(proc := [], busy := map[], count := q.count - 1)],
             place := s4.place[0 := Gone], heap := s4.heap - {0}, log := Note(s4, Free, 0, Disc).log);
  }

  /** A number issued early and inserted late is served after a larger one. */
  lemma LateInsertion() returns (s: State)
    ensures Reachable(s)
    ensures exists i, j :: 0 <= i < j < |s.log| && Follows(s.log[i], s.log[j]) && s.log[j].task.sn < s.log[i].task.sn
  {
    hide Reachable;
    var s5 := LateFirst();
    LeadsInsert(s5, Conn, 1, 1, DEVICE);
    var p := s5.peons[Conn];
    var s6 := s5.(peons := s5.peons[Conn := p.(wait := p.wait + [1], count := p.count + 1)],
                  place := s5.place[1 := Wait(Conn)],
                  heap := s5.heap[1 := Demo(1)], pending := s5.pending - {1});
    LeadsStart(s6, Conn, 1, 3);
    s := Started(s6, Conn, 0, 1, 3);
    assert Follows(s.log[0], s.log[2]);
  }

  // ---------- A batch, and the number it hands on ----------

  const NOBODY: Ip := [0, 0, 0, 0, 0, 0, 0, 0, 0, 0, 0, 0, 0, 0, 0, 0]
  const WHOLE_HOST := Param(1, AF_INET, 0, HOST, NOBODY)

  function DemoBatch(state: Life): Task {
    Task(1, state, 0, 0, WHOLE_HOST, true)
  }

  /** A batch for the whole host is handed out. */
  lemma BatchFirst() returns (s: State)
    ensures Reachable(s) && HasStatics(s)
    ensures s.heap == map[0 := DemoBatch(Live)] && s.place == map[0 := Proc(Dcb)] && s.lastSn == 1
    ensures s.pending == {} && s.inherited == {}
    ensures s.peons == Init(0).peons[Dcb := s.peons[Dcb]]
    ensures |s.log| == 1 && Ran(s.log[0])
  {
    hide Reachable, Match;
    var s0 := Init(0);
    ReachInit();
    LeadsIssue(s0);
    var s1 := s0.(lastSn := 1, pending := {1});
    assert s0.pending + {1} == {1};
    LeadsInsert(s1, Dcb, 1, 0, WHOLE_HOST);
    var p := s1.peons[Dcb];
    var s2 := s1.(peons := s1.peons[Dcb := p.(wait := p.wait + [0], count := p.count + 1)],
                  place := s1.place[0 := Wait(Dcb)],
                  heap := s1.heap[0 := DemoBatch(Live)], pending := s1.pending - {1});
    LeadsStart(s2, Dcb, 0, 0);
    s := Started(s2, Dcb, 0, 0, 0);
  }

  /** A connect to one target kills the batch for its whole host, while that is being handled. */
  lemma BatchKilled() returns (s: State)
    ensures Reachable(s) && HasStatics(s)
    ensures s.heap == map[0 := DemoBatch(Dead), 1 := Demo(2)] && s.place == map[0 := Proc(Dcb), 1 := Wait(Conn)]
    ensures s.lastSn == 2 && s.pending == {} && s.inherited == {}
    ensures s.peons[Conn] == Init(0).peons[Conn].(wait := [1], count := 1)
    ensures s.peons[Disc] == Init(0).peons[Disc] && s.peons[Recheck] == Init(0).peons[Recheck] && Dyn(0) !in s.peons
    ensures !Match(s.heap[0].param, s.heap[1].param, false)
    ensures |s.log| == 1 && Ran(s.log[0])
  {
    hide Reachable;
    var s3 := BatchFirst();
    LeadsIssue(s3);
    var s4 := s3.(lastSn := 2, pending := {2});
    assert s3.pending + {2} == {2};
    LeadsInsert(s4, Conn, 2, 1, DEVICE);
    var p := s4.peons[Conn];
    var s5 := s4.(peons := s4.peons[Conn := p.(wait := p.wait + [1], count := p.count + 1)],
                  place := s4.place[1 := Wait(Conn)],
                  heap := s4.heap[1 := Demo(2)], pending := s4.pending - {2});
    LeadsRival(s5, Conn, 1, 0, 3);
    s := PutOff(s5.(heap := s5.heap[0 := s5.heap[0].(state := Dead)]), Conn, 1, {1});
  }

  /** Then the connect is served, and parked for rechecking with the number 0. */
  lemma SettledFirst() returns (s: State)
    ensures Reachable(s) && HasStatics(s)
    ensures s.heap == map[0 := DemoBatch(Dead), 1 := Demo(0)] && s.place == map[0 := Proc(Dcb), 1 := Wait(Recheck)]
    ensures s.lastSn == 2 && s.inherited == {}
    ensures s.peons[Disc] == Init(0).peons[Disc] && Dyn(0) !in s.peons
    ensures |s.log| == 3 && s.log[1] == Event(Dispatch(3, 3), 1, Conn, Demo(2), false, {}, {1})
            && s.log[2].what == Settle
  {
    hide Reachable;
    var s6 := BatchKilled();
    LeadsStart(s6, Conn, 1, 3);
    var s7 := Started(s6, Conn, 0, 1, 3);
    assert Batches(s6, DEVICE) == {1};
    LeadsSettle(s7, 1);
    var c, r := s7.peons[Conn], s7.peons[Recheck];
    s := s7.(peons := s7.peons[Recheck := r.(wait := r.wait + [1])]
                              [Conn := c.(proc := [], busy := map[], count := c.count - 1)],
             place := s7.place[1 := Wait(Recheck)], heap := s7.heap[1 := s7.heap[1].(sn := 0)],
             log := Note(s7, Settle, 1, Conn).log);
  }

  /** The batch, still being handled, hands its number on to a disconnect of that device. */
  lemma Inherited() returns (s: State)
    ensures Reachable(s) && HasStatics(s)
    ensures s.heap == map[0 := DemoBatch(Dead), 1 := Demo(0), 2 := Demo(1)]
    ensures s.place == map[0 := Proc(Dcb), 1 := Wait(Recheck), 2 := Wait(Disc)] && 2 in s.inherited
    ensures s.peons[Disc] == Init(0).peons[Disc].(wait := [2], count := 1)
    ensures |s.log| == 3 && s.log[1] == Event(Dispatch(3, 3), 1, Conn, Demo(2), false, {}, {1})
            && s.log[2].what == Settle
  {
    hide Reachable;
    var s8 := SettledFirst();
    assert s8.heap[0].sn == 1 && s8.place[0] == Proc(Dcb) && Match(s8.heap[0].param, DEVICE, true);
    LeadsInherit(s8, 1, 2);
    var p := s8.peons[Disc];
    s := s8.(peons := s8.peons[Disc := p.(wait := p.wait + [2], count := p.count + 1)],
             place := s8.place[2 := Wait(Disc)],
             heap := s8.heap[2 := Demo(1)], inherited := s8.inherited + {2});
  }

  /** The disconnect is served after the newer connect, and kills it. */
  lemma InheritedKills() returns (s: State)
    ensures Reachable(s)
    ensures |s.log| == 4 && s.log[3].inherited && Follows(s.log[1], s.log[3])
    ensures s.log[3].task.sn < s.log[1].task.sn && s.log[3].task.sn in s.log[1].batches
    ensures s.log[1].r == Conn && s.log[1].a in s.heap && s.heap[s.log[1].a].state == Dead
  {
    hide Reachable;
    var s9 := Inherited();
    LeadsRival(s9, Disc, 2, 1, 3);
    s := Started(s9.(heap := s9.heap[1 := s9.heap[1].(state := Dead)]), Disc, 0, 2, 3);
  }

  // ---------- A dynamic peon ----------

  /** `n` disconnects of one device wait in the pool, and nothing else has happened. */
  ghost predicate Crowded(s: State, n: nat) {
    && Reachable(s) && HasStatics(s) && s.lastSn == n && s.pending == {} && s.dynNum == 0 && Dyn(0) !in s.peons
    && s.peons[Disc].count == n
    && forall a :: a in s.place ==> a < n && s.place[a] == Wait(Disc)
  }

  lemma {:induction false} Crowd(n: nat) returns (s: State)
    ensures Crowded(s, n)
  {
    hide Reachable;
    if n == 0 {
      ReachInit();
      s := Init(0);
    } else {
      var s0 := Crowd(n - 1);
      LeadsIssue(s0);
      var s1 := s0.(lastSn := n, pending := {n});
      assert s0.pending + {n} == {n};
      LeadsInsert(s1, Disc, n, n - 1, DEVICE);
      var p := s1.peons[Disc];
      s := s1.(peons := s1.peons[Disc := p.(wait := p.wait + [n - 1], count := p.count + 1)],
               place := s1.place[n - 1 := Wait(Disc)], heap := s1.heap[n - 1 := Demo(n)], pending := s1.pending - {n});
      assert s.pending == {};
    }
  }

  /** The disconnect that finds sixteen before it gets a peon of its own, with itself as the only task. */
  lemma Spawning() returns (s: State)
    ensures Reachable(s) && HasStatics(s) && Enabled(s, Get(Dyn(0), 0, (x: Addr) => 0))
    ensures s.dynNum == 1 && s.peons[Dyn(0)].wait == [16] && 16 in s.heap && s.heap[16] == Demo(17)
    ensures 16 in s.place && s.place[16] == Wait(Dyn(0)) && s.peons[Dyn(0)].restrain == 0
    ensures forall a :: a in s.place && a != 16 ==> s.place[a] == Wait(Disc)
  {
    hide Reachable;
    var s0 := Crowd(16);
    LeadsIssue(s0);
    var s1 := s0.(lastSn := 17, pending := {17});
    assert s0.pending + {17} == {17};
    var e := Insert(Disc, 17, 16, DEVICE, true, 0, true, 0, 0);
    LeadsBy(s1, e);
    s := Next(s1, e);
    assert [] + [16] == [16];
  }

  /** It is served there in the one pass of that peon, before the sixteen that wait. */
  lemma DynamicServes() returns (s: State)
    ensures Reachable(s) && s.log != []
    ensures var e := s.log[|s.log| - 1]; Ran(e) && e.r == Dyn(0) && e.task == Demo(17)
    ensures forall a :: a in s.place && a != 16 ==> s.place[a] == Wait(Disc)
  {
    hide Reachable, GetTask, Match, Visit, Unrivalled;
    var s0 := Spawning();
    var clock := (x: Addr) => 0;
    assert Unrivalled(s0, Dyn(0), 16, 0) by {
      SpawnedAlone(s0);
    }
    VisitServes(s0, Dyn(0), 0, 16, 0);
    GetDynamic(s0, clock);
    ReachStep(s0, Get(Dyn(0), 0, clock));
    s := Next(s0, Get(Dyn(0), 0, clock));
  }

  lemma SpawnedAlone(s: State)
    requires Dyn(0) in s.peons && s.peons[Dyn(0)].restrain == 0 && 16 in s.heap && 16 in s.place
             && s.heap[16] == Demo(17)
    requires s.place[16] == Wait(Dyn(0)) && forall a :: a in s.place && a != 16 ==> s.place[a] == Wait(Disc)
    ensures Unrivalled(s, Dyn(0), 16, 0)
  {
    hide Match;
  }

  lemma GetDynamic(s: State, clock: Addr -> int)
    requires Dyn(0) in s.peons && s.peons[Dyn(0)].wait == [16] && 16 in s.heap && 16 in s.place
    ensures var t, u := GetTask(s, Dyn(0), 0, clock).0, Visit(s, Dyn(0), 0, 16, clock(16)).0;
      t.place == u.place && t.log == u.log
  {
    hide Visit;
    OnePass(s, Dyn(0), 16, clock);
  }
}

/**
The peon task scheduler as a step system over one value. Every section that the
program runs under its global list lock is one function from state to state.

Tasks live at addresses, in a heap; the lists of a peon hold addresses. Besides what
the program keeps, a state carries history: where each task ever accepted is now, which
tasks were added as inherited, the serial numbers issued but not yet inserted, a log of
what was done to tasks, and the judgements that put one off. No step reads the history
except `place`, and the invariants tie `place` to the contents of the lists.
*/
module PeonModel {
  import opened Bytes

  type Addr = nat

  datatype Param = Param(protocol: int, family: int, portId: int, hostIp: Ip, targetIp: Ip)

  /** peon_task_match: same host (`byHost`), or same host and same target. */
  predicate Match(p: Param, q: Param, byHost: bool) {
    && p.protocol == q.protocol
    && p.family == q.family
    && IpMatch(p.family, p.hostIp, q.hostIp)
    && (byHost || (p.portId == q.portId && IpMatch(p.family, p.targetIp, q.targetIp)))
  }

  datatype Life = Live | Dead

  datatype Task = Task(sn: nat, state: Life, tm: int, nextRun: int, param: Param, rechecks: bool)

  /** The four static peons and any number of one-shot dynamic disconnect peons. */
  datatype PeonId = Conn | Disc | Dcb | Recheck | Dyn(d: nat)

  datatype Kind = Connect | Disconnect | Batch

  function KindOf(r: PeonId): Kind
    requires r != Recheck
  {
    match r
    case Conn => Connect
    case Dcb => Batch
    case _ => Disconnect
  }

  /** The static peons whose workers take tasks off their lists. */
  predicate Working(r: PeonId) {
    r == Conn || r == Disc || r == Dcb
  }

  const DISCONN_WORKERS := 16
  const DYN_WORKER_LIMIT := 512
  const RETRY_INTERVAL := 60
  const DEFAULT_RESTRAIN := 3

  function WorkerNum(r: PeonId): nat {
    if r == Disc then DISCONN_WORKERS else 1
  }

  /** A dynamic peon is spawned, makes one pass, and then closes and exits. */
  datatype Stage = Serving | Spawned | Closing | Closed

  predicate Ending(stage: Stage) {
    stage == Closing || stage == Closed
  }

  /** `busy` maps the index of a worker to the task it is handling. */
  datatype Peon = Peon(wait: seq<Addr>, proc: seq<Addr>, count: int, restrain: nat,
                       busy: map<nat, Addr>, stage: Stage)

  datatype Place = Wait(r: PeonId) | Proc(r: PeonId) | Gone

  /** Dispatches and retries carry the reading of the clock, dispatches the restrain time in force too. */
  datatype What = Dispatch(at: int, restrain: nat) | Retry(at: int) | Settle | Relive | Free

  /**
  What was done to a task, with the task as it was just before, and with the numbers that were
  pending then, and those of the batches that were being handled for its host.
  */
  datatype Event = Event(what: What, a: Addr, r: PeonId, task: Task, inherited: bool, pending: set<nat>,
                         batches: set<nat>)

  /**
  A judgement that put a task off, with the numbers of the older rivals that were being handled,
  and with what an event records.
  */
  datatype Deferral = Deferral(a: Addr, r: PeonId, task: Task, inherited: bool, pending: set<nat>,
                               batches: set<nat>, older: set<nat>)

  datatype State = State(
    heap: map<Addr, Task>,
    peons: map<PeonId, Peon>,
    dynNum: int,
    lastSn: nat,
    pending: set<nat>,
    place: map<Addr, Place>,
    inherited: set<Addr>,
    log: seq<Event>,
    deferred: seq<Deferral>)

  function NewPeon(restrain: nat, stage: Stage): Peon {
    Peon([], [], 0, restrain, map[], stage)
  }

  function Init(restrain: nat): State {
    State(map[],
          map[Conn := NewPeon(if restrain > 0 then 0 else DEFAULT_RESTRAIN, Serving),
              Disc := NewPeon(restrain, Serving),
              Dcb := NewPeon(0, Serving),
              Recheck := NewPeon(0, Serving)],
          0, 0, {}, map[], {}, [], [])
  }

  // ---------- Lists and places ----------

  /** list_del: the list without the (first) occurrence of `a`. */
  function Extract(l: seq<Addr>, a: Addr): seq<Addr> {
    if l == [] then [] else if l[0] == a then l[1..] else [l[0]] + Extract(l[1..], a)
  }

  function Detach(ps: map<PeonId, Peon>, from: Place, a: Addr): map<PeonId, Peon> {
    match from
    case Wait(r) => if r in ps then ps[r := ps[r].(wait := Extract(ps[r].wait, a))] else ps
    case Proc(r) => if r in ps then ps[r := ps[r].(proc := Extract(ps[r].proc, a))] else ps
    case Gone => ps
  }

  function Attach(ps: map<PeonId, Peon>, to: Place, a: Addr): map<PeonId, Peon> {
    match to
    case Wait(r) => if r in ps then ps[r := ps[r].(wait := ps[r].wait + [a])] else ps
    case Proc(r) => if r in ps then ps[r := ps[r].(proc := ps[r].proc + [a])] else ps
    case Gone => ps
  }

  /** Takes `a` off its list, and appends it to another one or frees it. */
  function Move(s: State, a: Addr, to: Place, t: Task): State
    requires a in s.place
  {
    s.(peons := Attach(Detach(s.peons, s.place[a], a), to, a),
       place := s.place[a := to],
       heap := if to == Gone then s.heap - {a} else s.heap[a := t])
  }

  /** The numbers of the batches that are being handled for the host of `param`. */
  function Batches(s: State, param: Param): set<nat> {
    set b | b in s.heap && b in s.place && s.place[b] == Proc(Dcb) && Match(s.heap[b].param, param, true) ::
      s.heap[b].sn
  }

  function Note(s: State, what: What, a: Addr, r: PeonId): State
    requires a in s.heap
  {
    s.(log := s.log + [Event(what, a, r, s.heap[a], a in s.inherited, s.pending, Batches(s, s.heap[a].param))])
  }

  function Tick(s: State, r: PeonId, n: int): State {
    if r in s.peons then s.(peons := s.peons[r := s.peons[r].(count := s.peons[r].count + n)]) else s
  }

  function SetBusy(s: State, r: PeonId, busy: map<nat, Addr>): State {
    if r in s.peons then s.(peons := s.peons[r := s.peons[r].(busy := busy)]) else s
  }

  function SetStage(s: State, r: PeonId, stage: Stage): State {
    if r in s.peons then s.(peons := s.peons[r := s.peons[r].(stage := stage)]) else s
  }

  // ---------- Judging ----------

  /** The peons whose lists peon_task_action_judge scans for a task of kind `k`. */
  predicate Watches(k: Kind, r: PeonId) {
    match k
    case Connect => !r.Dyn?
    case Disconnect => r == Conn || r == Recheck
    case Batch => r == Conn
  }

  /** The `isbatch` argument of that scan. */
  predicate ByHost(k: Kind, r: PeonId) {
    k == Batch || r == Dcb
  }

  /** The live task `x` is scanned, and is for the same device (or host) as `t`. */
  ghost predicate Rival(s: State, k: Kind, t: Task, x: Addr) {
    && x in s.heap && x in s.place
    && s.heap[x].state == Live
    && s.place[x] != Gone
    && Watches(k, s.place[x].r)
    && Match(s.heap[x].param, t.param, ByHost(k, s.place[x].r))
  }

  /** Every older rival of `t` becomes DEAD. */
  ghost function Kill(s: State, k: Kind, t: Task): State {
    s.(heap := map x | x in s.heap ::
                 if Rival(s, k, t, x) && s.heap[x].sn < t.sn then s.heap[x].(state := Dead) else s.heap[x])
  }

  /** PEON_TASK_ACTION_DISCARD: there is a newer rival. */
  ghost predicate Discards(s: State, k: Kind, t: Task) {
    exists x :: x in s.heap && Rival(s, k, t, x) && s.heap[x].sn > t.sn
  }

  /** PEON_TASK_ACTION_WAIT: an older rival is being handled. */
  ghost predicate Defers(s: State, k: Kind, t: Task) {
    exists x :: x in s.heap && Rival(s, k, t, x) && s.heap[x].sn < t.sn && s.place[x].Proc?
  }

  /** The numbers of those older rivals. */
  ghost function Blockers(s: State, k: Kind, t: Task): set<nat> {
    set x | x in s.heap && Rival(s, k, t, x) && s.heap[x].sn < t.sn && s.place[x].Proc? :: s.heap[x].sn
  }

  /** The task at `a` is put off, because of the tasks with the numbers `older`. */
  ghost function PutOff(s: State, r: PeonId, a: Addr, older: set<nat>): State
    requires a in s.heap
  {
    var d := Deferral(a, r, s.heap[a], a in s.inherited, s.pending, Batches(s, s.heap[a].param), older);
    s.(deferred := s.deferred + [d])
  }

  /** peon_task_restrain_timeout, `now` being the reading of the clock. */
  predicate TimeOut(t: Task, restrain: nat, now: int) {
    (restrain == 0 || now < t.tm || now >= t.tm + restrain) && now >= t.nextRun
  }

  // ---------- peon_task_get ----------

  /** Frees a task of the wait list, counting it out. */
  function Drop(s: State, r: PeonId, a: Addr): State
    requires a in s.heap && a in s.place
  {
    Tick(Move(Note(s, Free, a, r), a, Gone, s.heap[a]), r, -1)
  }

  /** Hands a task of the wait list to worker `w`. */
  function Start(s: State, r: PeonId, w: nat, a: Addr, now: int): State
    requires a in s.heap && a in s.place && r in s.peons
  {
    SetBusy(Move(Note(s, Dispatch(now, s.peons[r].restrain), a, r), a, Proc(r), s.heap[a]), r, s.peons[r].busy[w := a])
  }

  datatype Verdict = Skip | Discard | Chosen

  /** One turn of the loop of peon_task_get, on the task at `a`. */
  ghost function Visit(s: State, r: PeonId, w: nat, a: Addr, now: int): (State, Verdict)
    requires r in s.peons && r != Recheck && a in s.heap && a in s.place
  {
    var t, k := s.heap[a], KindOf(r);
    if t.state == Dead then (Drop(s, r, a), Discard)
    else
      var s1 := Kill(s, k, t);
      if Defers(s, k, t) then (PutOff(s1, r, a, Blockers(s, k, t)), Skip)
      else if Discards(s, k, t) then (Drop(s1, r, a), Discard)
      else if TimeOut(t, s.peons[r].restrain, now) then (Start(s1, r, w, a, now), Chosen)
      else (s1, Skip)
  }

  /** The loop of peon_task_get over the tasks `todo` still ahead; `clock` are its readings. */
  ghost function Pass(s: State, r: PeonId, w: nat, todo: seq<Addr>, clock: Addr -> int): (State, bool)
    requires r in s.peons && r != Recheck
    decreases |todo|
  {
    if todo == [] then (s, false)
    else if todo[0] in s.heap && todo[0] in s.place then
      var (s1, v) := Visit(s, r, w, todo[0], clock(todo[0]));
      if v == Chosen then (s1, true) else Pass(s1, r, w, todo[1..], clock)
    else (s, false)
  }

  // ---------- The steps ----------

  datatype Step =
    | Issue
    | Abandon(sn: nat)
    | Insert(r: PeonId, sn: nat, a: Addr, param: Param, rechecks: bool, now: int, spawned: bool, d: nat, restrain: nat)
    | Inherit(sn: nat, a: Addr, param: Param, rechecks: bool, now: int, spawned: bool, d: nat, restrain: nat)
    | Get(r: PeonId, w: nat, clock: Addr -> int)
    | Complete(r: PeonId, w: nat, failed: bool, now: int)
    | RecheckPass(lost: set<Addr>, clock: Addr -> int, issued: Addr -> nat)
    | Close(d: nat)
    | Exit(d: nat)
    | SetRestrain(restrain: nat)

  /** A batch with the number `sn` is being handled, for the host of `param`: it may hand its number on. */
  ghost predicate Handled(s: State, sn: nat, param: Param) {
    exists b :: b in s.heap && b in s.place && s.place[b] == Proc(Dcb) && s.heap[b].sn == sn
        && Match(s.heap[b].param, param, true)
  }

  ghost predicate Enabled(s: State, e: Step) {
    match e
    case Issue => true
    case Abandon(sn) => sn in s.pending
    case Insert(r, sn, a, _, _, _, _, d, _) =>
      Working(r) && sn in s.pending && a !in s.place && Dyn(d) !in s.peons
    case Inherit(sn, a, param, _, _, _, d, _) =>
      Handled(s, sn, param) && a !in s.place && Dyn(d) !in s.peons
    case Get(r, w, _) =>
      && r in s.peons && r != Recheck && w < WorkerNum(r) && w !in s.peons[r].busy
      && s.peons[r].stage == (if r.Dyn? then Spawned else Serving)
    case Complete(r, w, _, _) => r in s.peons && r != Recheck && w in s.peons[r].busy
    case RecheckPass(_, _, _) => true
    case Close(d) => Dyn(d) in s.peons && s.peons[Dyn(d)].stage == Closing
    case Exit(d) => Dyn(d) in s.peons && s.peons[Dyn(d)].stage == Closed
    case SetRestrain(_) => true
  }

  /** Appends a new task to the wait list of `r`. */
  function Accept(s: State, r: PeonId, a: Addr, t: Task): State {
    Tick(s.(peons := Attach(s.peons, Wait(r), a), place := s.place[a := Wait(r)], heap := s.heap[a := t]), r, 1)
  }

  /** The locked part of peon_task_add; `spawned` says whether a dynamic peon could be created. */
  function AddTask(s: State, r: PeonId, a: Addr, t: Task, spawned: bool, d: nat, restrain: nat): State
    requires r in s.peons
  {
    if r == Disc && s.peons[r].count >= WorkerNum(r) && s.dynNum <= DYN_WORKER_LIMIT && spawned then
      Accept(s.(peons := s.peons[Dyn(d) := NewPeon(restrain, Spawned)], dynNum := s.dynNum + 1), Dyn(d), a, t)
    else Accept(s, r, a, t)
  }

  ghost function GetTask(s: State, r: PeonId, w: nat, clock: Addr -> int): (State, bool)
    requires r in s.peons && r != Recheck
  {
    var (s1, found) := Pass(s, r, w, s.peons[r].wait, clock);
    if r.Dyn? then (SetStage(s1, r, if found then Serving else Closing), found) else (s1, found)
  }

  /** Worker `w` lays its task down: it goes to `to` and becomes `t`. */
  function LayDown(s: State, r: PeonId, w: nat, what: What, a: Addr, to: Place, t: Task): State
    requires r in s.peons && a in s.heap && a in s.place
  {
    Tick(SetBusy(Move(Note(s, what, a, r), a, to, t), r, s.peons[r].busy - {w}), r, -1)
  }

  /** What peon_task_complete does with the task in the hands of worker `w`. */
  function FinishTask(s: State, r: PeonId, w: nat, failed: bool, now: int): State
    requires r in s.peons && w in s.peons[r].busy
  {
    var a := s.peons[r].busy[w];
    if !(a in s.heap && a in s.place) then s
    else
      var t := s.heap[a];
      if t.state == Live && failed then LayDown(s, r, w, Retry(now), a, Wait(r), t.(nextRun := now + RETRY_INTERVAL))
      else if t.state == Live && r == Conn then LayDown(s, r, w, Settle, a, Wait(Recheck), t.(sn := 0))
      else LayDown(s, r, w, Free, a, Gone, t)
  }

  /** peon_task_complete; a dynamic peon then closes. */
  function CompleteTask(s: State, r: PeonId, w: nat, failed: bool, now: int): State
    requires r in s.peons && w in s.peons[r].busy
  {
    var s1 := FinishTask(s, r, w, failed, now);
    if r.Dyn? then SetStage(s1, r, Closing) else s1
  }

  /** One turn of the loop of peon_run_recheck; `lost` are the tasks whose device is gone. */
  function RecheckVisit(s: State, a: Addr, lost: set<Addr>, now: int): State
    requires a in s.heap && a in s.place
  {
    var t := s.heap[a];
    if t.state == Dead || !t.rechecks then Move(Note(s, Free, a, Recheck), a, Gone, t)
    else if a !in lost then s
    else
      var s1 := Note(s, Relive, a, Recheck);
      Move(s1.(lastSn := s.lastSn + 1), a, Wait(Conn), t.(tm := now, nextRun := 0, sn := s.lastSn + 1, state := Live))
  }

  /** The `k` numbers after `n`. */
  function NumbersAfter(n: nat, k: nat): (r: set<nat>)
    ensures forall p :: p in r <==> n < p <= n + k
  {
    if k == 0 then {} else NumbersAfter(n, k - 1) + {n + k}
  }

  /** Other threads issue `k` numbers; that does not take the list lock. */
  function Meanwhile(s: State, k: nat): State {
    s.(lastSn := s.lastSn + k, pending := s.pending + NumbersAfter(s.lastSn, k))
  }

  /** The loop of peon_run_recheck; before the turn of each task `issued` numbers are issued elsewhere. */
  function RecheckAll(s: State, todo: seq<Addr>, lost: set<Addr>, clock: Addr -> int, issued: Addr -> nat): State
    decreases |todo|
  {
    if todo == [] then s
    else if todo[0] in s.heap && todo[0] in s.place then
      var s1 := RecheckVisit(Meanwhile(s, issued(todo[0])), todo[0], lost, clock(todo[0]));
      RecheckAll(s1, todo[1..], lost, clock, issued)
    else s
  }

  /** peon_deconstruct of a dynamic peon: whatever it left waiting is freed. */
  function CloseAll(s: State, r: PeonId, todo: seq<Addr>): State
    decreases |todo|
  {
    if todo == [] then s
    else if todo[0] in s.heap && todo[0] in s.place then
      CloseAll(Move(Note(s, Free, todo[0], r), todo[0], Gone, s.heap[todo[0]]), r, todo[1..])
    else s
  }

  ghost predicate HasStatics(s: State) {
    Conn in s.peons && Disc in s.peons && Dcb in s.peons && Recheck in s.peons
  }

  ghost function Next(s: State, e: Step): State
    requires HasStatics(s) && Enabled(s, e)
  {
    match e
    case Issue => s.(lastSn := s.lastSn + 1, pending := s.pending + {s.lastSn + 1})
    case Abandon(sn) => s.(pending := s.pending - {sn})
    case Insert(r, sn, a, param, rechecks, now, spawned, d, restrain) =>
      AddTask(s.(pending := s.pending - {sn}), r, a, Task(sn, Live, now, 0, param, rechecks), spawned, d, restrain)
    case Inherit(sn, a, param, rechecks, now, spawned, d, restrain) =>
      AddTask(s.(inherited := s.inherited + {a}), Disc, a, Task(sn, Live, now, 0, param, rechecks), spawned, d,
              restrain)
    case Get(r, w, clock) => GetTask(s, r, w, clock).0
    case Complete(r, w, failed, now) => CompleteTask(s, r, w, failed, now)
    case RecheckPass(lost, clock, issued) => RecheckAll(s, s.peons[Recheck].wait, lost, clock, issued)
    case Close(d) => SetStage(CloseAll(s, Dyn(d), s.peons[Dyn(d)].wait), Dyn(d), Closed)
    case Exit(d) => s.(peons := s.peons - {Dyn(d)}, dynNum := s.dynNum - 1)
    case SetRestrain(t) =>
      s.(peons := s.peons[Disc := s.peons[Disc].(restrain := t)]
                         [Conn := s.peons[Conn].(restrain := if t > 0 then 0 else DEFAULT_RESTRAIN)])
  }

  /** `steps` can be taken one after the other, and lead from `s` to `t`. */
  ghost predicate Run(s: State, steps: seq<Step>, t: State)
    decreases |steps|
  {
    if steps == [] then s == t
    else
      && HasStatics(s) && Enabled(s, steps[0])
      && Run(Next(s, steps[0]), steps[1..], t)
  }
}

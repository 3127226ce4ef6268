/**
The table of sockets that ports share: entries are found by interface, counted by holder,
and hand out the small numbers that keep the port identifiers of their holders apart.
*/
module SocketTable {
  import opened Options

  const MAX_PHY_PORT := 64
  const MAP_BITS := 64
  const OLD_TIME := 120
  const WAIT_OLD_TIME := 10

  // ---------- The index allocator ----------

  /** The 64-bit map, lowest bit first. */
  type Word = w: seq<bool> | |w| == MAP_BITS witness seq(MAP_BITS, _ => false)

  function NoBits(): (w: Word)
    ensures forall k :: 0 <= k < MAP_BITS ==> !w[k]
  {
    seq(MAP_BITS, _ => false)
  }

  /** The first free index, counted from `i`, or 0. */
  function FreeIndex(w: Word, i: nat): (r: nat)
    requires i <= MAP_BITS
    ensures r != 0 ==> i < r <= MAP_BITS && !w[r - 1] && forall k :: i <= k < r - 1 ==> w[k]
    ensures r == 0 <==> forall k :: i <= k < MAP_BITS ==> w[k]
    decreases MAP_BITS - i
  {
    if i == MAP_BITS then 0 else if w[i] then FreeIndex(w, i + 1) else i + 1
  }

  function WithIndex(w: Word, index: nat): Word
    requires index <= MAP_BITS
  {
    if index == 0 then w else w[index - 1 := true]
  }

  function WithoutIndex(w: Word, index: nat): Word
    requires index <= MAP_BITS
  {
    if index == 0 then w else w[index - 1 := false]
  }

  /** switch_get_index */
  method GetIndex(w: Word) returns (index: nat, w': Word)
    ensures index == FreeIndex(w, 0) && w' == WithIndex(w, index)
  {
    for i := 0 to MAP_BITS
      invariant FreeIndex(w, 0) == FreeIndex(w, i)
    {
      if w[i] {
        continue;
      }
      return i + 1, w[i := true];
    }
    return 0, w;
  }

  // ---------- The table as a value ----------

  datatype Entry = Entry(ifindex: int, refs: int, fd: int, oldTime: int, indexMap: Word)

  function Unused(): Entry {
    Entry(-1, 0, -1, 0, NoBits())
  }

  type Table = t: seq<Entry> | |t| == MAX_PHY_PORT witness seq(MAX_PHY_PORT, _ => Unused())

  /** The entry of the interface, from `i` on; `MAX_PHY_PORT` if there is none. */
  function Find(t: Table, ifindex: int, i: nat): (r: nat)
    requires i <= MAX_PHY_PORT
    ensures i <= r <= MAX_PHY_PORT
    ensures r < MAX_PHY_PORT ==> t[r].ifindex == ifindex
    ensures forall k :: i <= k < r ==> t[k].ifindex != ifindex
    decreases MAX_PHY_PORT - i
  {
    if i == MAX_PHY_PORT || t[i].ifindex == ifindex then i else Find(t, ifindex, i + 1)
  }

  predicate Reusable(e: Entry, now: int) {
    e.ifindex < 0 || (e.refs <= 0 && e.oldTime < now)
  }

  /** The first entry that another interface may take, from `i` on; `clock(i)` is read at entry `i`. */
  function FirstFree(t: Table, clock: nat -> int, i: nat): (r: nat)
    requires i <= MAX_PHY_PORT
    ensures i <= r <= MAX_PHY_PORT
    ensures r < MAX_PHY_PORT ==> Reusable(t[r], clock(r))
    ensures forall k :: i <= k < r ==> !Reusable(t[k], clock(k))
    decreases MAX_PHY_PORT - i
  {
    if i == MAX_PHY_PORT || Reusable(t[i], clock(i)) then i else FirstFree(t, clock, i + 1)
  }

  datatype Handle = Handle(slot: nat, index: nat)

  /** One more holder for entry `i`, with a number of its own if it wants one and one is left. */
  function Taken(t: Table, i: nat, indexed: bool): (r: (Table, Option<Handle>))
    requires i < MAX_PHY_PORT
    ensures r.1.Some? ==> r.1.value.slot == i && r.1.value.index <= MAP_BITS
  {
    var index := if indexed then FreeIndex(t[i].indexMap, 0) else 0;
    if indexed && index == 0 then (t, None)
    else (t[i := t[i].(refs := t[i].refs + 1, indexMap := WithIndex(t[i].indexMap, index))], Some(Handle(i, index)))
  }

  /** Entry `free` passes to the interface; its map starts again only if a number is wanted. */
  function Renewed(t: Table, free: nat, ifindex: int, indexed: bool): (r: (Table, Option<Handle>))
    requires free < MAX_PHY_PORT
    ensures r.1.Some? && r.1.value.slot == free && r.1.value.index <= MAP_BITS
  {
    var e := t[free].(refs := 1, ifindex := ifindex);
    (t[free := if indexed then e.(indexMap := WithIndex(NoBits(), 1)) else e],
     Some(Handle(free, if indexed then 1 else 0)))
  }

  /** switch_get_fd_info: the handle given out, if any, and the table afterwards. */
  function Get(t: Table, ifindex: int, indexed: bool, clock: nat -> int): (r: (Table, Option<Handle>))
    ensures r.1.Some? ==> r.1.value.slot < MAX_PHY_PORT && r.1.value.index <= MAP_BITS
  {
    var i, free := Find(t, ifindex, 0), FirstFree(t, clock, 0);
    if i < MAX_PHY_PORT then Taken(t, i, indexed)
    else if free < MAX_PHY_PORT then Renewed(t, free, ifindex, indexed)
    else (t, None)
  }

  /** switch_put_fd_info: the last holder closes the socket; every put starts the waiting time again. */
  function Put(t: Table, h: Handle, now: int): Table
    requires h.slot < MAX_PHY_PORT && h.index <= MAP_BITS
  {
    var e := t[h.slot];
    t[h.slot := e.(refs := e.refs - 1, indexMap := WithoutIndex(e.indexMap, h.index),
                   fd := if e.refs - 1 <= 0 then -1 else e.fd, oldTime := now + OLD_TIME + WAIT_OLD_TIME)]
  }

  function SetFd(t: Table, slot: nat, fd: int): Table
    requires slot < MAX_PHY_PORT
  {
    t[slot := t[slot].(fd := fd)]
  }

  // ---------- Who holds what ----------

  /** An announcement that the holder `id` sent at the time `at`, under the number it held then. */
  datatype Sent = Sent(id: nat, h: Handle, at: int)

  /**
  `held` has the handles not yet put back, `asked` the interface each was ever asked for, `puts`
  the time of the last put on each entry, `first` when each holder may first send, and `sent`
  what was announced. `clock` is the last reading of the clock.
  */
  datatype World = World(table: Table, held: map<nat, Handle>, asked: map<nat, int>, puts: map<nat, int>,
                         first: map<nat, int>, sent: seq<Sent>, clock: int)

  function Holders(held: map<nat, Handle>, slot: nat): set<nat> {
    set id | id in held && held[id].slot == slot
  }

  ghost predicate Given(held: map<nat, Handle>, slot: nat, index: nat) {
    exists id :: id in held && held[id] == Handle(slot, index)
  }

  ghost predicate OnePerInterface(t: Table) {
    forall i, j :: 0 <= i < j < MAX_PHY_PORT && t[i].ifindex >= 0 ==> t[i].ifindex != t[j].ifindex
  }

  /** An entry says exactly what its holders hold. */
  ghost predicate Accounted(e: Entry, held: map<nat, Handle>, slot: nat) {
    && e.refs == |Holders(held, slot)|
    && (forall k :: 0 <= k < MAP_BITS ==> (e.indexMap[k] <==> Given(held, slot, k + 1)))
    && (e.fd >= 0 ==> e.refs > 0)
    && (e.ifindex < 0 ==> e.refs == 0)
  }

  ghost predicate IndicesDiffer(held: map<nat, Handle>) {
    forall a, b :: a in held && b in held && a != b && held[a].slot == held[b].slot && held[a].index != 0 ==>
      held[a].index != held[b].index
  }

  ghost predicate Aged(e: Entry, puts: map<nat, int>, slot: nat) {
    && (e.ifindex >= 0 && e.refs == 0 ==> slot in puts)
    && (slot in puts ==> e.oldTime == puts[slot] + OLD_TIME + WAIT_OLD_TIME)
  }

  ghost predicate Inv(w: World) {
    && OnePerInterface(w.table)
    && (forall id :: id in w.held ==> w.held[id].slot < MAX_PHY_PORT && w.held[id].index <= MAP_BITS)
    && (forall s :: 0 <= s < MAX_PHY_PORT ==> Accounted(w.table[s], w.held, s))
    && (forall s :: 0 <= s < MAX_PHY_PORT ==> Aged(w.table[s], w.puts, s))
    && IndicesDiffer(w.held)
    && (forall id :: id in w.held ==> id in w.asked && w.table[w.held[id].slot].ifindex == w.asked[id])
  }

  function Start(): World {
    World(seq(MAX_PHY_PORT, _ => Unused()), map[], map[], map[], map[], [], 0)
  }

  /** calc_expires_for_new: when a port that takes the entry first sends. */
  function FirstSend(e: Entry, now: int): int {
    if e.oldTime < now then now else e.oldTime
  }

  // ---------- Steps ----------

  datatype Step =
    | Take(id: nat, ifindex: int, indexed: bool, now: int, clock: nat -> int, till: int)
    | Open(id: nat, fd: int)
    | Release(id: nat, now: int)
    | Send(id: nat, now: int)

  /** The readings taken while the table is searched. */
  predicate Between(clock: nat -> int, now: int, till: int) {
    now <= till && forall i :: 0 <= i < MAX_PHY_PORT ==> now <= clock(i) <= till
  }

  /**
  A holder is named once, and puts its handle back once; a socket is opened by a holder; a holder
  with a number sends from its first time on. The clock does not go back.
  */
  predicate Enabled(w: World, s: Step) {
    match s
    case Take(id, ifindex, _, now, clock, till) =>
      id !in w.held && id !in w.asked && ifindex >= 0 && Between(clock, now, till) && now >= w.clock
    case Open(id, _) => id in w.held && w.held[id].slot < MAX_PHY_PORT && w.table[w.held[id].slot].fd < 0
    case Release(id, now) =>
      id in w.held && w.held[id].slot < MAX_PHY_PORT && w.held[id].index <= MAP_BITS && now >= w.clock
    case Send(id, now) =>
      id in w.held && w.held[id].index != 0 && id in w.first && now >= w.first[id] && now >= w.clock
  }

  function Next(w: World, s: Step): World
    requires Enabled(w, s)
  {
    match s
    case Take(id, ifindex, indexed, now, clock, till) =>
      var (t, h) := Get(w.table, ifindex, indexed, clock);
      if h.Some? then
        w.(table := t, held := w.held[id := h.value], asked := w.asked[id := ifindex],
           first := w.first[id := FirstSend(t[h.value.slot], now)], clock := till)
      else w.(clock := till)
    case Open(id, fd) => w.(table := SetFd(w.table, w.held[id].slot, fd))
    case Release(id, now) =>
      var h := w.held[id];
      w.(table := Put(w.table, h, now), held := w.held - {id}, puts := w.puts[h.slot := now], clock := now)
    case Send(id, now) => w.(sent := w.sent + [Sent(id, w.held[id], now)], clock := now)
  }

  // ---------- The invariant ----------

  lemma StartInv()
    ensures Inv(Start())
  {
    forall s | 0 <= s < MAX_PHY_PORT
      ensures Holders(map[], s) == {}
    {
    }
  }

  lemma HoldersMore(held: map<nat, Handle>, id: nat, h: Handle, s: nat)
    requires id !in held
    ensures |Holders(held[id := h], s)| == |Holders(held, s)| + if h.slot == s then 1 else 0
  {
    if h.slot == s {
      assert Holders(held[id := h], s) == Holders(held, s) + {id};
    } else {
      assert Holders(held[id := h], s) == Holders(held, s);
    }
  }

  lemma HoldersLess(held: map<nat, Handle>, id: nat, s: nat)
    requires id in held
    ensures |Holders(held - {id}, s)| == |Holders(held, s)| - if held[id].slot == s then 1 else 0
  {
    if held[id].slot == s {
      assert Holders(held, s) == Holders(held - {id}, s) + {id};
    } else {
      assert Holders(held - {id}, s) == Holders(held, s);
    }
  }

  lemma GivenMore(held: map<nat, Handle>, id: nat, h: Handle, s: nat, index: nat)
    requires id !in held
    ensures Given(held[id := h], s, index) <==> Given(held, s, index) || h == Handle(s, index)
  {
    var more := held[id := h];
    if Given(held, s, index) {
      var x :| x in held && held[x] == Handle(s, index);
      assert more[x] == Handle(s, index);
    }
    if h == Handle(s, index) {
      assert more[id] == Handle(s, index);
    }
  }

  lemma GivenLess(held: map<nat, Handle>, id: nat, s: nat, index: nat)
    requires id in held && IndicesDiffer(held) && index != 0
    ensures Given(held - {id}, s, index) <==> Given(held, s, index) && held[id] != Handle(s, index)
  {
    var less := held - {id};
    if Given(held, s, index) && held[id] != Handle(s, index) {
      var x :| x in held && held[x] == Handle(s, index);
      assert less[x] == Handle(s, index);
    }
  }

  /** An unused entry has no holder, so its map is clear. */
  lemma NobodyGiven(held: map<nat, Handle>, s: nat, index: nat)
    requires |Holders(held, s)| == 0
    ensures !Given(held, s, index)
  {
    forall id | id in held
      ensures held[id].slot != s
    {
      assert id !in Holders(held, s);
    }
  }

  /** What a successful get does to the entry that it gives out. */
  ghost predicate GivenOut(t: Table, r: Table, h: Handle, ifindex: int, indexed: bool) {
    var slot, index := h.slot, h.index;
    && slot < MAX_PHY_PORT && index <= MAP_BITS
    && r == t[slot := r[slot]] && r[slot].ifindex == ifindex && r[slot].refs == t[slot].refs + 1
    && r[slot].fd == t[slot].fd && r[slot].oldTime == t[slot].oldTime
    && (index == 0 <==> !indexed) && (indexed ==> !t[slot].indexMap[index - 1])
    && (forall k :: 0 <= k < MAP_BITS ==> (r[slot].indexMap[k] <==> t[slot].indexMap[k] || k + 1 == index))
  }

  lemma TakenEntry(t: Table, i: nat, indexed: bool)
    requires i < MAX_PHY_PORT && Taken(t, i, indexed).1.Some?
    ensures var (r, h) := Taken(t, i, indexed); GivenOut(t, r, h.value, t[i].ifindex, indexed) && h.value.slot == i
  {
  }

  lemma RenewedEntry(t: Table, free: nat, ifindex: int, indexed: bool)
    requires free < MAX_PHY_PORT && t[free].refs == 0 && forall k :: 0 <= k < MAP_BITS ==> !t[free].indexMap[k]
    ensures var (r, h) := Renewed(t, free, ifindex, indexed);
      GivenOut(t, r, h.value, ifindex, indexed) && h.value.slot == free
  {
  }

  /** The entry given out is that of the interface, or an aged one that nobody holds. */
  lemma GetEntry(t: Table, ifindex: int, indexed: bool, clock: nat -> int)
    requires Get(t, ifindex, indexed, clock).1.Some?
    requires forall s, k :: 0 <= s < MAX_PHY_PORT && 0 <= k < MAP_BITS && t[s].refs == 0 ==> !t[s].indexMap[k]
    requires forall s :: 0 <= s < MAX_PHY_PORT ==> t[s].refs >= 0 && (t[s].ifindex < 0 ==> t[s].refs == 0)
    ensures var (r, h) := Get(t, ifindex, indexed, clock);
      var slot := h.value.slot;
      && GivenOut(t, r, h.value, ifindex, indexed)
      && (t[slot].ifindex == ifindex
          || (Reusable(t[slot], clock(slot)) && t[slot].refs == 0 && Find(t, ifindex, 0) == MAX_PHY_PORT))
  {
    hide GivenOut, Taken, Renewed;
    var i := Find(t, ifindex, 0);
    if i < MAX_PHY_PORT {
      TakenEntry(t, i, indexed);
    } else {
      RenewedEntry(t, FirstFree(t, clock, 0), ifindex, indexed);
    }
  }

  lemma CleanWhenUnused(w: World)
    requires Inv(w)
    ensures forall s, k :: 0 <= s < MAX_PHY_PORT && 0 <= k < MAP_BITS && w.table[s].refs == 0 ==>
              !w.table[s].indexMap[k]
    ensures forall s :: 0 <= s < MAX_PHY_PORT ==>
              w.table[s].refs >= 0 && (w.table[s].ifindex < 0 ==> w.table[s].refs == 0)
  {
    forall s, k | 0 <= s < MAX_PHY_PORT && 0 <= k < MAP_BITS && w.table[s].refs == 0
      ensures !w.table[s].indexMap[k]
    {
      assert Accounted(w.table[s], w.held, s);
      NobodyGiven(w.held, s, k + 1);
    }
    forall s | 0 <= s < MAX_PHY_PORT
      ensures w.table[s].refs >= 0 && (w.table[s].ifindex < 0 ==> w.table[s].refs == 0)
    {
      assert Accounted(w.table[s], w.held, s);
    }
  }

  lemma AccountedTaken(e: Entry, e': Entry, held: map<nat, Handle>, id: nat, h: Handle, s: nat)
    requires Accounted(e, held, s) && id !in held
    requires if h.slot == s then
               && e'.refs == e.refs + 1 && e'.fd == e.fd && e'.ifindex >= 0
               && (forall k :: 0 <= k < MAP_BITS ==> (e'.indexMap[k] <==> e.indexMap[k] || k + 1 == h.index))
             else e' == e
    ensures Accounted(e', held[id := h], s)
  {
    hide Given, Holders;
    HoldersMore(held, id, h, s);
    forall k | 0 <= k < MAP_BITS
      ensures e'.indexMap[k] <==> Given(held[id := h], s, k + 1)
    {
      GivenMore(held, id, h, s, k + 1);
    }
  }

  lemma IndicesTaken(e: Entry, held: map<nat, Handle>, id: nat, h: Handle)
    requires IndicesDiffer(held) && id !in held && h.index <= MAP_BITS && Accounted(e, held, h.slot)
    requires h.index != 0 ==> !e.indexMap[h.index - 1]
    ensures IndicesDiffer(held[id := h])
  {
    var more := held[id := h];
    if h.index != 0 {
      assert !Given(held, h.slot, h.index - 1 + 1);
      forall a | a in held && held[a].slot == h.slot
        ensures held[a].index != h.index
      {
        assert held[a] != Handle(h.slot, h.index);
      }
    }
  }

  lemma TakenTable(t: Table, ifindex: int, indexed: bool, clock: nat -> int)
    requires OnePerInterface(t) && ifindex >= 0 && Get(t, ifindex, indexed, clock).1.Some?
    ensures OnePerInterface(Get(t, ifindex, indexed, clock).0)
  {
    var i := Find(t, ifindex, 0);
    if i < MAX_PHY_PORT {
      GetFound(t, ifindex, indexed, clock);
      TakenOne(t, i, indexed);
    } else {
      GetOther(t, ifindex, indexed, clock);
      RenewedOne(t, FirstFree(t, clock, 0), ifindex, indexed);
    }
    hide Get, Taken, Renewed, OnePerInterface;
  }

  lemma TakenOne(t: Table, i: nat, indexed: bool)
    requires OnePerInterface(t) && i < MAX_PHY_PORT
    ensures OnePerInterface(Taken(t, i, indexed).0)
  {
    hide FreeIndex, WithIndex;
    assert forall k :: 0 <= k < MAX_PHY_PORT ==> Taken(t, i, indexed).0[k].ifindex == t[k].ifindex;
    hide Taken;
  }

  lemma RenewedOne(t: Table, free: nat, ifindex: int, indexed: bool)
    requires OnePerInterface(t) && free < MAX_PHY_PORT && Find(t, ifindex, 0) == MAX_PHY_PORT
    ensures OnePerInterface(Renewed(t, free, ifindex, indexed).0)
  {
    hide FreeIndex, WithIndex;
    assert forall k :: 0 <= k < MAX_PHY_PORT ==>
             Renewed(t, free, ifindex, indexed).0[k].ifindex == if k == free then ifindex else t[k].ifindex;
    hide Renewed;
  }

  lemma TakenAccounts(w: World, id: nat, ifindex: int, indexed: bool, clock: nat -> int)
    requires Inv(w) && id !in w.held && ifindex >= 0 && Get(w.table, ifindex, indexed, clock).1.Some?
    ensures var (t, h) := Get(w.table, ifindex, indexed, clock);
      && (forall s :: 0 <= s < MAX_PHY_PORT ==> Accounted(t[s], w.held[id := h.value], s) && Aged(t[s], w.puts, s))
      && IndicesDiffer(w.held[id := h.value])
  {
    hide Accounted, IndicesDiffer, Get, WithIndex, FreeIndex, Holders, OnePerInterface;
    var (t, h) := Get(w.table, ifindex, indexed, clock);
    CleanWhenUnused(w);
    GetEntry(w.table, ifindex, indexed, clock);
    forall s | 0 <= s < MAX_PHY_PORT
      ensures Accounted(t[s], w.held[id := h.value], s) && Aged(t[s], w.puts, s)
    {
      AccountedTaken(w.table[s], t[s], w.held, id, h.value, s);
    }
    IndicesTaken(w.table[h.value.slot], w.held, id, h.value);
  }

  /** Whoever held an entry before still finds its interface there. */
  lemma TakenKeepsHolders(w: World, ifindex: int, indexed: bool, clock: nat -> int, x: nat)
    requires Inv(w) && x in w.held && Get(w.table, ifindex, indexed, clock).1.Some?
    ensures Get(w.table, ifindex, indexed, clock).0[w.held[x].slot].ifindex == w.asked[x]
  {
    CleanWhenUnused(w);
    GetEntry(w.table, ifindex, indexed, clock);
    HeldEntry(w, x);
    hide Get, Accounted, IndicesDiffer, OnePerInterface, Aged;
  }

  lemma TakeInv(w: World, id: nat, ifindex: int, indexed: bool, now: int, clock: nat -> int, till: int)
    requires Inv(w) && Enabled(w, Take(id, ifindex, indexed, now, clock, till))
    ensures Inv(Next(w, Take(id, ifindex, indexed, now, clock, till)))
  {
    hide Accounted, IndicesDiffer, Get, Aged, OnePerInterface;
    var (t, h) := Get(w.table, ifindex, indexed, clock);
    var v := Next(w, Take(id, ifindex, indexed, now, clock, till));
    if h.Some? {
      TakenTable(w.table, ifindex, indexed, clock);
      TakenAccounts(w, id, ifindex, indexed, clock);
      CleanWhenUnused(w);
      GetEntry(w.table, ifindex, indexed, clock);
      forall x | x in w.held
        ensures t[w.held[x].slot].ifindex == w.asked[x]
      {
        TakenKeepsHolders(w, ifindex, indexed, clock, x);
      }
    }
  }

  /** The entry of a handle that is held has holders, so it stays with its interface. */
  lemma HeldEntry(w: World, id: nat)
    requires Inv(w) && id in w.held
    ensures w.table[w.held[id].slot].refs > 0 && w.table[w.held[id].slot].ifindex >= 0
  {
    var s := w.held[id].slot;
    assert Accounted(w.table[s], w.held, s);
    assert id in Holders(w.held, s);
  }

  lemma OpenInv(w: World, id: nat, fd: int)
    requires Inv(w) && Enabled(w, Open(id, fd))
    ensures Inv(Next(w, Open(id, fd)))
  {
    hide Given, Holders, IndicesDiffer;
    HeldEntry(w, id);
    var slot := w.held[id].slot;
    forall s | 0 <= s < MAX_PHY_PORT
      ensures Accounted(Next(w, Open(id, fd)).table[s], w.held, s) && Aged(Next(w, Open(id, fd)).table[s], w.puts, s)
    {
      assert Accounted(w.table[s], w.held, s) && Aged(w.table[s], w.puts, s);
    }
  }

  lemma AccountedReleased(e: Entry, e': Entry, held: map<nat, Handle>, id: nat, s: nat)
    requires Accounted(e, held, s) && id in held && IndicesDiffer(held) && held[id].index <= MAP_BITS
    requires if held[id].slot == s then
               && e'.refs == e.refs - 1 && e'.fd == (if e.refs - 1 <= 0 then -1 else e.fd)
                  && e'.ifindex == e.ifindex >= 0
               && e'.indexMap == WithoutIndex(e.indexMap, held[id].index)
             else e' == e
    ensures Accounted(e', held - {id}, s)
  {
    hide Given, Holders, IndicesDiffer;
    HoldersLess(held, id, s);
    forall k | 0 <= k < MAP_BITS
      ensures e'.indexMap[k] <==> Given(held - {id}, s, k + 1)
    {
      GivenLess(held, id, s, k + 1);
    }
  }

  lemma ReleasedIndices(held: map<nat, Handle>, id: nat)
    requires IndicesDiffer(held)
    ensures IndicesDiffer(held - {id})
  {
  }

  lemma ReleasedTable(t: Table, h: Handle, now: int)
    requires OnePerInterface(t) && h.slot < MAX_PHY_PORT && h.index <= MAP_BITS
    ensures OnePerInterface(Put(t, h, now)) && forall s :: 0 <= s < MAX_PHY_PORT ==>
            Put(t, h, now)[s].ifindex == t[s].ifindex
  {
    hide WithoutIndex;
  }

  lemma ReleaseAccounted(w: World, id: nat, now: int, s: nat)
    requires Inv(w) && Enabled(w, Release(id, now)) && s < MAX_PHY_PORT
    ensures var h := w.held[id];
      Accounted(Put(w.table, h, now)[s], w.held - {id}, s) && Aged(Put(w.table, h, now)[s], w.puts[h.slot := now], s)
  {
    HeldEntry(w, id);
    hide Accounted, IndicesDiffer, OnePerInterface, Holders, WithoutIndex;
    AccountedReleased(w.table[s], Put(w.table, w.held[id], now)[s], w.held, id, s);
  }

  lemma ReleaseInv(w: World, id: nat, now: int)
    requires Inv(w) && Enabled(w, Release(id, now))
    ensures Inv(Next(w, Release(id, now)))
  {
    hide Accounted, Aged, IndicesDiffer, OnePerInterface, Put;
    ReleasedIndices(w.held, id);
    ReleasedTable(w.table, w.held[id], now);
    forall s | 0 <= s < MAX_PHY_PORT
      ensures var h := w.held[id];
        Accounted(Put(w.table, h, now)[s], w.held - {id}, s) && Aged(Put(w.table, h, now)[s], w.puts[h.slot := now], s)
    {
      ReleaseAccounted(w, id, now, s);
    }
  }

  lemma SendInv(w: World, id: nat, now: int)
    requires Inv(w) && Enabled(w, Send(id, now))
    ensures Inv(Next(w, Send(id, now)))
  {
    hide Accounted, Aged, OnePerInterface, IndicesDiffer;
  }

  lemma NextInv(w: World, s: Step)
    requires Inv(w) && Enabled(w, s)
    ensures Inv(Next(w, s))
  {
    hide Inv, Next;
    match s
    case Take(id, ifindex, indexed, now, clock, till) => TakeInv(w, id, ifindex, indexed, now, clock, till);
    case Open(id, fd) => OpenInv(w, id, fd);
    case Release(id, now) => ReleaseInv(w, id, now);
    case Send(id, now) => SendInv(w, id, now);
  }

  // ---------- What a holder may rely on ----------

  /** A handle is held, for the interface it was asked for, and the socket behind it is the one its holder knows. */
  ghost predicate Knows(w: World, id: nat, slot: nat, ifindex: int, fd: int) {
    && id in w.held && w.held[id].slot == slot && slot < MAX_PHY_PORT && w.table[slot].fd == fd && fd >= 0
    && id in w.asked && w.asked[id] == ifindex
  }

  lemma TakeKnows(w: World, s: Step, id: nat, slot: nat, ifindex: int, fd: int)
    requires Inv(w) && Enabled(w, s) && s.Take? && Knows(w, id, slot, ifindex, fd)
    ensures Knows(Next(w, s), id, slot, ifindex, fd)
  {
    hide Inv, Get;
    CleanWhenUnused(w);
    if Get(w.table, s.ifindex, s.indexed, s.clock).1.Some? {
      GetEntry(w.table, s.ifindex, s.indexed, s.clock);
    }
  }

  /** While another holder is left, a put does not close the socket. */
  lemma ReleaseKnows(w: World, s: Step, id: nat, slot: nat, ifindex: int, fd: int)
    requires Inv(w) && Enabled(w, s) && s.Release? && s.id != id && Knows(w, id, slot, ifindex, fd)
    ensures Knows(Next(w, s), id, slot, ifindex, fd)
  {
    assert Accounted(w.table[slot], w.held, slot);
    if w.held[s.id].slot == slot {
      HoldersLess(w.held, s.id, slot);
      assert id in Holders(w.held - {s.id}, slot);
    }
    hide Inv, WithoutIndex;
  }

  /** No step but its own put takes a handle, its interface or its socket from a holder. */
  lemma NextKnows(w: World, s: Step, id: nat, slot: nat, ifindex: int, fd: int)
    requires Inv(w) && Enabled(w, s) && Knows(w, id, slot, ifindex, fd) && (s.Release? ==> s.id != id)
    ensures Knows(Next(w, s), id, slot, ifindex, fd)
  {
    hide Inv;
    if s.Take? {
      TakeKnows(w, s, id, slot, ifindex, fd);
    } else if s.Release? {
      ReleaseKnows(w, s, id, slot, ifindex, fd);
    }
  }

  // ---------- Every run ----------

  /** The world after a run; a step that is not enabled does nothing. */
  function RunFrom(w: World, steps: seq<Step>): World {
    if steps == [] then w
    else
      var v, s := RunFrom(w, steps[..|steps| - 1]), steps[|steps| - 1];
      if Enabled(v, s) then Next(v, s) else v
  }

  function Run(steps: seq<Step>): World {
    RunFrom(Start(), steps)
  }

  lemma {:induction false} RunFromInv(w: World, steps: seq<Step>)
    requires Inv(w)
    ensures Inv(RunFrom(w, steps))
    decreases |steps|
  {
    hide Inv, Next, Enabled;
    if steps != [] {
      var v, s := RunFrom(w, steps[..|steps| - 1]), steps[|steps| - 1];
      RunFromInv(w, steps[..|steps| - 1]);
      if Enabled(v, s) {
        NextInv(v, s);
      }
    }
  }

  lemma {:induction false} RunKnows(w: World, steps: seq<Step>, id: nat, slot: nat, ifindex: int, fd: int)
    requires Inv(w) && Knows(w, id, slot, ifindex, fd) && forall s :: s in steps && s.Release? ==> s.id != id
    ensures Knows(RunFrom(w, steps), id, slot, ifindex, fd)
    decreases |steps|
  {
    hide Inv, Next, Enabled, Knows;
    if steps != [] {
      var v, s := RunFrom(w, steps[..|steps| - 1]), steps[|steps| - 1];
      RunFromInv(w, steps[..|steps| - 1]);
      RunKnows(w, steps[..|steps| - 1], id, slot, ifindex, fd);
      if Enabled(v, s) {
        NextKnows(v, s, id, slot, ifindex, fd);
      }
    }
  }

  lemma RunInv(steps: seq<Step>)
    ensures Inv(Run(steps))
  {
    StartInv();
    RunFromInv(Start(), steps);
  }

  /**
  In every run of matched gets and puts: no interface has two entries, an entry counts its
  holders and marks exactly their numbers, and an open socket has a holder.
  */
  lemma TableIsExact(steps: seq<Step>, w: World)
    requires w == Run(steps)
    ensures forall i, j :: 0 <= i < j < MAX_PHY_PORT && w.table[i].ifindex >= 0 ==>
            w.table[i].ifindex != w.table[j].ifindex
    ensures forall s :: 0 <= s < MAX_PHY_PORT ==>
              && w.table[s].refs == |Holders(w.held, s)|
              && (forall k :: 0 <= k < MAP_BITS ==>
                    (w.table[s].indexMap[k] <==> exists id :: id in w.held && w.held[id] == Handle(s, k + 1)))
              && (w.table[s].fd >= 0 ==> w.table[s].refs > 0)
  {
    RunInv(steps);
    forall s | 0 <= s < MAX_PHY_PORT
      ensures w.table[s].refs == |Holders(w.held, s)|
      ensures forall k :: 0 <= k < MAP_BITS ==> (w.table[s].indexMap[k] <==> Given(w.held, s, k + 1))
      ensures w.table[s].fd >= 0 ==> w.table[s].refs > 0
    {
      assert Accounted(w.table[s], w.held, s);
    }
  }

  /** Two holders share an entry if and only if they asked for the same interface. */
  lemma SharedByInterface(steps: seq<Step>, w: World, a: nat, b: nat)
    requires w == Run(steps) && a in w.held && b in w.held
    ensures a in w.asked && b in w.asked
    ensures w.held[a].slot == w.held[b].slot <==> w.asked[a] == w.asked[b]
  {
    RunInv(steps);
    HeldEntry(w, a);
    HeldEntry(w, b);
  }

  /** An entry is not free for another interface: it is assigned, and held or still waiting for its time. */
  ghost predicate Blocked(w: World, i: nat, now: int) {
    i < MAX_PHY_PORT && w.table[i].ifindex >= 0
    && (Holders(w.held, i) != {} || (i in w.puts && now <= w.puts[i] + 130))
  }

  ghost predicate NoneFree(w: World, clock: nat -> int) {
    forall i: nat :: i < MAX_PHY_PORT ==> Blocked(w, i, clock(i))
  }

  /**
  A get gives no handle if and only if the interface has an entry and all 64 numbers of it are
  out, one being wanted, or it has none and no entry is free.
  */
  lemma TakeFails(steps: seq<Step>, w: World, s: Step)
    requires w == Run(steps) && s.Take? && Enabled(w, s)
    ensures s.id !in Next(w, s).held <==>
              || (exists i :: 0 <= i < MAX_PHY_PORT && w.table[i].ifindex == s.ifindex && s.indexed
                              && forall k :: 1 <= k <= 64 ==> Given(w.held, i, k))
              || ((forall i :: 0 <= i < MAX_PHY_PORT ==> w.table[i].ifindex != s.ifindex) && NoneFree(w, s.clock))
  {
    hide Run, Inv, Get, Given, NoneFree;
    RunInv(steps);
    var i := Find(w.table, s.ifindex, 0);
    if i < MAX_PHY_PORT {
      KnownFails(w, s, i);
      forall j | 0 <= j < MAX_PHY_PORT && w.table[j].ifindex == s.ifindex
        ensures j == i
      {
        OneEntry(w, i, j);
      }
    } else {
      OtherFails(w, s);
    }
  }

  lemma OneEntry(w: World, i: nat, j: nat)
    requires Inv(w) && i < MAX_PHY_PORT && j < MAX_PHY_PORT && w.table[i].ifindex == w.table[j].ifindex >= 0
    ensures i == j
  {
    hide Accounted, Aged, IndicesDiffer;
  }

  lemma KnownFails(w: World, s: Step, i: nat)
    requires Inv(w) && s.Take? && Enabled(w, s) && i == Find(w.table, s.ifindex, 0) < MAX_PHY_PORT
    ensures s.id !in Next(w, s).held <==> s.indexed && forall k :: 1 <= k <= 64 ==> Given(w.held, i, k)
  {
    GetFound(w.table, s.ifindex, s.indexed, s.clock);
    AllOut(w, i);
    hide Inv, Get, Given, Between, FreeIndex, WithIndex;
  }

  /** There is no free number if all are out. */
  lemma AllOut(w: World, i: nat)
    requires Inv(w) && i < MAX_PHY_PORT
    ensures FreeIndex(w.table[i].indexMap, 0) == 0 <==> forall k :: 1 <= k <= 64 ==> Given(w.held, i, k)
  {
    assert Accounted(w.table[i], w.held, i);
    var map64 := w.table[i].indexMap;
    assert forall k :: 0 <= k < MAP_BITS ==> (map64[k] <==> Given(w.held, i, k + 1));
    hide Inv, Given, Accounted;
    if FreeIndex(map64, 0) == 0 {
      forall k | 1 <= k <= 64
        ensures Given(w.held, i, k)
      {
        assert map64[k - 1];
      }
    } else {
      assert !Given(w.held, i, FreeIndex(map64, 0) - 1 + 1);
    }
  }

  lemma OtherFails(w: World, s: Step)
    requires Inv(w) && s.Take? && Enabled(w, s) && Find(w.table, s.ifindex, 0) == MAX_PHY_PORT
    ensures s.id !in Next(w, s).held <==> NoneFree(w, s.clock)
  {
    GetOther(w.table, s.ifindex, s.indexed, s.clock);
    NoneReusable(w, s.clock);
    hide Inv, Get, Renewed, NoneFree, Between, FirstFree;
  }

  lemma NoneReusable(w: World, clock: nat -> int)
    requires Inv(w)
    ensures FirstFree(w.table, clock, 0) == MAX_PHY_PORT <==> NoneFree(w, clock)
  {
    hide Inv, Blocked, Reusable;
    var free := FirstFree(w.table, clock, 0);
    if free < MAX_PHY_PORT {
      EntryFree(w, free, clock(free));
    } else {
      forall i: nat | i < MAX_PHY_PORT
        ensures Blocked(w, i, clock(i))
      {
        EntryFree(w, i, clock(i));
      }
    }
  }

  lemma EntryFree(w: World, i: nat, now: int)
    requires Inv(w) && i < MAX_PHY_PORT
    ensures Reusable(w.table[i], now) <==> !Blocked(w, i, now)
  {
    assert Accounted(w.table[i], w.held, i) && Aged(w.table[i], w.puts, i);
    hide Inv, Given;
  }

  /** A get without a number always shares the entry of an interface that somebody holds. */
  lemma TakeShares(steps: seq<Step>, w: World, s: Step, other: nat)
    requires w == Run(steps) && s.Take? && Enabled(w, s) && !s.indexed
    requires other in w.held && other in w.asked && w.asked[other] == s.ifindex
    ensures s.id in Next(w, s).held && Next(w, s).held[s.id] == Handle(w.held[other].slot, 0)
    ensures other in Next(w, s).held && Next(w, s).held[other] == w.held[other]
  {
    hide Run;
    RunInv(steps);
    HeldEntry(w, other);
    OneEntry(w, w.held[other].slot, Find(w.table, s.ifindex, 0));
    hide Accounted, Aged, IndicesDiffer, OnePerInterface;
  }

  lemma OnlyTakesMove(w: World, s: Step, slot: nat)
    requires Enabled(w, s) && !s.Take? && slot < MAX_PHY_PORT
    ensures Next(w, s).table[slot].ifindex == w.table[slot].ifindex
  {
    hide WithoutIndex;
  }

  lemma TakeMovesAged(w: World, s: Step, slot: nat)
    requires Inv(w) && Enabled(w, s) && s.Take? && slot < MAX_PHY_PORT
    requires w.table[slot].ifindex >= 0 && Next(w, s).table[slot].ifindex != w.table[slot].ifindex
    ensures w.table[slot].refs == 0 && w.table[slot].oldTime < s.clock(slot)
  {
    hide Inv, Get, GivenOut;
    CleanWhenUnused(w);
    if Get(w.table, s.ifindex, s.indexed, s.clock).1.Some? {
      GetEntry(w.table, s.ifindex, s.indexed, s.clock);
      GivenSlot(w.table, Get(w.table, s.ifindex, s.indexed, s.clock).0,
                Get(w.table, s.ifindex, s.indexed, s.clock).1.value,
                s.ifindex, s.indexed, slot);
    }
  }

  lemma GivenSlot(t: Table, r: Table, h: Handle, ifindex: int, indexed: bool, slot: nat)
    requires GivenOut(t, r, h, ifindex, indexed) && slot < MAX_PHY_PORT && r[slot].ifindex != t[slot].ifindex
    ensures slot == h.slot && t[slot].ifindex != ifindex
  {
  }

  /** An entry passes to another interface only when nobody holds it, and over 130 seconds after its last put. */
  lemma ReuseWaits(steps: seq<Step>, w: World, s: Step, slot: nat)
    requires w == Run(steps) && Enabled(w, s) && slot < MAX_PHY_PORT
    requires w.table[slot].ifindex >= 0 && Next(w, s).table[slot].ifindex != w.table[slot].ifindex
    ensures Holders(w.held, slot) == {} && s.Take? && slot in w.puts && s.clock(slot) > w.puts[slot] + 130
  {
    hide Next, Run, Given, Enabled;
    RunInv(steps);
    if s.Take? {
      TakeMovesAged(w, s, slot);
      assert Accounted(w.table[slot], w.held, slot) && Aged(w.table[slot], w.puts, slot);
    } else {
      OnlyTakesMove(w, s, slot);
    }
  }

  // ---------- Announcements ----------

  /** How an announcement stands to the handles out now. */
  ghost predicate Kept(w: World, e: Sent) {
    && e.h.slot < MAX_PHY_PORT && e.h.index != 0 && e.at <= w.clock && e.id in w.asked
    && (if e.id in w.held then w.held[e.id] == e.h else e.h.slot in w.puts && w.puts[e.h.slot] >= e.at)
    && forall id :: id in w.held && id != e.id && w.held[id] == e.h ==> id in w.first && w.first[id] > e.at + OLD_TIME
  }

  /** Different holders of one entry and number are far apart. */
  ghost predicate Apart(sent: seq<Sent>) {
    forall i, j :: 0 <= i < j < |sent| && sent[i].h == sent[j].h && sent[i].id != sent[j].id ==>
      sent[j].at > sent[i].at + OLD_TIME
  }

  ghost predicate Spaced(w: World) {
    (forall e :: e in w.sent ==> Kept(w, e)) && Apart(w.sent)
  }

  lemma TakeSpaced(w: World, id: nat, ifindex: int, indexed: bool, now: int, clock: nat -> int, till: int)
    requires Inv(w) && Spaced(w) && Enabled(w, Take(id, ifindex, indexed, now, clock, till))
    ensures Spaced(Next(w, Take(id, ifindex, indexed, now, clock, till)))
  {
    hide Get, Accounted, OnePerInterface, Apart;
    var (t, h) := Get(w.table, ifindex, indexed, clock);
    var v := Next(w, Take(id, ifindex, indexed, now, clock, till));
    if h.Some? {
      CleanWhenUnused(w);
      GetEntry(w.table, ifindex, indexed, clock);
      forall e | e in v.sent
        ensures Kept(v, e)
      {
        assert Kept(w, e);
        if h.value == e.h {
          TakenAfter(w, id, ifindex, indexed, now, clock, e);
        }
      }
    }
  }

  /** A number that was announced and is free again was put back, and the entry has waited since. */
  lemma TakenAfter(w: World, id: nat, ifindex: int, indexed: bool, now: int, clock: nat -> int, e: Sent)
    requires Inv(w) && Kept(w, e) && Get(w.table, ifindex, indexed, clock).1 == Some(e.h)
    ensures e.id !in w.held && FirstSend(Get(w.table, ifindex, indexed, clock).0[e.h.slot], now) > e.at + OLD_TIME
  {
    CleanWhenUnused(w);
    GetEntry(w.table, ifindex, indexed, clock);
    var s := e.h.slot;
    assert Accounted(w.table[s], w.held, s) && Aged(w.table[s], w.puts, s);
    hide Get, Inv, Holders;
    assert !Given(w.held, s, e.h.index - 1 + 1);
  }

  lemma ReleaseSpaced(w: World, id: nat, now: int)
    requires Inv(w) && Spaced(w) && Enabled(w, Release(id, now))
    ensures Spaced(Next(w, Release(id, now)))
  {
    hide Inv, Put, Apart;
    forall e | e in w.sent
      ensures Kept(Next(w, Release(id, now)), e)
    {
      assert Kept(w, e);
    }
  }

  lemma SendSpaced(w: World, id: nat, now: int)
    requires Inv(w) && Spaced(w) && Enabled(w, Send(id, now))
    ensures Spaced(Next(w, Send(id, now)))
  {
    hide Accounted, Aged, OnePerInterface;
    var v := Next(w, Send(id, now));
    forall e | e in v.sent
      ensures Kept(v, e)
    {
      assert e in w.sent ==> Kept(w, e);
    }
    forall i, j | 0 <= i < j < |v.sent| && v.sent[i].h == v.sent[j].h && v.sent[i].id != v.sent[j].id
      ensures v.sent[j].at > v.sent[i].at + OLD_TIME
    {
      assert v.sent[i] == w.sent[i] && Kept(w, w.sent[i]);
      assert j < |w.sent| ==> v.sent[j] == w.sent[j];
    }
  }

  lemma NextSpaced(w: World, s: Step)
    requires Inv(w) && Spaced(w) && Enabled(w, s)
    ensures Spaced(Next(w, s))
  {
    match s
    case Take(id, ifindex, indexed, now, clock, till) =>
      hide Inv, Next, Spaced;
      TakeSpaced(w, id, ifindex, indexed, now, clock, till);
    case Open(id, fd) =>
      hide Inv, Apart;
      assert forall e :: Kept(w, e) ==> Kept(Next(w, s), e);
    case Release(id, now) =>
      hide Inv, Next, Spaced;
      ReleaseSpaced(w, id, now);
    case Send(id, now) =>
      hide Inv, Next, Spaced;
      SendSpaced(w, id, now);
  }

  lemma {:induction false} RunSpaced(w: World, steps: seq<Step>)
    requires Inv(w) && Spaced(w)
    ensures Spaced(RunFrom(w, steps))
    decreases |steps|
  {
    hide Inv, Next, Enabled, Spaced;
    if steps != [] {
      var v, s := RunFrom(w, steps[..|steps| - 1]), steps[|steps| - 1];
      RunFromInv(w, steps[..|steps| - 1]);
      RunSpaced(w, steps[..|steps| - 1]);
      if Enabled(v, s) {
        NextSpaced(v, s);
      }
    }
  }

  /**
  In every run, two holders that announce themselves under the same number of the same entry are
  more than 120 seconds apart: what the first one sent has aged out before the second one sends.
  */
  lemma AnnouncementsApart(steps: seq<Step>, w: World, i: nat, j: nat)
    requires w == Run(steps) && i < j < |w.sent|
    requires w.sent[i].h == w.sent[j].h && w.sent[i].id != w.sent[j].id
    ensures w.sent[j].at > w.sent[i].at + 120
  {
    StartInv();
    assert Spaced(Start());
    hide Inv, RunFrom, Start, Kept;
    RunSpaced(Start(), steps);
  }

  /**
  A port that takes an entry, with whatever number, first sends only after everything sent under
  that entry by those that have put it back has outlived the 120 seconds it was announced for.
  */
  lemma FirstSendWaits(steps: seq<Step>, w: World, s: Step, e: Sent)
    requires w == Run(steps) && s.Take? && Enabled(w, s) && s.id in Next(w, s).held
    requires e in w.sent && e.id !in w.held && Next(w, s).held[s.id].slot == e.h.slot
    ensures s.id in Next(w, s).first && Next(w, s).first[s.id] > e.at + 120
  {
    StartInv();
    RunInv(steps);
    assert Spaced(Start());
    hide Inv, RunFrom, Start, Kept, Get, GivenOut;
    RunSpaced(Start(), steps);
    FirstAfter(w, s, e);
  }

  /** It need not wait longer than that: it may send at once, or 130 seconds after the last put on the entry. */
  lemma FirstSendSoon(steps: seq<Step>, w: World, s: Step)
    requires w == Run(steps) && s.Take? && Enabled(w, s) && s.id in Next(w, s).held
    ensures var v := Next(w, s);
      && s.id in v.first && v.held[s.id].slot < MAX_PHY_PORT
      && (v.held[s.id].slot in w.puts ==>
            var due := w.puts[v.held[s.id].slot] + 130;
            v.first[s.id] == if s.now > due then s.now else due)
  {
    RunInv(steps);
    hide Run;
    CleanWhenUnused(w);
    GetEntry(w.table, s.ifindex, s.indexed, s.clock);
    var slot := Next(w, s).held[s.id].slot;
    assert Aged(w.table[slot], w.puts, slot);
    hide Inv, Get;
  }

  lemma FirstAfter(w: World, s: Step, e: Sent)
    requires Inv(w) && Kept(w, e) && s.Take? && Enabled(w, s) && e.id !in w.held
    requires s.id in Next(w, s).held && Next(w, s).held[s.id].slot == e.h.slot
    ensures s.id in Next(w, s).first && Next(w, s).first[s.id] > e.at + 120
  {
    assert Aged(w.table[e.h.slot], w.puts, e.h.slot);
    CleanWhenUnused(w);
    GetEntry(w.table, s.ifindex, s.indexed, s.clock);
    hide Inv, Get;
  }

  // ---------- The table in place ----------

  class PortTable {
    const ports: array<Entry>

    ghost predicate Valid()
      reads this
    {
      ports.Length == MAX_PHY_PORT
    }

    ghost function Abs(): Table
      requires Valid()
      reads this, ports
    {
      ports[..]
    }

    /** switch_port_init */
    constructor ()
      ensures Valid() && fresh(ports) && Abs() == Start().table
    {
      ports := new Entry[MAX_PHY_PORT](_ => Unused());
      new;
      assert ports[..] == Start().table;
    }

    method GetFdInfo(ifindex: int, indexed: bool, clock: nat -> int) returns (h: Option<Handle>)
      requires Valid()
      modifies ports
      ensures (Abs(), h) == Get(old(Abs()), ifindex, indexed, clock)
    {
      hide WithIndex, FreeIndex, Get;
      ghost var t := Abs();
      var firstFree := MAX_PHY_PORT;
      for i := 0 to MAX_PHY_PORT
        invariant ports[..] == t && Find(t, ifindex, 0) == Find(t, ifindex, i)
        invariant 0 <= firstFree <= MAX_PHY_PORT
        invariant FirstFree(t, clock, 0) == if firstFree < MAX_PHY_PORT then firstFree else FirstFree(t, clock, i)
      {
        if ports[i].ifindex == ifindex {
          h := TakeEntry(i, indexed);
          GetFound(t, ifindex, indexed, clock);
          return;
        } else if ports[i].ifindex < 0 || (ports[i].refs <= 0 && ports[i].oldTime < clock(i)) {
          firstFree := if firstFree != MAX_PHY_PORT then firstFree else i;
        }
      }
      GetOther(t, ifindex, indexed, clock);
      if firstFree == MAX_PHY_PORT {
        return None;
      }
      h := TakeFree(firstFree, ifindex, indexed);
    }

    /** An entry passes to the interface, with its first holder. */
    method TakeFree(free: nat, ifindex: int, indexed: bool) returns (h: Option<Handle>)
      requires Valid() && free < MAX_PHY_PORT
      modifies ports
      ensures (Abs(), h) == Renewed(old(Abs()), free, ifindex, indexed)
    {
      ghost var t := Abs();
      ports[free] := ports[free].(refs := 1, ifindex := ifindex);
      if indexed {
        ports[free] := ports[free].(indexMap := WithIndex(NoBits(), 1));
        assert ports[..] == Renewed(t, free, ifindex, indexed).0;
        return Some(Handle(free, 1));
      }
      return Some(Handle(free, 0));
    }

    /** One more holder for the entry of its interface, unless all numbers are out. */
    method TakeEntry(i: nat, indexed: bool) returns (h: Option<Handle>)
      requires Valid() && i < MAX_PHY_PORT
      modifies ports
      ensures (Abs(), h) == Taken(old(Abs()), i, indexed)
    {
      hide FreeIndex;
      ghost var t := Abs();
      var index := 0;
      if indexed {
        var w;
        index, w := GetIndex(ports[i].indexMap);
        if index == 0 {
          return None;
        }
        ports[i] := ports[i].(indexMap := w);
      }
      ports[i] := ports[i].(refs := ports[i].refs + 1);
      assert ports[i] == t[i].(refs := t[i].refs + 1, indexMap := WithIndex(t[i].indexMap, index));
      assert ports[..] == t[i := ports[i]];
      return Some(Handle(i, index));
    }

    method PutFdInfo(h: Handle, now: int)
      requires Valid() && h.slot < MAX_PHY_PORT && h.index <= MAP_BITS
      modifies ports
      ensures Abs() == Put(old(Abs()), h, now)
    {
      var i := h.slot;
      ports[i] := ports[i].(refs := ports[i].refs - 1);
      ports[i] := ports[i].(indexMap := WithoutIndex(ports[i].indexMap, h.index));
      if ports[i].refs <= 0 {
        ports[i] := ports[i].(fd := -1);
      }
      ports[i] := ports[i].(oldTime := now + OLD_TIME + WAIT_OLD_TIME);
    }

    /**
    switch_get_fd_data, with the socket that the system gave, whether the address was taken up,
    and the clock as inputs. A call that fails leaves nobody with a handle that it took.
    */
    method GetFdData(ifindex: int, indexed: bool, a: Answer, ghost w: World, ghost id: nat) returns (h: Option<Handle>)
      requires Valid() && w.table == Abs() && id !in w.held && id !in w.asked && ifindex >= 0 && Timely(w, a)
      modifies ports
      ensures var v := RunFrom(w, GetSteps(w, id, ifindex, indexed, a));
        && v.table == Abs()
        && (h.None? ==> v.held == w.held)
        && (h.Some? ==> v.held == w.held[id := h.value] && h.value.slot < MAX_PHY_PORT && v.table[h.value.slot].fd >= 0)
    {
      hide Get, Put, RunFrom, Between;
      GetTakes(w, id, ifindex, indexed, a);
      ghost var take := Take(id, ifindex, indexed, a.now, a.clock, a.till);
      ghost var v := Next(w, take);
      h := GetFdInfo(ifindex, indexed, a.clock);
      if h.None? {
        GetNone(w.table, ifindex, indexed, a.clock);
        return;
      }
      var slot := h.value.slot;
      if ports[slot].fd < 0 {
        if a.newFd < 0 {
          PutFdInfo(h.value, a.later);
          assert v.held - {id} == w.held;
          return None;
        }
        ports[slot] := ports[slot].(fd := a.newFd);
        v := Next(v, Open(id, a.newFd));
      }
      if !a.ipTaken {
        PutFdInfo(h.value, a.later);
        assert v.held - {id} == w.held;
        return None;
      }
    }
  }

  /** What the system and the clock answer to one call of switch_get_fd_data. */
  datatype Answer = Answer(now: int, clock: nat -> int, till: int, newFd: int, ipTaken: bool, later: int)

  predicate Timely(w: World, a: Answer) {
    w.clock <= a.now && Between(a.clock, a.now, a.till) && a.till <= a.later
  }

  /**
  The steps that switch_get_fd_data comes to: a get, a socket if there is none, a put if that or
  the address fails.
  */
  function GetSteps(w: World, id: nat, ifindex: int, indexed: bool, a: Answer): seq<Step> {
    var take := Take(id, ifindex, indexed, a.now, a.clock, a.till);
    if !Enabled(w, take) || id !in Next(w, take).held then [take]
    else
      var v := Next(w, take);
      var slot := v.held[id].slot;
      if slot < MAX_PHY_PORT && v.table[slot].fd < 0 then
        if a.newFd < 0 then [take, Release(id, a.later)]
        else [take, Open(id, a.newFd)] + if a.ipTaken then [] else [Release(id, a.later)]
      else [take] + if a.ipTaken then [] else [Release(id, a.later)]
  }

  /** Where those steps lead. */
  lemma GetTakes(w: World, id: nat, ifindex: int, indexed: bool, a: Answer)
    requires id !in w.held && id !in w.asked && ifindex >= 0 && Timely(w, a)
    ensures var take := Take(id, ifindex, indexed, a.now, a.clock, a.till);
      Enabled(w, take) && var v := Next(w, take);
      var u := RunFrom(w, GetSteps(w, id, ifindex, indexed, a));
      if id !in v.held then u == v
      else
        var h := v.held[id];
        h.slot < MAX_PHY_PORT && h.index <= MAP_BITS &&
        if v.table[h.slot].fd < 0 && a.newFd < 0 then Enabled(v, Release(id, a.later))
            && u == Next(v, Release(id, a.later))
        else
          (v.table[h.slot].fd < 0 ==> Enabled(v, Open(id, a.newFd))) &&
          var o := if v.table[h.slot].fd < 0 then Next(v, Open(id, a.newFd)) else v;
          if a.ipTaken then u == o else Enabled(o, Release(id, a.later)) && u == Next(o, Release(id, a.later))
  {
    hide Get, Put, RunFrom, Between;
    var take := Take(id, ifindex, indexed, a.now, a.clock, a.till);
    var open, release := Open(id, a.newFd), Release(id, a.later);
    RunOne(w, take);
    assert [take, open] == [take] + [open] && [take, release] == [take] + [release];
    assert [take] + [] == [take] && [take, open] + [] == [take, open];
    OneMore(w, [take], open);
    OneMore(w, [take], release);
    OneMore(w, [take, open], release);
  }

  /** switch_get_fd_data succeeds when a handle, a socket, one there or a new one, and the address are all to be had. */
  lemma GetSucceeds(w: World, id: nat, ifindex: int, indexed: bool, a: Answer)
    requires Inv(w) && id !in w.held && id !in w.asked && ifindex >= 0 && Timely(w, a)
    ensures var take := Take(id, ifindex, indexed, a.now, a.clock, a.till);
      && Enabled(w, take)
      && (id in RunFrom(w, GetSteps(w, id, ifindex, indexed, a)).held <==>
            && id in Next(w, take).held && a.ipTaken
            && var slot := Next(w, take).held[id].slot;
               slot < MAX_PHY_PORT && (Next(w, take).table[slot].fd >= 0 || a.newFd >= 0))
  {
    hide Inv, Get, Put, RunFrom, Between, GetSteps;
    GetTakes(w, id, ifindex, indexed, a);
  }

  /** A get with socket succeeds for the holder it was made for, or leaves all handles as they were. */
  lemma GetKnows(w: World, id: nat, ifindex: int, indexed: bool, a: Answer)
    requires Inv(w) && id !in w.held && id !in w.asked && ifindex >= 0 && Timely(w, a)
    ensures var u := RunFrom(w, GetSteps(w, id, ifindex, indexed, a));
      if id in u.held then
        && u.held == w.held[id := u.held[id]] && u.asked == w.asked[id := ifindex]
        && u.held[id].slot < MAX_PHY_PORT && Knows(u, id, u.held[id].slot, ifindex, u.table[u.held[id].slot].fd)
      else u.held == w.held && (u.asked == w.asked || u.asked == w.asked[id := ifindex])
  {
    hide Inv, Get, Put, RunFrom, Between, GetSteps;
    GetTakes(w, id, ifindex, indexed, a);
    var v := Next(w, Take(id, ifindex, indexed, a.now, a.clock, a.till));
    if id in v.held {
      assert v.held - {id} == w.held;
    }
  }

  lemma GetFound(t: Table, ifindex: int, indexed: bool, clock: nat -> int)
    requires Find(t, ifindex, 0) < MAX_PHY_PORT
    ensures Get(t, ifindex, indexed, clock) == Taken(t, Find(t, ifindex, 0), indexed)
  {
  }

  lemma GetOther(t: Table, ifindex: int, indexed: bool, clock: nat -> int)
    requires Find(t, ifindex, 0) == MAX_PHY_PORT
    ensures var free := FirstFree(t, clock, 0);
      Get(t, ifindex, indexed, clock) ==
      if free == MAX_PHY_PORT then (t, None) else Renewed(t, free, ifindex, indexed)
  {
    hide FreeIndex, WithIndex;
  }

  lemma GetNone(t: Table, ifindex: int, indexed: bool, clock: nat -> int)
    requires Get(t, ifindex, indexed, clock).1.None?
    ensures Get(t, ifindex, indexed, clock).0 == t
  {
    hide FreeIndex, WithIndex;
  }

  lemma RunOne(w: World, s: Step)
    requires Enabled(w, s)
    ensures RunFrom(w, [s]) == Next(w, s)
  {
    hide Enabled, Next;
    OneMore(w, [], s);
    assert [] + [s] == [s];
  }

  lemma OneMore(w: World, steps: seq<Step>, s: Step)
    ensures RunFrom(w, steps + [s]) == if Enabled(RunFrom(w, steps), s) then Next(RunFrom(w, steps), s)
            else RunFrom(w, steps)
  {
    hide Enabled, Next;
    assert (steps + [s])[..|steps|] == steps;
  }

  // ---------- Port identifiers ----------

  function Digit(d: nat): char
    requires d < 10
  {
    "0123456789"[d]
  }

  /** lldp_create_port_id */
  function PortId(name: string, index: nat): string {
    name + ['_', Digit(index / 10 % 10), Digit(index % 10)]
  }

  lemma PortIdApart(name: string, i: nat, other: string, j: nat)
    requires i <= MAP_BITS && j <= MAP_BITS && PortId(name, i) == PortId(other, j)
    ensures name == other && i == j
  {
    var p, q := PortId(name, i), PortId(other, j);
    assert |name| == |other|;
    assert p[..|name|] == name && q[..|other|] == other;
    assert p[|name| + 1] == q[|name| + 1] && p[|name| + 2] == q[|name| + 2];
    DigitApart(i / 10 % 10, j / 10 % 10);
    DigitApart(i % 10, j % 10);
  }

  lemma DigitApart(c: nat, d: nat)
    requires c < 10 && d < 10 && Digit(c) == Digit(d)
    ensures c == d
  {
  }

  /** Holders of numbers on one interface advertise different port identifiers, whatever their names. */
  lemma PortIdsDiffer(steps: seq<Step>, w: World, a: nat, b: nat, nameA: string, nameB: string)
    requires w == Run(steps) && a in w.held && b in w.held && a != b
    requires a in w.asked && b in w.asked && w.asked[a] == w.asked[b]
    requires w.held[a].index != 0 && w.held[b].index != 0
    ensures PortId(nameA, w.held[a].index) != PortId(nameB, w.held[b].index)
  {
    RunInv(steps);
    SharedByInterface(steps, w, a, b);
    hide PortId;
    if PortId(nameA, w.held[a].index) == PortId(nameB, w.held[b].index) {
      PortIdApart(nameA, w.held[a].index, nameB, w.held[b].index);
    }
  }
}

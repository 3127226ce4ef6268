/**
The slaves of a bonding port as holders of shared sockets: verifications and sweeps, failed or
not and in any order, with other holders of the same table in between.
*/
module BondingRuns {
  import opened BondingSlaves
  import opened Collections
  import opened Options
  import SocketTable

  type World = SocketTable.World
  type Answer = SocketTable.Answer

  /**
  The table, the holder that each slave with a socket is, by name, and the holders that the port
  has ever taken a handle for and put one back for.
  */
  datatype Hold = Hold(w: World, ids: map<string, nat>, got: set<nat>, back: set<nat>)

  datatype Bond = Bond(h: Hold, slaves: seq<Rec>)

  // ---------- Readings of a clock that does not go back ----------

  function Later(x: int, y: int): int {
    if x < y then y else x
  }

  function Within(x: int, low: int, high: int): int {
    if x < low then low else if high < x then high else x
  }

  function Timed(c: int, a: Answer): Answer {
    var now := Later(c, a.now);
    var till := Later(now, a.till);
    SocketTable.Answer(now, (i: nat) => Within(a.clock(i), now, till), till, a.newFd, a.ipTaken, Later(till, a.later))
  }

  lemma TimedTimely(w: World, a: Answer)
    ensures SocketTable.Timely(w, Timed(w.clock, a))
  {
    var t := Timed(w.clock, a);
    forall i: nat | i < SocketTable.MAX_PHY_PORT
      ensures t.now <= t.clock(i) <= t.till
    {
      assert t.clock(i) == Within(a.clock(i), t.now, t.till);
    }
  }

  // ---------- One slave ----------

  lemma NewIdExists(w: World)
    ensures exists id: nat :: id !in w.held && id !in w.asked
  {
    var used: set<nat> := w.held.Keys + w.asked.Keys;
    var id := LargerThan(used);
    assert id !in w.held && id !in w.asked;
  }

  ghost function NewId(w: World): (id: nat)
    ensures id !in w.held && id !in w.asked
  {
    NewIdExists(w);
    var id: nat :| id !in w.held && id !in w.asked;
    id
  }

  /** switch_get_fd_data for a slave: a handle without a number, or none after all. */
  ghost function Acquire(h: Hold, r: Rec, a: Answer): (Hold, Option<Sock>) {
    var id := NewId(h.w);
    var v := SocketTable.RunFrom(h.w, SocketTable.GetSteps(h.w, id, r.ifindex, false, Timed(h.w.clock, a)));
    if id in v.held && v.held[id].slot < SocketTable.MAX_PHY_PORT then
      (Hold(v, h.ids[r.name := id], h.got + {id}, h.back),
       Some(Sock(v.held[id].slot, v.table[v.held[id].slot].fd)))
    else if id in v.asked then (Hold(v, h.ids, h.got + {id}, h.back + {id}), None)
    else (h.(w := v), None)
  }

  /** switch_free_slave_fd */
  ghost function PutBack(h: Hold, r: Rec, now: int): Hold {
    if r.name !in h.ids then h
    else
      var id := h.ids[r.name];
      Hold(SocketTable.RunFrom(h.w, [SocketTable.Release(id, Later(h.w.clock, now))]), h.ids - {r.name}, h.got,
           h.back + {id})
  }

  /** switch_get_bonding_fd on the table: what stays, what was put back, and whether it got to the end. */
  ghost function SweepOn(h: Hold, rs: seq<Rec>, answer: string -> Answer): (Hold, Outcome)
    decreases |rs|
  {
    if rs == [] then (h, Outcome([], [], true))
    else
      var r := rs[0];
      if r.deleted then
        var (g, o) := SweepOn(if r.valid then PutBack(h, r, answer(r.name).now) else h, rs[1..], answer);
        (g, o.(released := (if r.valid then [r.fdIndex] else []) + o.released))
      else if r.valid then
        var (g, o) := SweepOn(h, rs[1..], answer);
        (g, o.(slaves := [r] + o.slaves))
      else
        var (h1, sock) := Acquire(h, r, answer(r.name));
        match sock
        case None => (h1, Outcome(rs, [], false))
        case Some(s) =>
          var (g, o) := SweepOn(h1, rs[1..], answer);
          (g, o.(slaves := [Acquired(r, s)] + o.slaves))
  }

  // ---------- What holds between the slaves and the table ----------

  /** The holders of the port are its slaves with sockets; every other handle it took was put back, once. */
  ghost predicate Fair(h: Hold) {
    && SocketTable.Inv(h.w)
    && h.back <= h.got
    && (forall i :: i in h.got ==> i in h.w.asked)
    && (forall i :: i in h.back ==> i !in h.w.held)
    && (forall x :: x in h.ids ==> h.ids[x] in h.got && h.ids[x] !in h.back)
    && (forall i :: i in h.got && i !in h.back ==> i in h.ids.Values)
    && (forall x, y :: x in h.ids && y in h.ids && x != y ==> h.ids[x] != h.ids[y])
  }

  /**
  A slave with a socket holds it in the entry of its interface, and it is the one open there;
  another slave holds none.
  */
  ghost predicate Has(h: Hold, r: Rec) {
    && r.ifindex >= 0
    && if r.valid then r.name in h.ids && SocketTable.Knows(h.w, h.ids[r.name], r.fdIndex, r.ifindex, r.fd)
       else r.name !in h.ids
  }

  ghost predicate Good(h: Hold, rs: seq<Rec>) {
    && Fair(h) && Distinct(rs)
    && (forall i :: 0 <= i < |rs| ==> Has(h, rs[i]))
    && (forall x :: x in h.ids ==> Named(rs, x))
  }

  // ---------- A handle is taken ----------

  lemma FairMore(h: Hold, g: Hold, name: string, id: nat)
    requires Fair(h) && SocketTable.Inv(g.w) && name !in h.ids && id !in h.w.asked
    requires g.w.held.Keys == h.w.held.Keys + {id} && g.w.asked.Keys == h.w.asked.Keys + {id}
    requires g.ids == h.ids[name := id] && g.got == h.got + {id} && g.back == h.back
    ensures Fair(g)
  {
    hide SocketTable.Inv;
    forall i | i in g.got && i !in g.back
      ensures i in g.ids.Values
    {
      if i == id {
        assert g.ids[name] == id;
      } else {
        var x :| x in h.ids && h.ids[x] == i;
        assert g.ids[x] == i;
      }
    }
    assert forall i :: i in g.got ==> i in g.w.asked.Keys;
    assert forall i :: i in g.back ==> i !in g.w.held.Keys;
  }

  lemma FairNot(h: Hold, g: Hold, id: nat)
    requires Fair(h) && SocketTable.Inv(g.w) && id !in h.w.asked && id !in h.w.held
    requires g.w.held == h.w.held && g.ids == h.ids
    requires || (g.w.asked == h.w.asked && g.got == h.got && g.back == h.back)
             || (g.w.asked.Keys == h.w.asked.Keys + {id} && g.got == h.got + {id} && g.back == h.back + {id})
    ensures Fair(g)
  {
    hide SocketTable.Inv;
    assert forall i :: i in g.got ==> i in g.w.asked.Keys;
  }

  lemma AcquireMoves(h: Hold, r: Rec, a: Answer)
    requires Fair(h) && r.ifindex >= 0 && r.name !in h.ids
    ensures var (g, sock) := Acquire(h, r, a);
      && Fair(g)
      && (forall id, slot, ifindex, fd :: SocketTable.Knows(h.w, id, slot, ifindex, fd) ==>
          SocketTable.Knows(g.w, id, slot, ifindex, fd))
      && (match sock
          case None => g.ids == h.ids
          case Some(s) =>
            exists id :: g.ids == h.ids[r.name := id] && SocketTable.Knows(g.w, id, s.fdIndex, r.ifindex, s.fd))
  {
    hide SocketTable.Inv, SocketTable.Knows, SocketTable.RunFrom, SocketTable.GetSteps, SocketTable.Timely, Timed;
    var id, t := NewId(h.w), Timed(h.w.clock, a);
    TimedTimely(h.w, a);
    SocketTable.GetKnows(h.w, id, r.ifindex, false, t);
    var steps := SocketTable.GetSteps(h.w, id, r.ifindex, false, t);
    SocketTable.RunFromInv(h.w, steps);
    var (g, sock) := Acquire(h, r, a);
    forall x, slot, ifindex, fd | SocketTable.Knows(h.w, x, slot, ifindex, fd)
      ensures SocketTable.Knows(g.w, x, slot, ifindex, fd)
    {
      KnowsHeld(h.w, x, slot, ifindex, fd);
      OwnSteps(h.w, id, r.ifindex, t);
      SocketTable.RunKnows(h.w, steps, x, slot, ifindex, fd);
    }
    if sock.None? {
      FairNot(h, g, id);
    } else {
      FairMore(h, g, r.name, id);
      assert g.ids == h.ids[r.name := id] && SocketTable.Knows(g.w, id, sock.value.fdIndex, r.ifindex, sock.value.fd);
    }
  }

  lemma KnowsHeld(w: World, id: nat, slot: nat, ifindex: int, fd: int)
    ensures SocketTable.Knows(w, id, slot, ifindex, fd) ==> id in w.held
  {
  }

  lemma OwnSteps(w: World, id: nat, ifindex: int, a: Answer)
    ensures forall s :: s in SocketTable.GetSteps(w, id, ifindex, false, a) ==> s.id == id
  {
  }

  lemma HasStays(h: Hold, g: Hold, r: Rec)
    requires Has(h, r) && (r.name in g.ids <==> r.name in h.ids) && (r.name in h.ids ==> g.ids[r.name] == h.ids[r.name])
    requires r.valid ==> forall slot, ifindex, fd :: SocketTable.Knows(h.w, h.ids[r.name], slot, ifindex, fd) ==>
               SocketTable.Knows(g.w, h.ids[r.name], slot, ifindex, fd)
    ensures Has(g, r)
  {
    hide SocketTable.Knows;
  }

  lemma AcquireGood(h: Hold, rs: seq<Rec>, k: nat, a: Answer)
    requires Good(h, rs) && k < |rs| && !rs[k].valid
    ensures var (g, sock) := Acquire(h, rs[k], a);
      match sock
      case None => Good(g, rs)
      case Some(s) => Good(g, rs[k := Acquired(rs[k], s)])
  {
    hide Fair, Acquire, SocketTable.Knows;
    AcquireMoves(h, rs[k], a);
    var (g, sock) := Acquire(h, rs[k], a);
    if sock.None? {
      forall i | 0 <= i < |rs|
        ensures Has(g, rs[i])
      {
        HasStays(h, g, rs[i]);
      }
    } else {
      var q := rs[k := Acquired(rs[k], sock.value)];
      var id :| g.ids == h.ids[rs[k].name := id]
                && SocketTable.Knows(g.w, id, sock.value.fdIndex, rs[k].ifindex, sock.value.fd);
      forall i | 0 <= i < |q|
        ensures Has(g, q[i])
      {
        if i != k {
          assert rs[i].name != rs[k].name && Has(h, rs[i]);
          HasStays(h, g, rs[i]);
        }
      }
      forall x | x in g.ids
        ensures Named(q, x)
      {
        if x != rs[k].name {
          var i :| 0 <= i < |rs| && rs[i].name == x;
          assert q[i].name == x;
        } else {
          assert q[k].name == x;
        }
      }
    }
  }

  // ---------- A handle is put back ----------

  lemma FairLess(h: Hold, g: Hold, name: string)
    requires Fair(h) && SocketTable.Inv(g.w) && name in h.ids
    requires g.w.held.Keys == h.w.held.Keys - {h.ids[name]} && g.w.asked == h.w.asked
    requires g.ids == h.ids - {name} && g.got == h.got && g.back == h.back + {h.ids[name]}
    ensures Fair(g)
  {
    hide SocketTable.Inv;
    forall i | i in g.got && i !in g.back
      ensures i in g.ids.Values
    {
      var x :| x in h.ids && h.ids[x] == i;
      assert g.ids[x] == i;
    }
    assert forall i :: i in g.back ==> i !in g.w.held.Keys;
  }

  lemma PutBackMoves(h: Hold, r: Rec, now: int)
    requires Fair(h) && Has(h, r) && r.valid
    ensures var g := PutBack(h, r, now);
      && Fair(g) && g.ids == h.ids - {r.name}
      && (forall id, slot, ifindex, fd :: SocketTable.Knows(h.w, id, slot, ifindex, fd) && id != h.ids[r.name] ==>
            SocketTable.Knows(g.w, id, slot, ifindex, fd))
  {
    hide SocketTable.Inv;
    var id := h.ids[r.name];
    var step := SocketTable.Release(id, Later(h.w.clock, now));
    HeldIndex(h.w, id);
    SocketTable.RunOne(h.w, step);
    SocketTable.NextInv(h.w, step);
    FairLess(h, PutBack(h, r, now), r.name);
    hide SocketTable.Knows, SocketTable.RunFrom, Has;
    forall x, slot, ifindex, fd | SocketTable.Knows(h.w, x, slot, ifindex, fd) && x != id
      ensures SocketTable.Knows(SocketTable.Next(h.w, step), x, slot, ifindex, fd)
    {
      SocketTable.NextKnows(h.w, step, x, slot, ifindex, fd);
    }
  }

  lemma HeldIndex(w: World, id: nat)
    requires SocketTable.Inv(w) && id in w.held
    ensures w.held[id].index <= SocketTable.MAP_BITS
  {
  }

  /** Without the record at `k`, once its socket, if it had one, was put back. */
  lemma PutBackGood(h: Hold, rs: seq<Rec>, k: nat, now: int)
    requires Good(h, rs) && k < |rs|
    ensures Good(if rs[k].valid then PutBack(h, rs[k], now) else h, rs[..k] + rs[k + 1..])
  {
    hide Fair, PutBack, SocketTable.Knows;
    var r, q := rs[k], rs[..k] + rs[k + 1..];
    var g := if r.valid then PutBack(h, r, now) else h;
    if r.valid {
      PutBackMoves(h, r, now);
    }
    IdsDiffer(h);
    forall i | 0 <= i < |q|
      ensures Has(g, q[i])
    {
      var j := if i < k then i else i + 1;
      assert q[i] == rs[j] && rs[j].name != r.name && Has(h, rs[j]) && Has(h, r);
      HasStays(h, g, rs[j]);
    }
    forall x | x in g.ids
      ensures Named(q, x)
    {
      var i :| 0 <= i < |rs| && rs[i].name == x;
      assert i != k;
      assert q[if i < k then i else i - 1].name == x;
    }
  }

  lemma IdsDiffer(h: Hold)
    requires Fair(h)
    ensures forall x, y :: x in h.ids && y in h.ids && x != y ==> h.ids[x] != h.ids[y]
  {
  }

  // ---------- A sweep ----------

  /** The list around the record that a sweep has come to. */
  lemma Around(kept: seq<Rec>, rs: seq<Rec>, q: Rec)
    requires rs != []
    ensures var all, k := kept + rs, |kept|;
      && k < |all| && all[k] == rs[0] && all == (kept + [rs[0]]) + rs[1..]
      && all[..k] + all[k + 1..] == kept + rs[1..] && all[k := q] == (kept + [q]) + rs[1..]
  {
  }

  lemma Behind(kept: seq<Rec>, q: Rec, rest: seq<Rec>)
    ensures kept + ([q] + rest) == (kept + [q]) + rest
  {
  }

  /** Failed or not, a sweep keeps it so. */
  lemma {:induction false} SweepGood(h: Hold, kept: seq<Rec>, rs: seq<Rec>, answer: string -> Answer)
    requires Good(h, kept + rs)
    ensures var (g, o) := SweepOn(h, rs, answer); Good(g, kept + o.slaves)
    decreases |rs|
  {
    hide Good, Acquire, PutBack;
    if rs != [] {
      var r, rest := rs[0], rs[1..];
      var a := answer(r.name);
      Around(kept, rs, r);
      if r.deleted {
        PutBackGood(h, kept + rs, |kept|, a.now);
        SweepGood(if r.valid then PutBack(h, r, a.now) else h, kept, rest, answer);
      } else if r.valid {
        SweepGood(h, kept + [r], rest, answer);
        Behind(kept, r, SweepOn(h, rest, answer).1.slaves);
      } else {
        AcquireGood(h, kept + rs, |kept|, a);
        var (h1, sock) := Acquire(h, r, a);
        if sock.Some? {
          var q := Acquired(r, sock.value);
          Around(kept, rs, q);
          SweepGood(h1, kept + [q], rest, answer);
          Behind(kept, q, SweepOn(h1, rest, answer).1.slaves);
        }
      }
    }
  }

  /** Sweeps of a list that differ in what they would answer to other names are the same. */
  lemma {:induction false} SweptAgree(rs: seq<Rec>, f: string -> Option<Sock>, g: string -> Option<Sock>)
    requires forall i :: 0 <= i < |rs| ==> f(rs[i].name) == g(rs[i].name)
    ensures Swept(rs, f) == Swept(rs, g)
    decreases |rs|
  {
    if rs != [] {
      assert f(rs[0].name) == g(rs[0].name);
      SweptAgree(rs[1..], f, g);
    }
  }

  /** On the table a sweep does to the list what the sweep on values does, for the sockets that the table gave. */
  lemma {:induction false} SweepIsSwept(h: Hold, rs: seq<Rec>, answer: string -> Answer)
    returns (sockFor: string -> Option<Sock>)
    requires Distinct(rs)
    ensures SweepOn(h, rs, answer).1 == Swept(rs, sockFor)
    decreases |rs|
  {
    hide Acquire, PutBack, Distinct;
    sockFor := x => None;
    if rs != [] {
      var r, rest := rs[0], rs[1..];
      assert rs == [r] + rest;
      DistinctCons(r, rest);
      if r.deleted {
        sockFor := SweepIsSwept(if r.valid then PutBack(h, r, answer(r.name).now) else h, rest, answer);
      } else if r.valid {
        sockFor := SweepIsSwept(h, rest, answer);
      } else {
        var (h1, sock) := Acquire(h, r, answer(r.name));
        if sock.Some? {
          var f := SweepIsSwept(h1, rest, answer);
          sockFor := x => if x == r.name then sock else f(x);
          SweptAgree(rest, sockFor, f);
        }
      }
    }
  }

  // ---------- Every run ----------

  /** A step of another holder, a new text, or a sweep, with the answers of the system and the clock. */
  datatype Act =
    | Other(step: SocketTable.Step)
    | Verify(names: seq<string>, ifindexOf: string -> int)
    | Sweep(answer: string -> Answer)

  ghost function Do(b: Bond, act: Act): Bond {
    match act
    case Other(s) =>
      if SocketTable.Enabled(b.h.w, s) && s.id !in b.h.ids.Values then b.(h := b.h.(w := SocketTable.Next(b.h.w, s)))
      else b
    case Verify(names, ifindexOf) => b.(slaves := Verified(b.slaves, names, ifindexOf).0)
    case Sweep(answer) =>
      var (g, o) := SweepOn(b.h, b.slaves, answer);
      Bond(g, o.slaves)
  }

  ghost function Acts(b: Bond, acts: seq<Act>): Bond
    decreases |acts|
  {
    if acts == [] then b else Acts(Do(b, acts[0]), acts[1..])
  }

  /** A port whose slaves have been read, and have no sockets yet. */
  ghost function Begin(w: World, rs: seq<Rec>): Bond {
    Bond(Hold(w, map[], {}, {}), rs)
  }

  ghost predicate Unserved(rs: seq<Rec>) {
    Distinct(rs) && forall i :: 0 <= i < |rs| ==> !rs[i].valid && rs[i].ifindex >= 0
  }

  lemma OtherGood(h: Hold, rs: seq<Rec>, s: SocketTable.Step)
    requires Good(h, rs) && SocketTable.Enabled(h.w, s) && s.id !in h.ids.Values
    ensures Good(h.(w := SocketTable.Next(h.w, s)), rs)
  {
    OtherFair(h, s);
    hide SocketTable.Knows, Has, SocketTable.Next, SocketTable.Enabled, SocketTable.Inv, Distinct, Named;
    forall i | 0 <= i < |rs|
      ensures Has(h.(w := SocketTable.Next(h.w, s)), rs[i])
    {
      OtherHas(h, rs[i], s);
    }
    hide Fair;
  }

  lemma OtherFair(h: Hold, s: SocketTable.Step)
    requires Fair(h) && SocketTable.Enabled(h.w, s)
    ensures Fair(h.(w := SocketTable.Next(h.w, s)))
  {
    hide SocketTable.Inv, SocketTable.Next, SocketTable.Enabled;
    SocketTable.NextInv(h.w, s);
    StepAsks(h.w, s);
    assert forall i :: i in h.got ==> i in h.w.asked.Keys;
  }

  lemma StepAsks(w: World, s: SocketTable.Step)
    requires SocketTable.Enabled(w, s)
    ensures w.asked.Keys <= SocketTable.Next(w, s).asked.Keys
    ensures forall i :: i in SocketTable.Next(w, s).held ==> i in w.held || (i == s.id && i !in w.asked)
  {
  }

  lemma OtherHas(h: Hold, r: Rec, s: SocketTable.Step)
    requires SocketTable.Inv(h.w) && Has(h, r) && SocketTable.Enabled(h.w, s) && s.id !in h.ids.Values
    ensures Has(h.(w := SocketTable.Next(h.w, s)), r)
  {
    hide SocketTable.Inv, SocketTable.Knows, SocketTable.Next;
    if r.valid {
      SocketTable.NextKnows(h.w, s, h.ids[r.name], r.fdIndex, r.ifindex, r.fd);
    }
  }

  lemma VerifyGood(h: Hold, rs: seq<Rec>, names: seq<string>, ifindexOf: string -> int)
    requires Good(h, rs)
    ensures Good(h, Verified(rs, names, ifindexOf).0)
  {
    hide Fair, SocketTable.Knows, Live, Verified;
    VerifiedMeans(rs, names, ifindexOf);
    var q := Verified(rs, names, ifindexOf).0;
    var more := |q| - |rs|;
    forall x | x in h.ids
      ensures exists j :: more <= j < |q| && q[j].name == x
    {
      var i :| 0 <= i < |rs| && rs[i].name == x;
      assert q[more + i].name == x;
    }
    forall i | 0 <= i < |q|
      ensures Has(h, q[i])
    {
      if i >= more {
        assert Has(h, rs[i - more]) && q[more + (i - more)] == rs[i - more].(deleted := q[more + (i - more)].deleted);
      } else {
        forall x | x in h.ids
          ensures x != q[i].name
        {
          var j :| more <= j < |q| && q[j].name == x;
        }
      }
    }
  }

  lemma DoGood(b: Bond, act: Act)
    requires Good(b.h, b.slaves)
    ensures Good(Do(b, act).h, Do(b, act).slaves)
  {
    hide Good, Verified, SweepOn, SocketTable.Enabled, SocketTable.Next;
    match act
    case Other(s) =>
      if SocketTable.Enabled(b.h.w, s) && s.id !in b.h.ids.Values {
        OtherGood(b.h, b.slaves, s);
      }
    case Verify(names, ifindexOf) => VerifyGood(b.h, b.slaves, names, ifindexOf);
    case Sweep(answer) =>
      assert [] + b.slaves == b.slaves;
      SweepGood(b.h, [], b.slaves, answer);
      assert [] + SweepOn(b.h, b.slaves, answer).1.slaves == SweepOn(b.h, b.slaves, answer).1.slaves;
  }

  lemma {:induction false} ActsGood(b: Bond, acts: seq<Act>)
    requires Good(b.h, b.slaves)
    ensures Good(Acts(b, acts).h, Acts(b, acts).slaves)
    decreases |acts|
  {
    hide Good, Do;
    if acts != [] {
      DoGood(b, acts[0]);
      ActsGood(Do(b, acts[0]), acts[1..]);
    }
  }

  lemma BeginGood(w: World, rs: seq<Rec>)
    requires SocketTable.Inv(w) && Unserved(rs)
    ensures Good(Begin(w, rs).h, rs)
  {
    hide SocketTable.Inv;
  }

  // ---------- Sockets are neither lost nor put back twice ----------

  function Sockets(rs: seq<Rec>): nat {
    if rs == [] then 0 else (if rs[0].valid then 1 else 0) + Sockets(rs[1..])
  }

  function Served(rs: seq<Rec>): set<string> {
    set i | 0 <= i < |rs| && rs[i].valid :: rs[i].name
  }

  lemma {:induction false} ServedSize(rs: seq<Rec>)
    requires Distinct(rs)
    ensures |Served(rs)| == Sockets(rs)
    decreases |rs|
  {
    if rs == [] {
      assert Served(rs) == {};
    } else {
      var r, rest := rs[0], rs[1..];
      assert rs == [r] + rest;
      DistinctCons(r, rest);
      ServedSize(rest);
      assert Served(rs) == Served(rest) + (if r.valid then {r.name} else {}) by {
        ServedCons(r, rest);
      }
      assert r.name !in Served(rest);
    }
  }

  lemma ServedCons(r: Rec, rest: seq<Rec>)
    ensures Served([r] + rest) == Served(rest) + (if r.valid then {r.name} else {})
  {
    var rs := [r] + rest;
    forall x | x in Served(rest)
      ensures x in Served(rs)
    {
      var i :| 0 <= i < |rest| && rest[i].valid && rest[i].name == x;
      assert rs[i + 1].name == x;
    }
    assert r.valid ==> rs[0].name in Served(rs);
  }

  /** The slaves with sockets are the holders of the port. */
  lemma GoodServed(h: Hold, rs: seq<Rec>)
    requires Good(h, rs)
    ensures h.ids.Keys == Served(rs) && forall x :: x in h.ids ==> h.ids[x] in h.w.held
  {
    hide Fair, Distinct;
    forall x | x in h.ids
      ensures x in Served(rs) && h.ids[x] in h.w.held
    {
      var i :| 0 <= i < |rs| && rs[i].name == x;
      assert Has(h, rs[i]);
    }
    forall x | x in Served(rs)
      ensures x in h.ids
    {
      var i :| 0 <= i < |rs| && rs[i].valid && rs[i].name == x;
      assert Has(h, rs[i]);
    }
  }

  lemma FairCounts(h: Hold)
    requires Fair(h)
    ensures |h.got| == |h.back| + |h.ids|
  {
    hide SocketTable.Inv;
    Injective(h.ids);
    assert h.ids.Values !! h.back && h.got == h.ids.Values + h.back;
  }

  lemma GoodCounts(h: Hold, rs: seq<Rec>)
    requires Good(h, rs)
    ensures |h.got| == |h.back| + Sockets(rs)
    ensures forall i :: i in h.got ==> (i in h.w.held <==> i !in h.back)
  {
    GoodServed(h, rs);
    FairCounts(h);
    ServedSize(rs);
    hide SocketTable.Inv, Has, Distinct, Served, Sockets;
    assert |h.ids| == |h.ids.Keys|;
  }

  /**
  In every run of verifications and sweeps, whether they fail or not, and of other holders: every
  handle that the port has taken is with one of its slaves, or was put back; as many are out as
  slaves have sockets; and what a slave remembers of its socket is what the table says.
  */
  lemma SocketsConserved(steps: seq<SocketTable.Step>, rs: seq<Rec>, acts: seq<Act>)
    requires Unserved(rs)
    ensures var b := Acts(Begin(SocketTable.Run(steps), rs), acts);
      && SocketTable.Inv(b.h.w)
      && b.h.back <= b.h.got && |b.h.got| == |b.h.back| + Sockets(b.slaves)
      && (forall i :: i in b.h.got ==> (i in b.h.w.held <==> i !in b.h.back))
      && (forall k :: 0 <= k < |b.slaves| && b.slaves[k].valid ==>
            var r := b.slaves[k];
            && r.name in b.h.ids && b.h.ids[r.name] in b.h.got
            && SocketTable.Knows(b.h.w, b.h.ids[r.name], r.fdIndex, r.ifindex, r.fd))
  {
    hide Acts, Begin, SocketTable.Inv, SocketTable.Run, SocketTable.Knows, Unserved;
    SocketTable.RunInv(steps);
    BeginGood(SocketTable.Run(steps), rs);
    BeginSlaves(SocketTable.Run(steps), rs);
    ActsGood(Begin(SocketTable.Run(steps), rs), acts);
    var b := Acts(Begin(SocketTable.Run(steps), rs), acts);
    GoodCounts(b.h, b.slaves);
    forall k | 0 <= k < |b.slaves| && b.slaves[k].valid
      ensures Has(b.h, b.slaves[k])
    {
    }
  }

  lemma BeginSlaves(w: World, rs: seq<Rec>)
    ensures Begin(w, rs).slaves == rs
  {
  }

  // ---------- Retries ----------

  /** Between two verifications: nobody who stays is lost or added, or loses a socket. */
  ghost predicate Carried(rs: seq<Rec>, was: seq<Rec>) {
    Distinct(rs) && (forall x :: Live(rs, x) <==> Live(was, x)) && SameCrew(Alive(rs), Alive(was))
  }

  lemma {:induction false} ActsCarry(b: Bond, acts: seq<Act>)
    requires Distinct(b.slaves) && forall act :: act in acts ==> !act.Verify?
    ensures Carried(Acts(b, acts).slaves, b.slaves)
    decreases |acts|
  {
    hide Distinct, Live, Alive, SameCrew, Do;
    SameCrewSelf(Alive(b.slaves));
    if acts != [] {
      var c := Do(b, acts[0]);
      DoCarries(b, acts[0]);
      ActsCarry(c, acts[1..]);
      SameCrewTrans(Alive(Acts(c, acts[1..]).slaves), Alive(c.slaves), Alive(b.slaves));
    }
  }

  lemma DoCarries(b: Bond, act: Act)
    requires Distinct(b.slaves) && !act.Verify?
    ensures Carried(Do(b, act).slaves, b.slaves)
  {
    hide Distinct, Live, Alive, SameCrew, SweepOn, Swept, SocketTable.Enabled, SocketTable.Next;
    SameCrewSelf(Alive(b.slaves));
    if act.Sweep? {
      var f := SweepIsSwept(b.h, b.slaves, act.answer);
      SweptLosesNobody(b.slaves, f);
      SweptNames(b.slaves, f, "");
      forall x
        ensures Live(Swept(b.slaves, f).slaves, x) <==> Live(b.slaves, x)
      {
        SweptNames(b.slaves, f, x);
      }
    }
  }

  /** A sweep that gets to the end leaves no marks, and a socket everywhere. */
  lemma SweepCompletes(b: Bond, answer: string -> Answer)
    requires Distinct(b.slaves) && SweepOn(b.h, b.slaves, answer).1.ok
    ensures var c := Do(b, Sweep(answer)); forall i :: 0 <= i < |c.slaves| ==> c.slaves[i].valid && !c.slaves[i].deleted
  {
    hide SweepOn, Swept, Distinct;
    var f := SweepIsSwept(b.h, b.slaves, answer);
    SweptWhole(b.slaves, f);
  }

  /** `r` has the name of `was`, which had a socket. */
  predicate Same(r: Rec, was: Rec) {
    was.valid && was.name == r.name
  }

  /**
  However many sweeps fail after a text was verified, and whatever others do meanwhile: once one
  has got to the end, the slaves are the names of the text, and those that had a socket have kept it.
  */
  lemma RetriesMean(b: Bond, names: seq<string>, ifindexOf: string -> int, acts: seq<Act>, answer: string -> Answer)
    requires Distinct(b.slaves) && Verified(b.slaves, names, ifindexOf).1 && forall act :: act in acts ==> !act.Verify?
    requires var c := Acts(Do(b, Verify(names, ifindexOf)), acts); SweepOn(c.h, c.slaves, answer).1.ok
    ensures var d := Do(Acts(Do(b, Verify(names, ifindexOf)), acts), Sweep(answer));
      && (forall x :: Named(d.slaves, x) <==> x in names) && Distinct(d.slaves)
      && (forall i :: 0 <= i < |d.slaves| ==> d.slaves[i].valid && !d.slaves[i].deleted)
      && (forall i, j :: 0 <= i < |d.slaves| && 0 <= j < |b.slaves| && Same(d.slaves[i], b.slaves[j]) ==>
            d.slaves[i].fdIndex == b.slaves[j].fdIndex && d.slaves[i].fd == b.slaves[j].fd)
  {
    hide Distinct, Live, Named, Alive, SameCrew, SweepOn, Verified, Acts;
    var v := Do(b, Verify(names, ifindexOf));
    VerifiedMeans(b.slaves, names, ifindexOf);
    var c := Acts(v, acts);
    var d := Do(c, Sweep(answer));
    ActsCarry(v, acts);
    DoCarries(c, Sweep(answer));
    SameCrewTrans(Alive(d.slaves), Alive(c.slaves), Alive(v.slaves));
    SweepCompletes(c, answer);
    AliveAll(d.slaves);
    forall x
      ensures Named(d.slaves, x) <==> x in names
    {
      NamedLive(d.slaves, x);
    }
    forall i, j | 0 <= i < |d.slaves| && 0 <= j < |b.slaves| && Same(d.slaves[i], b.slaves[j])
      ensures d.slaves[i].fdIndex == b.slaves[j].fdIndex && d.slaves[i].fd == b.slaves[j].fd
    {
      Survives(v.slaves, b.slaves, d.slaves, i, j);
    }
  }

  /** A record that had a socket before the verification, and stays, is the record it was. */
  lemma Survives(v: seq<Rec>, rs: seq<Rec>, s: seq<Rec>, i: nat, j: nat)
    requires Distinct(v) && SameCrew(s, Alive(v)) && i < |s| && j < |rs| && rs[j].valid && rs[j].name == s[i].name
    requires |v| >= |rs| && forall k :: 0 <= k < |rs| ==>
             v[|v| - |rs| + k] == rs[k].(deleted := v[|v| - |rs| + k].deleted)
    ensures s[i].fdIndex == rs[j].fdIndex && s[i].fd == rs[j].fd
  {
    hide Distinct, Alive;
    AliveIsAlive(v, i);
    var more := |v| - |rs|;
    var k :| 0 <= k < |v| && v[k] == Alive(v)[i];
    OneOfName(v, k, more + j);
    assert s[i] == Alive(v)[i] || Kept(s[i], Alive(v)[i]);
    hide SameCrew;
  }

  lemma OneOfName(rs: seq<Rec>, i: nat, j: nat)
    requires Distinct(rs) && i < |rs| && j < |rs|
    ensures rs[i].name == rs[j].name ==> i == j
  {
  }
}

/**
The notify protocol: what a packet means, as a grammar of nested type-length-value
elements, and what the acknowledgement of it has to say.
*/
module NotifyCodec {
  import opened Bytes
  import opened Options

  // ---------- The grammar ----------

  const TAG_SIZE := 1
  const LEN_SIZE := 2
  const NOTIFY := 1
  const NOTIFY_ACK := 2
  const MAX_TLV_LEN := 1492

  /** A structure of message type `kind`: bit 5 is set, and the low five bits are the type. */
  predicate IsStruct(tag: Octet, kind: nat) {
    tag / 32 % 2 == 1 && tag % 32 == kind
  }

  /** The values of the leading structures of type `kind`; anything else ends the list. */
  function Structs(b: seq<Octet>, kind: nat): seq<seq<Octet>>
    decreases |b|
  {
    if |b| < TAG_SIZE + LEN_SIZE || !IsStruct(b[0], kind) then []
    else
      var len := Pair(b[1], b[2]);
      if 3 + len > |b| then [] else [b[3..3 + len]] + Structs(b[3 + len..], kind)
  }

  datatype Sub = Sub(tag: Octet, value: seq<Octet>)

  /** The leading elements of the value of a structure. */
  function Subs(v: seq<Octet>): seq<Sub>
    decreases |v|
  {
    if |v| < TAG_SIZE + LEN_SIZE then []
    else
      var len := Pair(v[1], v[2]);
      if 3 + len > |v| then [] else [Sub(v[0], v[3..3 + len])] + Subs(v[3 + len..])
  }

  // ---------- Messages ----------

  const SRC4: Octet := 1
  const DST4: Octet := 2
  const SRC6: Octet := 3
  const DST6: Octet := 4
  const SEQ: Octet := 5
  const STATE: Octet := 6
  const REASON: Octet := 7
  const AD: Octet := 8
  const AD_SIZE := 263
  const AD_MAX := 262
  const CLIENT: Octet := 2

  /** `ip` is the union of the two address pairs; `ip` and `seqNum` keep their element headers. */
  datatype Msg = Msg(ver: nat, bitmap: bv16, family: nat, ip: seq<Octet>, seqNum: seq<Octet>,
                     state: nat, reason: nat, ad: seq<Octet>)

  function NewMsg(ver: nat): Msg {
    Msg(ver, 0, 0, Zeros(38), Zeros(7), 0, 0, Zeros(AD_SIZE))
  }

  ghost predicate Shaped(m: Msg) {
    |m.ip| == 38 && |m.seqNum| == 7 && |m.ad| == AD_SIZE
  }

  /** The octets of an element. */
  function Tlv(tag: Octet, value: seq<Octet>): seq<Octet>
    requires |value| < 0x1_0000
  {
    [tag] + Be16(|value|) + value
  }

  /** The port of the additional information is brought into host order where it stands. */
  function SwapPort(s: seq<Octet>): (r: seq<Octet>)
    requires |s| == AD_SIZE
    ensures |r| == AD_SIZE
  {
    s[4 := s[5]][5 := s[4]]
  }

  /** Version 0 has one octet, version 1 has four. */
  predicate FlagLen(ver: nat, len: nat) {
    (ver == 0 && len == 1) || (ver == 1 && len == 4)
  }

  /** The element is one that a message of version `ver` takes up. */
  predicate Legal(ver: nat, x: Sub) {
    var len := |x.value|;
    || (x.tag == SRC4 && len == 4) || (x.tag == DST4 && len == 4)
    || (x.tag == SRC6 && len == 16) || (x.tag == DST6 && len == 16)
    || (x.tag == SEQ && len == 4)
    || (x.tag == STATE && FlagLen(ver, len)) || (x.tag == REASON && FlagLen(ver, len))
    || (x.tag == AD && len <= AD_MAX)
  }

  function Bit(tag: Octet): bv16
  {
    if tag == SRC4 then 1 else if tag == DST4 then 2 else if tag == SRC6 then 4 else if tag == DST6 then 8
    else if tag == SEQ then 16 else if tag == STATE then 32 else if tag == REASON then 64
    else if tag == AD then 128 else 0
  }

  /** The value of a legal element goes to its field. */
  function StoreValue(m: Msg, x: Sub): (r: Msg)
    requires Shaped(m) && Legal(m.ver, x)
    ensures Shaped(r) && r.ver == m.ver
  {
    if x.tag == SRC4 then m.(ip := Put(m.ip, 0, Tlv(SRC4, x.value)), family := AF_INET)
    else if x.tag == DST4 then m.(ip := Put(m.ip, 7, Tlv(DST4, x.value)))
    else if x.tag == SRC6 then m.(ip := Put(m.ip, 0, Tlv(SRC6, x.value)), family := AF_INET6)
    else if x.tag == DST6 then m.(ip := Put(m.ip, 19, Tlv(DST6, x.value)))
    else if x.tag == SEQ then m.(seqNum := Tlv(SEQ, x.value))
    else if x.tag == STATE then m.(state := FromBe(x.value))
    else if x.tag == REASON then m.(reason := FromBe(x.value))
    else m.(ad := SwapPort(Put(m.ad, 0, x.value)))
  }

  /** snsd_get_value: what an element does to the message. */
  function Store(m: Msg, x: Sub): (r: Msg)
    requires Shaped(m)
    ensures Shaped(r) && r.ver == m.ver
  {
    if Legal(m.ver, x) then StoreValue(m, x).(bitmap := m.bitmap | Bit(x.tag)) else m
  }

  function Decode(m: Msg, xs: seq<Sub>): (r: Msg)
    requires Shaped(m)
    ensures Shaped(r) && r.ver == m.ver
  {
    if xs == [] then m else Store(Decode(m, xs[..|xs| - 1]), xs[|xs| - 1])
  }

  function Parse(ver: nat, v: seq<Octet>): (r: Msg)
    ensures Shaped(r) && r.ver == ver
  {
    Decode(NewMsg(ver), Subs(v))
  }

  const COMPLETE4: bv16 := 0xF3
  const COMPLETE6: bv16 := 0xFC

  predicate Complete(m: Msg) {
    m.bitmap == COMPLETE4 || m.bitmap == COMPLETE6
  }

  // ---------- The bitmap ----------

  predicate Seen(ver: nat, xs: seq<Sub>, tag: Octet) {
    exists x :: x in xs && x.tag == tag && Legal(ver, x)
  }

  lemma SeenMore(ver: nat, xs: seq<Sub>, tag: Octet)
    requires xs != []
    ensures var x := xs[|xs| - 1];
      Seen(ver, xs, tag) <==> Seen(ver, xs[..|xs| - 1], tag) || (x.tag == tag && Legal(ver, x))
  {
    var ys, x := xs[..|xs| - 1], xs[|xs| - 1];
    assert xs == ys + [x];
    if Seen(ver, ys, tag) {
      var y :| y in ys && y.tag == tag && Legal(ver, y);
      assert y in xs;
    }
    if Seen(ver, xs, tag) {
      var y :| y in xs && y.tag == tag && Legal(ver, y);
      assert y in ys || y == x;
    }
  }

  lemma BitsDiffer(s: Octet, t: Octet)
    requires 1 <= s <= 8 && 1 <= t <= 8
    ensures Bit(s) & Bit(t) != 0 <==> s == t
    ensures Bit(s) & 0xFF00 == 0
  {
    if s == 1 {
    } else if s == 2 {
    } else if s == 3 {
    } else if s == 4 {
    } else if s == 5 {
    } else if s == 6 {
    } else if s == 7 {
    }
  }

  lemma OrAnd(m: bv16, a: bv16, b: bv16)
    ensures (m | a) & b != 0 <==> m & b != 0 || a & b != 0
  {
  }

  /** The bitmap holds exactly the types that were seen with a legal length. */
  lemma {:induction false} BitmapExact(ver: nat, xs: seq<Sub>, tag: Octet)
    requires 1 <= tag <= 8
    ensures var m := Decode(NewMsg(ver), xs);
      && (m.bitmap & Bit(tag) != 0 <==> Seen(ver, xs, tag))
      && m.bitmap & 0xFF00 == 0
    decreases |xs|
  {
    hide StoreValue, Seen, Bit;
    if xs == [] {
      assert NewMsg(ver).bitmap == 0;
      assert !Seen(ver, [], tag) by { SeenNone(ver, tag); }
    } else {
      var ys, x := xs[..|xs| - 1], xs[|xs| - 1];
      var m := Decode(NewMsg(ver), ys);
      BitmapExact(ver, ys, tag);
      SeenMore(ver, xs, tag);
      if Legal(ver, x) {
        BitsDiffer(x.tag, tag);
        OrAnd(m.bitmap, Bit(x.tag), Bit(tag));
        OrAnd(m.bitmap, Bit(x.tag), 0xFF00);
      }
    }
  }

  lemma SeenNone(ver: nat, tag: Octet)
    ensures !Seen(ver, [], tag)
  {
  }

  /** A message is complete for IPv4 iff all fields of that family were seen, and no address of the other. */
  lemma CompleteExact(ver: nat, xs: seq<Sub>)
    ensures var m := Decode(NewMsg(ver), xs);
      && (m.bitmap == COMPLETE4 <==>
            Seen(ver, xs, SRC4) && Seen(ver, xs, DST4) && !Seen(ver, xs, SRC6) && !Seen(ver, xs, DST6)
            && Seen(ver, xs, SEQ) && Seen(ver, xs, STATE) && Seen(ver, xs, REASON) && Seen(ver, xs, AD))
      && (m.bitmap == COMPLETE6 <==>
            !Seen(ver, xs, SRC4) && !Seen(ver, xs, DST4) && Seen(ver, xs, SRC6) && Seen(ver, xs, DST6)
            && Seen(ver, xs, SEQ) && Seen(ver, xs, STATE) && Seen(ver, xs, REASON) && Seen(ver, xs, AD))
  {
    BitmapExact(ver, xs, SRC4);
    BitmapExact(ver, xs, DST4);
    BitmapExact(ver, xs, SRC6);
    BitmapExact(ver, xs, DST6);
    BitmapExact(ver, xs, SEQ);
    BitmapExact(ver, xs, STATE);
    BitmapExact(ver, xs, REASON);
    BitmapExact(ver, xs, AD);
    hide Seen, Decode;
    EightBits(Decode(NewMsg(ver), xs).bitmap);
  }

  lemma EightBits(m: bv16)
    requires m & 0xFF00 == 0
    ensures m == COMPLETE4 <==> m & 1 != 0 && m & 2 != 0 && m & 4 == 0 && m & 8 == 0
                                && m & 16 != 0 && m & 32 != 0 && m & 64 != 0 && m & 128 != 0
    ensures m == COMPLETE6 <==> m & 1 == 0 && m & 2 == 0 && m & 4 != 0 && m & 8 != 0
                                && m & 16 != 0 && m & 32 != 0 && m & 64 != 0 && m & 128 != 0
  {
  }

  // ---------- The last legal occurrence wins ----------

  /** The value of the last legal element of that type. */
  function LastLegal(ver: nat, xs: seq<Sub>, tag: Octet): (r: Option<seq<Octet>>)
    ensures r.Some? ==> Legal(ver, Sub(tag, r.value))
  {
    if xs == [] then None
    else
      var x := xs[|xs| - 1];
      if x.tag == tag && Legal(ver, x) then Some(x.value) else LastLegal(ver, xs[..|xs| - 1], tag)
  }

  lemma {:induction false} SeenLast(ver: nat, xs: seq<Sub>, tag: Octet)
    ensures Seen(ver, xs, tag) <==> LastLegal(ver, xs, tag).Some?
    decreases |xs|
  {
    if xs != [] {
      SeenMore(ver, xs, tag);
      SeenLast(ver, xs[..|xs| - 1], tag);
    }
  }

  /** Sequence number, state and reason are those of their last legal elements. */
  lemma {:induction false} LastFieldsWin(ver: nat, xs: seq<Sub>)
    ensures var m := Decode(NewMsg(ver), xs);
      && (LastLegal(ver, xs, SEQ).Some? ==> m.seqNum == Tlv(SEQ, LastLegal(ver, xs, SEQ).value))
      && (LastLegal(ver, xs, STATE).Some? ==> m.state == FromBe(LastLegal(ver, xs, STATE).value))
      && (LastLegal(ver, xs, REASON).Some? ==> m.reason == FromBe(LastLegal(ver, xs, REASON).value))
    decreases |xs|
  {
    if xs != [] {
      hide Put, SwapPort, FromBe;
      LastFieldsWin(ver, xs[..|xs| - 1]);
    }
  }

  /** With no address of the other family, the IPv4 pair is that of the last legal elements. */
  lemma {:induction false} LastPair4Wins(ver: nat, xs: seq<Sub>)
    requires !Seen(ver, xs, SRC6) && !Seen(ver, xs, DST6)
    ensures var m := Decode(NewMsg(ver), xs);
      && (LastLegal(ver, xs, SRC4).Some? ==>
            m.ip[..7] == Tlv(SRC4, LastLegal(ver, xs, SRC4).value) && m.family == AF_INET)
      && (LastLegal(ver, xs, DST4).Some? ==> m.ip[7..14] == Tlv(DST4, LastLegal(ver, xs, DST4).value))
    decreases |xs|
  {
    if xs != [] {
      SeenMore(ver, xs, SRC6);
      SeenMore(ver, xs, DST6);
      var ys, x := xs[..|xs| - 1], xs[|xs| - 1];
      LastPair4Wins(ver, ys);
      var m := Decode(NewMsg(ver), ys);
      hide Put, SwapPort, Seen, FromBe, Be16;
      if Legal(ver, x) && (x.tag == SRC4 || x.tag == DST4) {
        var at := if x.tag == SRC4 then 0 else 7;
        PutReads(m.ip, at, Tlv(x.tag, x.value), 0, 7);
        PutReads(m.ip, at, Tlv(x.tag, x.value), 7, 14);
      }
    }
  }

  /** With no address of the other family, the IPv6 pair is that of the last legal elements. */
  lemma {:induction false} LastPair6Wins(ver: nat, xs: seq<Sub>)
    requires !Seen(ver, xs, SRC4) && !Seen(ver, xs, DST4)
    ensures var m := Decode(NewMsg(ver), xs);
      && (LastLegal(ver, xs, SRC6).Some? ==>
            m.ip[..19] == Tlv(SRC6, LastLegal(ver, xs, SRC6).value) && m.family == AF_INET6)
      && (LastLegal(ver, xs, DST6).Some? ==> m.ip[19..38] == Tlv(DST6, LastLegal(ver, xs, DST6).value))
    decreases |xs|
  {
    if xs != [] {
      SeenMore(ver, xs, SRC4);
      SeenMore(ver, xs, DST4);
      var ys, x := xs[..|xs| - 1], xs[|xs| - 1];
      LastPair6Wins(ver, ys);
      var m := Decode(NewMsg(ver), ys);
      hide Put, SwapPort, Seen, FromBe, Be16;
      if Legal(ver, x) && (x.tag == SRC6 || x.tag == DST6) {
        var at := if x.tag == SRC6 then 0 else 19;
        PutReads(m.ip, at, Tlv(x.tag, x.value), 0, 19);
        PutReads(m.ip, at, Tlv(x.tag, x.value), 19, 38);
      }
    }
  }

  /** `ad` is what the additional information `w` leaves: what it has of the port in host order, the rest as sent. */
  ghost predicate AdOf(ad: seq<Octet>, w: seq<Octet>) {
    && |ad| == AD_SIZE && |w| <= AD_MAX
    && (forall i :: 0 <= i < |w| && i != 4 && i != 5 ==> ad[i] == w[i])
    && (|w| >= 5 ==> ad[5] == w[4])
    && (|w| >= 6 ==> ad[4] == w[5])
  }

  lemma SwapLeaves(s: seq<Octet>, w: seq<Octet>)
    requires |s| == AD_SIZE && |w| <= AD_MAX
    ensures |Put(s, 0, w)| == AD_SIZE && AdOf(SwapPort(Put(s, 0, w)), w)
  {
    PutReads(s, 0, w, 0, |w|);
    var t := Put(s, 0, w);
    hide Put;
    forall i | 0 <= i < |w|
      ensures t[i] == w[i]
    {
      assert t[i] == t[0..|w|][i];
    }
  }

  /**
  As far as the last legal element reaches, the additional information is its own; what a shorter
  one does to the port beyond it is in `ShortAdSwapsBack` and `PortExact`.
  */
  lemma {:induction false} LastAdWins(ver: nat, xs: seq<Sub>)
    requires LastLegal(ver, xs, AD).Some?
    ensures AdOf(Decode(NewMsg(ver), xs).ad, LastLegal(ver, xs, AD).value)
    decreases |xs|
  {
    var ys, x := xs[..|xs| - 1], xs[|xs| - 1];
    var m := Decode(NewMsg(ver), ys);
    if x.tag == AD && Legal(ver, x) {
      SwapLeaves(m.ad, x.value);
    } else {
      LastAdWins(ver, ys);
    }
    hide AdOf, Put, SwapPort, FromBe, Be16;
  }

  lemma ShortAdSwapsBack(ver: nat)
    ensures var xs := [Sub(AD, [0, 0, 0, 0, 1, 2]), Sub(AD, [])];
      var m := Decode(NewMsg(ver), xs);
      && Legal(ver, xs[0]) && Legal(ver, xs[1])
      && m.ad[4] == 1 && m.ad[5] == 2 && !AdOf(m.ad, xs[0].value)
  {
    var first, second := Sub(AD, [0, 0, 0, 0, 1, 2]), Sub(AD, []);
    var xs := [first, second];
    assert xs[..1] == [first] && [first][..0] == [];
    var m := NewMsg(ver);
    var one := Store(m, first);
    assert Decode(m, [first]) == one;
    SwapLeaves(m.ad, first.value);
    assert one.ad[4] == 2 && one.ad[5] == 1;
    assert Put(one.ad, 0, []) == one.ad;
  }

  /** The last legal additional information of at least `n` octets. */
  function LastReach(ver: nat, xs: seq<Sub>, n: nat): (r: Option<seq<Octet>>)
    ensures r.Some? ==> n <= |r.value| <= AD_MAX
  {
    if xs == [] then None
    else
      var x := xs[|xs| - 1];
      if x.tag == AD && Legal(ver, x) && |x.value| >= n then Some(x.value) else LastReach(ver, xs[..|xs| - 1], n)
  }

  lemma PutOctet(s: seq<Octet>, t: seq<Octet>, i: nat)
    requires |t| <= |s| && i < |s|
    ensures Put(s, 0, t)[i] == if i < |t| then t[i] else s[i]
  {
  }

  /** Outside the port, every octet of the additional information is that of the last element that reaches it. */
  lemma {:induction false} AdOctet(ver: nat, xs: seq<Sub>, i: nat)
    requires i < AD_SIZE && i != 4 && i != 5
    ensures Decode(NewMsg(ver), xs).ad[i] ==
            match LastReach(ver, xs, i + 1)
            case None => 0
            case Some(w) => w[i]
    decreases |xs|
  {
    hide Put, FromBe, Be16;
    if xs == [] {
      assert Zeros(AD_SIZE)[i] == 0;
    } else {
      var ys, x := xs[..|xs| - 1], xs[|xs| - 1];
      AdOctet(ver, ys, i);
      if x.tag == AD && Legal(ver, x) {
        PutOctet(Decode(NewMsg(ver), ys).ad, x.value, i);
      }
    }
  }

  /**
  The two octets of the port as they lie in memory. An element that reaches past the port sets
  both in host order; one of five octets rewrites the first before the swap, and a shorter one
  just has them swapped again.
  */
  function PortAfter(ver: nat, xs: seq<Sub>): (Octet, Octet) {
    if xs == [] then (0, 0)
    else
      var p, x := PortAfter(ver, xs[..|xs| - 1]), xs[|xs| - 1];
      if x.tag != AD || !Legal(ver, x) then p
      else if |x.value| >= 6 then (x.value[5], x.value[4])
      else if |x.value| == 5 then (p.1, x.value[4])
      else (p.1, p.0)
  }

  lemma {:induction false} PortExact(ver: nat, xs: seq<Sub>)
    ensures var ad := Decode(NewMsg(ver), xs).ad; (ad[4], ad[5]) == PortAfter(ver, xs)
    decreases |xs|
  {
    hide Put, FromBe, Be16;
    if xs == [] {
      assert Zeros(AD_SIZE)[4] == Zeros(AD_SIZE)[5] == 0;
    } else {
      var ys, x := xs[..|xs| - 1], xs[|xs| - 1];
      PortExact(ver, ys);
      if x.tag == AD && Legal(ver, x) {
        PutOctet(Decode(NewMsg(ver), ys).ad, x.value, 4);
        PutOctet(Decode(NewMsg(ver), ys).ad, x.value, 5);
      }
    }
  }

  /**
  The last additional information past the port; whether an odd number of shorter ones came after;
  whether one had five octets.
  */
  datatype Tail = Tail(long: seq<Octet>, odd: bool, five: bool)

  function LastLong(ver: nat, xs: seq<Sub>): (r: Option<Tail>)
    ensures r.Some? ==> |r.value.long| >= 6
  {
    if xs == [] then None
    else
      var r, x := LastLong(ver, xs[..|xs| - 1]), xs[|xs| - 1];
      if x.tag != AD || !Legal(ver, x) then r
      else if |x.value| >= 6 then Some(Tail(x.value, false, false))
      else if r.None? then None
      else Some(Tail(r.value.long, !r.value.odd, r.value.five || |x.value| == 5))
  }

  lemma {:induction false} TailPort(ver: nat, xs: seq<Sub>)
    requires LastLong(ver, xs).Some? && !LastLong(ver, xs).value.five
    ensures var t := LastLong(ver, xs).value;
      PortAfter(ver, xs) == if t.odd then (t.long[4], t.long[5]) else (t.long[5], t.long[4])
    decreases |xs|
  {
    var ys, x := xs[..|xs| - 1], xs[|xs| - 1];
    if x.tag != AD || !Legal(ver, x) || |x.value| < 6 {
      TailPort(ver, ys);
    }
  }

  /**
  The port is that of the last additional information that reaches past it if and only if an
  even number of shorter ones followed, or its two octets are equal; none of five octets followed.
  */
  lemma PortRight(ver: nat, xs: seq<Sub>)
    requires LastLong(ver, xs).Some? && !LastLong(ver, xs).value.five
    ensures var t, ad := LastLong(ver, xs).value, Decode(NewMsg(ver), xs).ad;
      (ad[4], ad[5]) == (t.long[5], t.long[4]) <==> !t.odd || t.long[4] == t.long[5]
  {
    hide Decode, PortAfter, LastLong;
    PortExact(ver, xs);
    TailPort(ver, xs);
  }

  // ---------- Sizes ----------

  function Size(xs: seq<Sub>): nat {
    if xs == [] then 0 else Size(xs[..|xs| - 1]) + 3 + |xs[|xs| - 1].value|
  }

  lemma {:induction false} SizeCons(x: Sub, xs: seq<Sub>)
    ensures Size([x] + xs) == 3 + |x.value| + Size(xs)
    decreases |xs|
  {
    if xs == [] {
      assert [x] + xs == [x];
    } else {
      var ys := [x] + xs;
      assert ys[..|ys| - 1] == [x] + xs[..|xs| - 1];
      SizeCons(x, xs[..|xs| - 1]);
    }
  }

  /** The elements found in a value are not longer than the value. */
  lemma {:induction false} SubsFit(v: seq<Octet>)
    ensures Size(Subs(v)) <= |v|
    decreases |v|
  {
    if |v| >= 3 && 3 + Pair(v[1], v[2]) <= |v| {
      var len := Pair(v[1], v[2]);
      SubsFit(v[3 + len..]);
      SizeCons(Sub(v[0], v[3..3 + len]), Subs(v[3 + len..]));
    }
  }

  /** The least size of an element that is taken up as one of type `tag`. */
  function MinSize(tag: Octet): nat {
    if tag == SRC4 || tag == DST4 || tag == SEQ then 7 else if tag == SRC6 || tag == DST6 then 19
    else if tag == STATE || tag == REASON then 4 else 3
  }

  function Least(ver: nat, xs: seq<Sub>, tag: Octet): nat {
    if Seen(ver, xs, tag) then MinSize(tag) else 0
  }

  function LeastAll(ver: nat, xs: seq<Sub>): nat {
    Least(ver, xs, SRC4) + Least(ver, xs, DST4) + Least(ver, xs, SRC6) + Least(ver, xs, DST6)
    + Least(ver, xs, SEQ) + Least(ver, xs, STATE) + Least(ver, xs, REASON) + Least(ver, xs, AD)
  }

  lemma LeastMore(ver: nat, xs: seq<Sub>, tag: Octet)
    requires xs != []
    ensures Least(ver, xs, tag) <= Least(ver, xs[..|xs| - 1], tag)
                                   + (if xs[|xs| - 1].tag == tag && Legal(ver, xs[|xs| - 1]) then MinSize(tag) else 0)
  {
    SeenMore(ver, xs, tag);
  }

  /** Whatever was seen takes room: the elements are at least as long as one of each type seen. */
  lemma {:induction false} LeastFits(ver: nat, xs: seq<Sub>)
    ensures LeastAll(ver, xs) <= Size(xs)
    decreases |xs|
  {
    if xs == [] {
      assert LeastAll(ver, xs) == 0;
    } else {
      LeastFits(ver, xs[..|xs| - 1]);
      LeastMore(ver, xs, SRC4);
      LeastMore(ver, xs, DST4);
      LeastMore(ver, xs, SRC6);
      LeastMore(ver, xs, DST6);
      LeastMore(ver, xs, SEQ);
      LeastMore(ver, xs, STATE);
      LeastMore(ver, xs, REASON);
      LeastMore(ver, xs, AD);
      hide Least;
    }
  }

  // ---------- Acknowledgements ----------

  const ACK_TAG: Octet := 0x22

  /** The address pair of a message, with the headers of its two elements. */
  function AddressPair(m: Msg): (r: seq<Octet>)
    requires Shaped(m)
    ensures |r| == if m.family == AF_INET then 14 else if m.family == AF_INET6 then 38 else 0
  {
    if m.family == AF_INET then m.ip[..14] else if m.family == AF_INET6 then m.ip else []
  }

  /** The acknowledgement of one message: its addresses and its sequence number. */
  function AckOf(m: Msg): (r: seq<Octet>)
    requires Shaped(m)
    ensures |r| == if m.family == AF_INET then 24 else if m.family == AF_INET6 then 48 else 0
  {
    if m.family == AF_INET || m.family == AF_INET6 then Tlv(ACK_TAG, AddressPair(m) + m.seqNum) else []
  }

  function Acks(ms: seq<Msg>): seq<Octet>
    requires forall m :: m in ms ==> Shaped(m)
  {
    if ms == [] then [] else Acks(ms[..|ms| - 1]) + AckOf(ms[|ms| - 1])
  }

  /** A complete message was at least as long as its acknowledgement, without its own header. */
  lemma AckFitsRoot(ver: nat, v: seq<Octet>)
    requires Complete(Parse(ver, v))
    ensures var m := Parse(ver, v);
      && (m.bitmap == COMPLETE4 ==> |v| >= 32 && |AckOf(m)| == 24)
      && (m.bitmap == COMPLETE6 ==> |v| >= 56 && |AckOf(m)| == 48)
  {
    var xs := Subs(v);
    SubsFit(v);
    LeastFits(ver, xs);
    CompleteExact(ver, xs);
    SeenLast(ver, xs, SRC4);
    SeenLast(ver, xs, SRC6);
    hide Seen, Store, LastLegal, Size, Subs;
    if Parse(ver, v).bitmap == COMPLETE4 {
      LastPair4Wins(ver, xs);
    } else {
      LastPair6Wins(ver, xs);
    }
  }

  // ---------- From the packet to the acknowledgement ----------

  /** The address of this host in a message. */
  function HostAddress(m: Msg): (r: seq<Octet>)
    requires Shaped(m)
  {
    if m.family == AF_INET then m.ip[10..14] else m.ip[22..38]
  }

  /** snsd_check_hostip_consistent */
  predicate ForThisHost(hosts: seq<Ip>, m: Msg)
    requires Shaped(m)
  {
    exists i :: 0 <= i < |hosts| &&
      ((m.family == AF_INET && hosts[i][..4] == HostAddress(m)) || (m.family == AF_INET6 && hosts[i] == HostAddress(m)))
  }

  /** The messages of a packet that are complete and meant for this host, in order. */
  function Accepted(ver: nat, hosts: seq<Ip>, roots: seq<seq<Octet>>): (r: seq<Msg>)
    ensures forall m :: m in r ==> Shaped(m)
  {
    if roots == [] then []
    else
      var m := Parse(ver, roots[|roots| - 1]);
      Accepted(ver, hosts, roots[..|roots| - 1]) + (if Complete(m) && ForThisHost(hosts, m) then [m] else [])
  }

  /** Those of the messages whose post succeeded. */
  function Picked(ms: seq<Msg>, results: seq<bool>): (r: seq<Msg>)
    requires |results| == |ms|
    ensures forall m :: m in r ==> m in ms
  {
    if ms == [] then []
    else Picked(ms[..|ms| - 1], results[..|ms| - 1]) + (if results[|ms| - 1] then [ms[|ms| - 1]] else [])
  }

  /** A packet's structures with their headers. */
  function RootsSize(roots: seq<seq<Octet>>): nat {
    if roots == [] then 0 else RootsSize(roots[..|roots| - 1]) + 3 + |roots[|roots| - 1]|
  }

  /** Whichever posts succeed, the acknowledgement is not longer than what was consumed. */
  lemma {:induction false} AckFits(ver: nat, hosts: seq<Ip>, roots: seq<seq<Octet>>, results: seq<bool>)
    requires |results| == |Accepted(ver, hosts, roots)|
    ensures |Acks(Picked(Accepted(ver, hosts, roots), results))| <= RootsSize(roots)
    decreases |roots|
  {
    if roots != [] {
      var init, root := roots[..|roots| - 1], roots[|roots| - 1];
      var ms := Accepted(ver, hosts, roots);
      var m := Parse(ver, root);
      hide Parse, AckOf, ForThisHost, Complete;
      if Complete(m) && ForThisHost(hosts, m) {
        assert ms[..|ms| - 1] == Accepted(ver, hosts, init);
        AckFits(ver, hosts, init, results[..|ms| - 1]);
        PickedSnoc(ms, results);
        AckFitsHeader(ver, root);
      } else {
        assert ms == Accepted(ver, hosts, init);
        AckFits(ver, hosts, init, results);
      }
    }
  }

  lemma AckFitsHeader(ver: nat, root: seq<Octet>)
    requires Complete(Parse(ver, root))
    ensures |AckOf(Parse(ver, root))| <= 3 + |root|
  {
    AckFitsRoot(ver, root);
    hide Parse, AckOf;
  }

  lemma AcksSnoc(p: seq<Msg>, m: Msg)
    requires Shaped(m) && forall x :: x in p ==> Shaped(x)
    ensures Acks(p + [m]) == Acks(p) + AckOf(m)
  {
    hide AckOf;
    var q := p + [m];
    assert q[..|q| - 1] == p && q[|q| - 1] == m;
  }

  lemma PickedSnoc(ms: seq<Msg>, results: seq<bool>)
    requires |results| == |ms| > 0 && forall m :: m in ms ==> Shaped(m)
    ensures |Acks(Picked(ms, results))|
         <= |Acks(Picked(ms[..|ms| - 1], results[..|ms| - 1]))| + |AckOf(ms[|ms| - 1])|
  {
    hide AckOf;
    var p, m := Picked(ms[..|ms| - 1], results[..|ms| - 1]), ms[|ms| - 1];
    if results[|ms| - 1] {
      AcksSnoc(p, m);
      assert Picked(ms, results) == p + [m];
    } else {
      assert Picked(ms, results) == p;
    }
  }

  lemma {:induction false} RootsSizeCons(r: seq<Octet>, roots: seq<seq<Octet>>)
    ensures RootsSize([r] + roots) == 3 + |r| + RootsSize(roots)
    decreases |roots|
  {
    if roots == [] {
      assert [r] + roots == [r];
    } else {
      var rs := [r] + roots;
      assert rs[..|rs| - 1] == [r] + roots[..|roots| - 1];
      RootsSizeCons(r, roots[..|roots| - 1]);
    }
  }

  lemma {:induction false} StructsFit(b: seq<Octet>, kind: nat)
    ensures RootsSize(Structs(b, kind)) <= |b|
    decreases |b|
  {
    if |b| >= 3 && IsStruct(b[0], kind) && 3 + Pair(b[1], b[2]) <= |b| {
      var len := Pair(b[1], b[2]);
      StructsFit(b[3 + len..], kind);
      RootsSizeCons(b[3..3 + len], Structs(b[3 + len..], kind));
    }
  }

  // ---------- Reading the acknowledgement back ----------

  lemma TlvHead(tag: Octet, v: seq<Octet>, rest: seq<Octet>)
    requires |v| < 0x1_0000
    ensures var b := Tlv(tag, v) + rest;
      && |b| == 3 + |v| + |rest| && b[0] == tag && Pair(b[1], b[2]) == |v| && b[3..3 + |v|] == v && b[3 + |v|..] == rest
  {
    Be16RoundTrip(|v|);
    FromBe16(Be16(|v|));
    assert Tlv(tag, v) == [tag, Be16(|v|)[0], Be16(|v|)[1]] + v;
  }

  lemma SubsTlv(tag: Octet, v: seq<Octet>, rest: seq<Octet>)
    requires |v| < 0x1_0000
    ensures Subs(Tlv(tag, v) + rest) == [Sub(tag, v)] + Subs(rest)
  {
    TlvHead(tag, v, rest);
  }

  lemma StructsTlv(tag: Octet, v: seq<Octet>, rest: seq<Octet>, kind: nat)
    requires |v| < 0x1_0000 && IsStruct(tag, kind)
    ensures Structs(Tlv(tag, v) + rest, kind) == [v] + Structs(rest, kind)
  {
    TlvHead(tag, v, rest);
  }

  ghost predicate Framed(m: Msg) {
    Shaped(m) && (m.family == AF_INET || m.family == AF_INET6)
  }

  /** The content of the acknowledgement of one message. */
  function AckValue(m: Msg): (r: seq<Octet>)
    requires Shaped(m)
    ensures |r| <= 45
  {
    AddressPair(m) + m.seqNum
  }

  function AckValues(ms: seq<Msg>): (r: seq<seq<Octet>>)
    requires forall m :: m in ms ==> Shaped(m)
    ensures |r| == |ms| && forall i :: 0 <= i < |ms| ==> r[i] == AckValue(ms[i])
  {
    if ms == [] then [] else [AckValue(ms[0])] + AckValues(ms[1..])
  }

  lemma {:induction false} AcksCons(m: Msg, ms: seq<Msg>)
    requires Shaped(m) && forall x :: x in ms ==> Shaped(x)
    ensures Acks([m] + ms) == AckOf(m) + Acks(ms)
    decreases |ms|
  {
    hide AckOf;
    if ms == [] {
      assert [m] + ms == [m];
      assert Acks([m]) == Acks([]) + AckOf(m);
    } else {
      var xs := [m] + ms;
      assert xs[..|xs| - 1] == [m] + ms[..|ms| - 1];
      AcksCons(m, ms[..|ms| - 1]);
    }
  }

  lemma AckOfFramed(m: Msg)
    requires Framed(m)
    ensures AckOf(m) == Tlv(ACK_TAG, AckValue(m))
  {
  }

  /** Read back, an acknowledgement has one structure per message, in the same order. */
  lemma {:induction false} AckWalk(ms: seq<Msg>)
    requires (forall m :: m in ms ==> Shaped(m)) && forall m :: m in ms ==> Framed(m)
    ensures Structs(Acks(ms), NOTIFY_ACK) == AckValues(ms)
    decreases |ms|
  {
    if ms == [] {
      StructsNone(NOTIFY_ACK);
    } else {
      hide Framed, AckOf, AckValue, Tlv, Structs;
      var rest := ms[1..];
      assert ms == [ms[0]] + rest;
      AckWalk(rest);
      AcksCons(ms[0], rest);
      AckOfFramed(ms[0]);
      AckTagIsStruct();
      StructsTlv(ACK_TAG, AckValue(ms[0]), Acks(rest), NOTIFY_ACK);
    }
  }

  lemma StructsNone(kind: nat)
    ensures Structs([], kind) == []
  {
  }

  lemma AckTagIsStruct()
    ensures IsStruct(ACK_TAG, NOTIFY_ACK)
  {
  }

  /** An address pair and a sequence number, as three elements. */
  function Triple(src: Sub, dst: Sub, num: Sub): seq<Octet>
    requires |src.value| <= 16 && |dst.value| <= 16 && |num.value| <= 16
  {
    Tlv(src.tag, src.value) + (Tlv(dst.tag, dst.value) + (Tlv(num.tag, num.value) + []))
  }

  lemma SubsTriple(src: Sub, dst: Sub, num: Sub)
    requires |src.value| <= 16 && |dst.value| <= 16 && |num.value| <= 16
    ensures Subs(Triple(src, dst, num)) == [src, dst, num]
  {
    hide Tlv, Subs;
    var c := Tlv(num.tag, num.value) + [];
    SubsTlv(src.tag, src.value, Tlv(dst.tag, dst.value) + c);
    SubsTlv(dst.tag, dst.value, c);
    SubsTlv(num.tag, num.value, []);
    SubsNone();
  }

  /** The source element a complete message has, by its family. */
  function SrcTag(m: Msg): Octet {
    if m.bitmap == COMPLETE4 then SRC4 else SRC6
  }

  function DstTag(m: Msg): Octet {
    if m.bitmap == COMPLETE4 then DST4 else DST6
  }

  ghost predicate AllGiven(ver: nat, xs: seq<Sub>, m: Msg) {
    && LastLegal(ver, xs, SrcTag(m)).Some?
    && LastLegal(ver, xs, DstTag(m)).Some?
    && LastLegal(ver, xs, SEQ).Some?
    && LastLegal(ver, xs, STATE).Some?
    && LastLegal(ver, xs, REASON).Some?
    && LastLegal(ver, xs, AD).Some?
  }

  lemma CompleteGiven(ver: nat, xs: seq<Sub>)
    requires Complete(Decode(NewMsg(ver), xs))
    ensures AllGiven(ver, xs, Decode(NewMsg(ver), xs))
  {
    hide Seen, LastLegal, Decode;
    var m := Decode(NewMsg(ver), xs);
    CompleteExact(ver, xs);
    SeenLast(ver, xs, SrcTag(m));
    SeenLast(ver, xs, DstTag(m));
    SeenLast(ver, xs, SEQ);
    SeenLast(ver, xs, STATE);
    SeenLast(ver, xs, REASON);
    SeenLast(ver, xs, AD);
  }

  function Last(ver: nat, xs: seq<Sub>, tag: Octet): (r: Sub)
    requires LastLegal(ver, xs, tag).Some?
    ensures r.tag == tag && Legal(ver, r)
  {
    Sub(tag, LastLegal(ver, xs, tag).value)
  }

  lemma Pair4(ver: nat, xs: seq<Sub>)
    requires Decode(NewMsg(ver), xs).bitmap == COMPLETE4
    requires LastLegal(ver, xs, SRC4).Some? && LastLegal(ver, xs, DST4).Some?
    ensures var m := Decode(NewMsg(ver), xs);
      && m.family == AF_INET
      && AddressPair(m) == Tlv(SRC4, LastLegal(ver, xs, SRC4).value) + Tlv(DST4, LastLegal(ver, xs, DST4).value)
  {
    hide Seen, LastLegal, Decode, Legal, Tlv;
    CompleteExact(ver, xs);
    LastPair4Wins(ver, xs);
    var ip := Decode(NewMsg(ver), xs).ip;
    assert ip[..14] == ip[..7] + ip[7..14];
  }

  lemma Pair6(ver: nat, xs: seq<Sub>)
    requires Decode(NewMsg(ver), xs).bitmap == COMPLETE6
    requires LastLegal(ver, xs, SRC6).Some? && LastLegal(ver, xs, DST6).Some?
    ensures var m := Decode(NewMsg(ver), xs);
      && m.family == AF_INET6
      && AddressPair(m) == Tlv(SRC6, LastLegal(ver, xs, SRC6).value) + Tlv(DST6, LastLegal(ver, xs, DST6).value)
  {
    hide Seen, LastLegal, Decode, Legal, Tlv;
    CompleteExact(ver, xs);
    LastPair6Wins(ver, xs);
    var ip := Decode(NewMsg(ver), xs).ip;
    assert ip == ip[..19] + ip[19..38];
  }

  lemma AckValueTriple(ver: nat, xs: seq<Sub>)
    requires Complete(Decode(NewMsg(ver), xs)) && AllGiven(ver, xs, Decode(NewMsg(ver), xs))
    ensures var m := Decode(NewMsg(ver), xs);
      && Framed(m)
      && AckValue(m) == Triple(Last(ver, xs, SrcTag(m)), Last(ver, xs, DstTag(m)), Last(ver, xs, SEQ))
  {
    hide LastLegal, Decode, Tlv, AddressPair;
    var m := Decode(NewMsg(ver), xs);
    if m.bitmap == COMPLETE4 {
      Pair4(ver, xs);
    } else {
      Pair6(ver, xs);
    }
    LastFieldsWin(ver, xs);
    var a, b, c := Last(ver, xs, SrcTag(m)).value, Last(ver, xs, DstTag(m)).value, Last(ver, xs, SEQ).value;
    Regroup(Tlv(SrcTag(m), a), Tlv(DstTag(m), b), Tlv(SEQ, c));
  }

  lemma Regroup(a: seq<Octet>, b: seq<Octet>, c: seq<Octet>)
    ensures (a + b) + c == a + (b + (c + []))
  {
  }

  /**
  An acknowledgement holds exactly three elements: the source, the destination and the
  sequence number that the message gave last.
  */
  lemma AckRoundTrip(ver: nat, v: seq<Octet>)
    requires Complete(Parse(ver, v))
    ensures var m, xs := Parse(ver, v), Subs(v);
      && Framed(m) && AllGiven(ver, xs, m)
      && Subs(AckValue(m)) == [Last(ver, xs, SrcTag(m)), Last(ver, xs, DstTag(m)), Last(ver, xs, SEQ)]
  {
    hide AllGiven, Framed, Decode, AckValue, Subs, LastLegal, Triple;
    var m, xs := Parse(ver, v), Subs(v);
    CompleteGiven(ver, xs);
    AckValueTriple(ver, xs);
    AckTriple(ver, xs, m);
  }

  lemma AckTriple(ver: nat, xs: seq<Sub>, m: Msg)
    requires AllGiven(ver, xs, m)
    ensures Subs(Triple(Last(ver, xs, SrcTag(m)), Last(ver, xs, DstTag(m)), Last(ver, xs, SEQ)))
         == [Last(ver, xs, SrcTag(m)), Last(ver, xs, DstTag(m)), Last(ver, xs, SEQ)]
  {
    hide LastLegal, Subs, Triple;
    SubsTriple(Last(ver, xs, SrcTag(m)), Last(ver, xs, DstTag(m)), Last(ver, xs, SEQ));
  }

  lemma SubsNone()
    ensures Subs([]) == []
  {
  }

  lemma TlvValue(tag: Octet, v: seq<Octet>, s: seq<Octet>, at: nat)
    requires |v| <= 16 && at + 3 + |v| <= |s| && s[at..at + 3 + |v|] == Tlv(tag, v)
    ensures s[at + 3..at + 3 + |v|] == v
  {
    var t := s[at..at + 3 + |v|];
    assert t[3..] == v;
    assert t[3..] == s[at + 3..at + 3 + |v|];
  }


  // ---------- Whom a message is for ----------

  /** For IPv4 the destination is compared in four octets, for IPv6 in sixteen. */
  ghost predicate Owns(hosts: seq<Ip>, d: seq<Octet>)
    requires |d| <= 16
  {
    exists i :: 0 <= i < |hosts| && hosts[i][..|d|] == d
  }

  /** The destination that a complete message gave last is what is compared with the addresses of the port. */
  lemma DestinationMeans(ver: nat, hosts: seq<Ip>, v: seq<Octet>)
    requires Complete(Parse(ver, v))
    ensures var m, xs := Parse(ver, v), Subs(v);
      AllGiven(ver, xs, m) && var d := Last(ver, xs, DstTag(m)).value;
      |d| <= 16 && (ForThisHost(hosts, m) <==> Owns(hosts, d))
  {
    hide Decode, LastLegal, Tlv, Subs, Seen;
    var m, xs := Parse(ver, v), Subs(v);
    CompleteGiven(ver, xs);
    DestinationStored(ver, xs);
    var d := Last(ver, xs, DstTag(m)).value;
    assert forall x: Ip :: x[..16] == x;
  }

  lemma DestinationStored(ver: nat, xs: seq<Sub>)
    requires Complete(Decode(NewMsg(ver), xs)) && AllGiven(ver, xs, Decode(NewMsg(ver), xs))
    ensures var m := Decode(NewMsg(ver), xs);
      && HostAddress(m) == Last(ver, xs, DstTag(m)).value
      && (m.bitmap == COMPLETE4 ==> m.family == AF_INET && |HostAddress(m)| == 4)
      && (m.bitmap == COMPLETE6 ==> m.family == AF_INET6 && |HostAddress(m)| == 16)
  {
    hide Decode, LastLegal, Tlv, Seen;
    var m := Decode(NewMsg(ver), xs);
    CompleteExact(ver, xs);
    var d := Last(ver, xs, DstTag(m)).value;
    if m.bitmap == COMPLETE4 {
      LastPair4Wins(ver, xs);
      TlvValue(DST4, d, m.ip, 7);
    } else {
      LastPair6Wins(ver, xs);
      TlvValue(DST6, d, m.ip, 19);
    }
  }

  /**
  What a request must say to be taken: every field of one family, no address of the other, and a
  destination of this port.
  */
  ghost predicate Requests(ver: nat, hosts: seq<Ip>, root: seq<Octet>) {
    var xs := Subs(root);
    && Seen(ver, xs, SEQ) && Seen(ver, xs, STATE) && Seen(ver, xs, REASON) && Seen(ver, xs, AD)
    && (|| (Seen(ver, xs, SRC4) && LastLegal(ver, xs, DST4).Some? && !Seen(ver, xs, SRC6) && !Seen(ver, xs, DST6)
            && Owns(hosts, LastLegal(ver, xs, DST4).value))
        || (Seen(ver, xs, SRC6) && LastLegal(ver, xs, DST6).Some? && !Seen(ver, xs, SRC4) && !Seen(ver, xs, DST4)
            && Owns(hosts, LastLegal(ver, xs, DST6).value)))
  }

  lemma RequestsMeans(ver: nat, hosts: seq<Ip>, root: seq<Octet>)
    ensures Requests(ver, hosts, root) <==> Complete(Parse(ver, root)) && ForThisHost(hosts, Parse(ver, root))
  {
    hide Decode, LastLegal, Subs, Seen, Owns, ForThisHost, AllGiven;
    var xs := Subs(root);
    CompleteExact(ver, xs);
    SeenLast(ver, xs, DST4);
    SeenLast(ver, xs, DST6);
    if Complete(Parse(ver, root)) {
      DestinationMeans(ver, hosts, root);
    }
  }

  ghost function Requested(ver: nat, hosts: seq<Ip>, roots: seq<seq<Octet>>): seq<seq<Octet>> {
    if roots == [] then []
    else
      var r := roots[|roots| - 1];
      Requested(ver, hosts, roots[..|roots| - 1]) + (if Requests(ver, hosts, r) then [r] else [])
  }

  /** The messages taken are those of the requests, all of them, in their order. */
  lemma {:induction false} AcceptedAre(ver: nat, hosts: seq<Ip>, roots: seq<seq<Octet>>)
    ensures var ms, rs := Accepted(ver, hosts, roots), Requested(ver, hosts, roots);
      |ms| == |rs| && forall i :: 0 <= i < |rs| ==> ms[i] == Parse(ver, rs[i])
    decreases |roots|
  {
    hide Parse, ForThisHost, Complete, Requests;
    if roots != [] {
      AcceptedAre(ver, hosts, roots[..|roots| - 1]);
      RequestsMeans(ver, hosts, roots[|roots| - 1]);
    }
  }

  lemma {:induction false} AcceptedComplete(ver: nat, hosts: seq<Ip>, roots: seq<seq<Octet>>)
    ensures forall m :: m in Accepted(ver, hosts, roots) ==>
              exists r :: r in roots && m == Parse(ver, r) && Complete(m) && Requests(ver, hosts, r)
    decreases |roots|
  {
    if roots != [] {
      hide Parse, ForThisHost, Complete, Requests;
      RequestsMeans(ver, hosts, roots[|roots| - 1]);
      AcceptedComplete(ver, hosts, roots[..|roots| - 1]);
    }
  }

  /** The structure `ack` names the addresses and the sequence number of the request `root`. */
  ghost predicate Answers(ver: nat, root: seq<Octet>, ack: seq<Octet>) {
    var m, xs := Parse(ver, root), Subs(root);
    && Complete(m) && AllGiven(ver, xs, m)
    && Subs(ack) == [Last(ver, xs, SrcTag(m)), Last(ver, xs, DstTag(m)), Last(ver, xs, SEQ)]
  }

  lemma AckAnswers(ver: nat, root: seq<Octet>)
    requires Complete(Parse(ver, root))
    ensures Framed(Parse(ver, root)) && Answers(ver, root, AckValue(Parse(ver, root)))
  {
    hide AllGiven, Framed, Decode, AckValue, Subs, LastLegal;
    AckRoundTrip(ver, root);
  }

  /**
  The acknowledgement of a packet, read back, has one structure for each message whose post
  succeeded, in their order, and each names the addresses and the sequence number of its request.
  The messages are those of all structures that request something of this port, and of no other.
  */
  lemma AckOfPacket(ver: nat, hosts: seq<Ip>, b: seq<Octet>, results: seq<bool>)
    requires |results| == |Accepted(ver, hosts, Structs(b, NOTIFY))|
    ensures var ms := Picked(Accepted(ver, hosts, Structs(b, NOTIFY)), results);
      && |Acks(ms)| <= |b|
      && |results| == |Requested(ver, hosts, Structs(b, NOTIFY))|
      && (forall i :: 0 <= i < |results| ==>
            Accepted(ver, hosts, Structs(b, NOTIFY))[i] == Parse(ver, Requested(ver, hosts, Structs(b, NOTIFY))[i]))
      && Structs(Acks(ms), NOTIFY_ACK) == AckValues(ms)
      && forall m :: m in ms ==>
           exists r :: r in Structs(b, NOTIFY) && m == Parse(ver, r) && Requests(ver, hosts, r)
                       && Answers(ver, r, AckValue(m))
  {
    hide Requests, Requested, Complete, Structs, Parse, ForThisHost, Acks, Accepted, Picked, Answers, AckValue, Framed;
    var roots := Structs(b, NOTIFY);
    var all := Accepted(ver, hosts, roots);
    var ms := Picked(all, results);
    AckFits(ver, hosts, roots, results);
    StructsFit(b, NOTIFY);
    AcceptedComplete(ver, hosts, roots);
    AcceptedAre(ver, hosts, roots);
    forall m | m in ms
      ensures Framed(m)
      ensures exists r :: r in roots && m == Parse(ver, r) && Requests(ver, hosts, r) && Answers(ver, r, AckValue(m))
    {
      var r :| r in roots && m == Parse(ver, r) && Complete(m) && Requests(ver, hosts, r);
      AckAnswers(ver, r);
    }
    AckWalk(ms);
  }
}

/** A request as a sender lays it out, and what this program makes of it: from fields to octets to the call. */
module NotifyRequests {
  import opened Bytes
  import opened MessagePool
  import opened NotifyCodec
  import opened Options

  datatype Fields = Fields(v6: bool, src: seq<Octet>, dst: seq<Octet>, seqNum: seq<Octet>, state: seq<Octet>,
                           reason: seq<Octet>, ad: seq<Octet>)

  predicate Fits(f: Fields) {
    && |f.src| < 0x1_0000 && |f.dst| < 0x1_0000 && |f.seqNum| < 0x1_0000
    && |f.state| < 0x1_0000 && |f.reason| < 0x1_0000 && |f.ad| < 0x1_0000
  }

  /** The lengths that version 0 or 1 of the protocol asks for. */
  predicate WellFormed(ver: nat, f: Fields) {
    && ver <= 1 && |f.src| == |f.dst| == (if f.v6 then 16 else 4) && |f.seqNum| == 4
    && |f.state| == |f.reason| == (if ver == 0 then 1 else 4) && |f.ad| <= 262
  }

  /** The six elements of a request, by the numbers of their types. */
  function ElementsOf(f: Fields): seq<Sub> {
    [Sub(if f.v6 then 3 else 1, f.src), Sub(if f.v6 then 4 else 2, f.dst), Sub(5, f.seqNum), Sub(6, f.state),
     Sub(7, f.reason), Sub(8, f.ad)]
  }

  /** Type, length and value of each, one after the other. */
  function Request(f: Fields): seq<Octet>
    requires Fits(f)
  {
    Tlv(if f.v6 then 3 else 1, f.src) + (Tlv(if f.v6 then 4 else 2, f.dst) + (Tlv(5, f.seqNum)
    + (Tlv(6, f.state) + (Tlv(7, f.reason) + (Tlv(8, f.ad) + [])))))
  }

  lemma SubsRequest(f: Fields)
    requires Fits(f)
    ensures Subs(Request(f)) == ElementsOf(f)
  {
    hide Subs, Tlv;
    SubsNone();
    SubsTlv(8, f.ad, []);
    SubsTlv(7, f.reason, Tlv(8, f.ad) + []);
    SubsTlv(6, f.state, Tlv(7, f.reason) + (Tlv(8, f.ad) + []));
    SubsTlv(5, f.seqNum, Tlv(6, f.state) + (Tlv(7, f.reason) + (Tlv(8, f.ad) + [])));
    var rest := Tlv(5, f.seqNum) + (Tlv(6, f.state) + (Tlv(7, f.reason) + (Tlv(8, f.ad) + [])));
    SubsTlv(if f.v6 then 4 else 2, f.dst, rest);
    SubsTlv(if f.v6 then 3 else 1, f.src, Tlv(if f.v6 then 4 else 2, f.dst) + rest);
  }

  // ---------- A type that occurs once ----------

  ghost predicate Only(xs: seq<Sub>, i: nat) {
    i < |xs| && forall j :: 0 <= j < |xs| && j != i ==> xs[j].tag != xs[i].tag
  }

  lemma SeenOnly(ver: nat, xs: seq<Sub>, i: nat)
    requires Only(xs, i)
    ensures Seen(ver, xs, xs[i].tag) <==> Legal(ver, xs[i])
  {
    hide Legal;
    assert xs[i] in xs;
  }

  lemma {:induction false} LastOnly(ver: nat, xs: seq<Sub>, i: nat)
    requires Only(xs, i) && Legal(ver, xs[i])
    ensures LastLegal(ver, xs, xs[i].tag) == Some(xs[i].value)
    decreases |xs|
  {
    hide Legal;
    if i < |xs| - 1 {
      LastOnly(ver, xs[..|xs| - 1], i);
    }
  }

  lemma {:induction false} ReachNone(ver: nat, xs: seq<Sub>, n: nat)
    requires forall j :: 0 <= j < |xs| ==> xs[j].tag != AD
    ensures LastReach(ver, xs, n) == None && LastLong(ver, xs) == None
    decreases |xs|
  {
    if xs != [] {
      ReachNone(ver, xs[..|xs| - 1], n);
    }
  }

  lemma ReachLast(ver: nat, xs: seq<Sub>, n: nat)
    requires xs != [] && Only(xs, |xs| - 1) && xs[|xs| - 1].tag == AD && |xs[|xs| - 1].value| <= AD_MAX
    ensures var w := xs[|xs| - 1].value;
      && LastReach(ver, xs, n) == (if |w| >= n then Some(w) else None)
      && (|w| >= 6 ==> LastLong(ver, xs) == Some(Tail(w, false, false)))
  {
    ReachNone(ver, xs[..|xs| - 1], n);
  }

  // ---------- What is made of a request ----------

  lemma OnlyElements(f: Fields)
    ensures forall i :: 0 <= i < 6 ==> Only(ElementsOf(f), i)
  {
  }

  lemma SeenElements(ver: nat, f: Fields)
    ensures forall i :: 0 <= i < 6 ==>
              (Seen(ver, ElementsOf(f), ElementsOf(f)[i].tag) <==> Legal(ver, ElementsOf(f)[i]))
    ensures !Seen(ver, ElementsOf(f), if f.v6 then 1 else 3) && !Seen(ver, ElementsOf(f), if f.v6 then 2 else 4)
  {
    OnlyElements(f);
    var xs := ElementsOf(f);
    forall i | 0 <= i < 6
      ensures Seen(ver, xs, xs[i].tag) <==> Legal(ver, xs[i])
    {
      SeenOnly(ver, xs, i);
    }
  }

  /** A request is complete if and only if each of its fields has the length that the version asks for. */
  lemma CompleteIff(ver: nat, f: Fields)
    requires Fits(f)
    ensures Complete(Parse(ver, Request(f))) <==> WellFormed(ver, f)
  {
    hide Decode, Seen, Request, Subs;
    var xs := ElementsOf(f);
    SubsRequest(f);
    SeenElements(ver, f);
    CompleteExact(ver, xs);
    assert xs[2].tag == SEQ && xs[3].tag == STATE && xs[4].tag == REASON && xs[5].tag == AD;
    assert xs[0].tag == (if f.v6 then SRC6 else SRC4) && xs[1].tag == (if f.v6 then DST6 else DST4);
    assert Complete(Parse(ver, Request(f))) <==>
             Legal(ver, xs[0]) && Legal(ver, xs[1]) && Legal(ver, xs[2]) && Legal(ver, xs[3]) && Legal(ver, xs[4])
             && Legal(ver, xs[5]);
    hide Complete;
    LegalElements(ver, f);
  }

  lemma LegalElements(ver: nat, f: Fields)
    ensures var xs, word := ElementsOf(f), if ver == 0 then 1 else 4;
      && (Legal(ver, xs[0]) <==> |f.src| == if f.v6 then 16 else 4)
      && (Legal(ver, xs[1]) <==> |f.dst| == if f.v6 then 16 else 4)
      && (Legal(ver, xs[2]) <==> |f.seqNum| == 4)
      && (Legal(ver, xs[3]) <==> ver <= 1 && |f.state| == word)
      && (Legal(ver, xs[4]) <==> ver <= 1 && |f.reason| == word)
      && (Legal(ver, xs[5]) <==> |f.ad| <= 262)
  {
  }

  /** The call carries what the fields say. */
  ghost predicate Carries(f: Fields, c: Call) {
    && c.family == (if f.v6 then 10 else 2)
    && c.target == f.src + Zeros(16 - if |f.src| <= 16 then |f.src| else 16)
    && c.host == f.dst + Zeros(16 - if |f.dst| <= 16 then |f.dst| else 16)
    && (c.on <==> FromBe(f.state) % 256 == 1)
    && (c.forced <==> !c.on && 4 <= FromBe(f.reason) <= 6)
    && |f.ad| >= 6 && c.protocol == f.ad[1] && c.port == 256 * (f.ad[4] as int) + f.ad[5]
    && |c.nqn| <= 255
    && (c.nqn != [] ==> 7 + |c.nqn| <= |f.ad|)
    && (forall k :: 0 <= k < |c.nqn| ==> c.nqn[k] == f.ad[7 + k] && c.nqn[k] != 0)
    && (|c.nqn| < 255 && 7 + |c.nqn| < |f.ad| ==> f.ad[7 + |c.nqn|] == 0)
  }

  /**
  From the fields of a sender to the call: a request of the right lengths is complete, is for
  this port if and only if its destination is one of the port's addresses, asks for something
  if and only if its state ends in 0 or 1, and the call made for it carries its fields.
  */
  lemma RequestHeard(ver: nat, f: Fields, hosts: seq<Ip>)
    requires Fits(f) && WellFormed(ver, f) && |f.ad| >= 6
    ensures var m := Parse(ver, Request(f));
      && Complete(m) && (ForThisHost(hosts, m) <==> Owns(hosts, f.dst))
      && (Asks(m) <==> FromBe(f.state) % 256 <= 1) && Carries(f, CallOf(m))
  {
    hide Request, Subs, Decode, LastLegal, Seen, FromBe, Owns, ForThisHost, CallOf, Asks;
    var v := Request(f);
    CompleteIff(ver, f);
    SubsRequest(f);
    CallSays(ver, v);
    DestinationMeans(ver, hosts, v);
    RequestLast(ver, f);
    RequestAd(ver, f);
  }

  /** The last element of each type is the one the request has. */
  lemma RequestLast(ver: nat, f: Fields)
    requires Fits(f) && WellFormed(ver, f)
    ensures var m, xs := Parse(ver, Request(f)), ElementsOf(f);
      && m.bitmap == (if f.v6 then COMPLETE6 else COMPLETE4)
      && LastLegal(ver, xs, SrcTag(m)) == Some(f.src) && LastLegal(ver, xs, DstTag(m)) == Some(f.dst)
      && LastLegal(ver, xs, STATE) == Some(f.state) && LastLegal(ver, xs, REASON) == Some(f.reason)
  {
    hide Request, Subs, Decode, LastLegal, Seen;
    var xs := ElementsOf(f);
    SubsRequest(f);
    CompleteIff(ver, f);
    SeenElements(ver, f);
    CompleteExact(ver, xs);
    OnlyElements(f);
    LastOnly(ver, xs, 0);
    LastOnly(ver, xs, 1);
    LastOnly(ver, xs, 3);
    LastOnly(ver, xs, 4);
  }

  lemma RequestAd(ver: nat, f: Fields)
    requires Fits(f) && WellFormed(ver, f) && |f.ad| >= 6
    ensures var c := CallOf(Parse(ver, Request(f)));
      && c.protocol == f.ad[1] && c.port == 256 * (f.ad[4] as int) + f.ad[5]
      && |c.nqn| <= 255
      && (c.nqn != [] ==> 7 + |c.nqn| <= |f.ad|)
      && (forall k :: 0 <= k < |c.nqn| ==> c.nqn[k] == f.ad[7 + k] && c.nqn[k] != 0)
      && (|c.nqn| < 255 && 7 + |c.nqn| < |f.ad| ==> f.ad[7 + |c.nqn|] == 0)
  {
    hide Request, Subs, Decode, CallOf, LastLong, LastReach, Pair;
    var v, xs := Request(f), ElementsOf(f);
    SubsRequest(f);
    OnlyElements(f);
    ReachLast(ver, xs, 2);
    CallProtocol(ver, v);
    CallPort(ver, v);
    PairIs(f.ad[4], f.ad[5]);
    var nqn := CallOf(Parse(ver, v)).nqn;
    CallNqn(ver, v, 0);
    if nqn != [] {
      CallNqn(ver, v, |nqn| - 1);
      ReachLast(ver, xs, 7 + (|nqn| - 1) + 1);
    }
    forall k | 0 <= k < |nqn|
      ensures nqn[k] == f.ad[7 + k] && nqn[k] != 0
    {
      CallNqn(ver, v, k);
      ReachLast(ver, xs, 7 + k + 1);
    }
    ReachLast(ver, xs, 7 + |nqn| + 1);
  }

  // ---------- Packets, and their acknowledgement ----------

  /** Bit 5 says structure, the low five bits say notify; the two bits above do not matter. */
  lemma NotifyTags(tag: Octet)
    ensures IsStruct(tag, NOTIFY) <==> tag in {0x21, 0x61, 0xa1, 0xe1}
  {
  }

  /** Requests one after the other, each with its tag and length. */
  function Packet(fs: seq<Fields>): seq<Octet>
    requires forall f :: f in fs ==> Fits(f) && |Request(f)| < 0x1_0000
  {
    if fs == [] then []
    else [0x21, |Request(fs[0])| / 256, |Request(fs[0])| % 256] + Request(fs[0]) + Packet(fs[1..])
  }

  function RequestsOf(fs: seq<Fields>): (r: seq<seq<Octet>>)
    requires forall f :: f in fs ==> Fits(f)
    ensures |r| == |fs| && forall i :: 0 <= i < |r| ==> r[i] == Request(fs[i])
  {
    if fs == [] then [] else [Request(fs[0])] + RequestsOf(fs[1..])
  }

  /** The walk over a packet finds its requests, all of them, in their order. */
  lemma {:induction false} PacketReadBack(fs: seq<Fields>)
    requires forall f :: f in fs ==> Fits(f) && |Request(f)| < 0x1_0000
    ensures Structs(Packet(fs), NOTIFY) == RequestsOf(fs)
    decreases |fs|
  {
    hide Request, Structs, Tlv, IsStruct;
    if fs == [] {
      NoStructs();
    } else {
      NotifyTags(0x21);
      PacketTlv(fs);
      StructsTlv(0x21, Request(fs[0]), Packet(fs[1..]), NOTIFY);
      PacketReadBack(fs[1..]);
    }
  }

  lemma NoStructs()
    ensures Structs([], NOTIFY) == []
  {
  }

  lemma PacketTlv(fs: seq<Fields>)
    requires fs != [] && forall f :: f in fs ==> Fits(f) && |Request(f)| < 0x1_0000
    ensures Packet(fs) == Tlv(0x21, Request(fs[0])) + Packet(fs[1..])
  {
    hide Request;
  }

  /** The octets that acknowledge a request: its two addresses and its number, as elements, in one structure. */
  lemma AckOctets(ver: nat, f: Fields)
    requires Fits(f) && WellFormed(ver, f)
    ensures AckOf(Parse(ver, Request(f)))
         == if f.v6 then [0x22, 0, 45] + ([3, 0, 16] + f.src + ([4, 0, 16] + f.dst + ([5, 0, 4] + f.seqNum)))
            else [0x22, 0, 21] + ([1, 0, 4] + f.src + ([2, 0, 4] + f.dst + ([5, 0, 4] + f.seqNum)))
  {
    hide Request, Subs, Decode, LastLegal, Seen;
    var xs := ElementsOf(f);
    SubsRequest(f);
    CompleteIff(ver, f);
    CompleteGiven(ver, xs);
    RequestLast(ver, f);
    OnlyElements(f);
    LastOnly(ver, xs, 2);
    AckValueTriple(ver, xs);
    hide AckOf, AckValue;
    AckOfFramed(Parse(ver, Request(f)));
    TripleOctets(f);
  }

  lemma TripleOctets(f: Fields)
    requires |f.src| == |f.dst| == (if f.v6 then 16 else 4) && |f.seqNum| == 4
    ensures Tlv(0x22, Triple(Sub(if f.v6 then 3 else 1, f.src), Sub(if f.v6 then 4 else 2, f.dst), Sub(5, f.seqNum)))
         == if f.v6 then [0x22, 0, 45] + ([3, 0, 16] + f.src + ([4, 0, 16] + f.dst + ([5, 0, 4] + f.seqNum)))
            else [0x22, 0, 21] + ([1, 0, 4] + f.src + ([2, 0, 4] + f.dst + ([5, 0, 4] + f.seqNum)))
  {
    assert Tlv(5, f.seqNum) + [] == [5, 0, 4] + f.seqNum;
  }
}

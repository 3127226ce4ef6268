/**
The receiving side of the notify protocol as it runs: cursors that walk a receive buffer,
one message record filled field by field, and an acknowledgement grown in a fixed buffer.
*/
module NotifyServer {
  import opened Bytes
  import opened MessagePool
  import opened NotifyCodec
  import opened Options

  // ---------- The message record ----------

  /** The record on the receiver's stack. */
  class NtMsg {
    var ver: nat
    var bitmap: bv16
    var family: nat
    const ip: array<Octet>
    const seqNum: array<Octet>
    var state: nat
    var reason: nat
    const ad: array<Octet>

    predicate Valid()
      reads this
    {
      ip.Length == 38 && seqNum.Length == 7 && ad.Length == AD_SIZE
      && ip != seqNum && ip != ad && seqNum != ad
    }

    function Abs(): (m: Msg)
      requires Valid()
      reads this, ip, seqNum, ad
      ensures Shaped(m)
    {
      Msg(ver, bitmap, family, ip[..], seqNum[..], state, reason, ad[..])
    }

    constructor ()
      ensures Valid() && fresh(ip) && fresh(seqNum) && fresh(ad)
    {
      ver, bitmap, family, state, reason := 0, 0, 0, 0, 0;
      ip := new Octet[38](_ => 0);
      seqNum := new Octet[7](_ => 0);
      ad := new Octet[AD_SIZE](_ => 0);
    }

    /** memset, and the version of the packet. */
    method Clear(version: nat)
      requires Valid()
      modifies this, ip, seqNum, ad
      ensures Valid() && Abs() == NewMsg(version)
    {
      ver, bitmap, family, state, reason := version, 0, 0, 0, 0;
      forall i | 0 <= i < 38 { ip[i] := 0; }
      forall i | 0 <= i < 7 { seqNum[i] := 0; }
      forall i | 0 <= i < AD_SIZE { ad[i] := 0; }
      assert ip[..] == Zeros(38) && seqNum[..] == Zeros(7) && ad[..] == Zeros(AD_SIZE);
    }

    /** The buffer is none of the record's own. */
    ghost predicate Apart(buf: array<Octet>)
      reads this
    {
      buf != ip && buf != seqNum && buf != ad
    }

    method SetValidBit(tag: Octet)
      requires 1 <= tag <= 8
      modifies this`bitmap
      ensures bitmap == old(bitmap) | Bit(tag)
    {
      BitIsShift(tag);
      bitmap := bitmap | (1 << (tag - 1));
    }

    /** The four address decoders; the two for a source also settle the family. */
    method GetAddress(buf: array<Octet>, pos: nat, tag: Octet, len: nat)
      requires Valid() && Apart(buf) && pos + len <= buf.Length
      requires tag == SRC4 || tag == DST4 || tag == SRC6 || tag == DST6
      modifies this, ip
      ensures Valid() && Abs() == Store(old(Abs()), Sub(tag, buf[pos..pos + len]))
    {
      var size := if tag == SRC4 || tag == DST4 then 4 else 16;
      if len != size {
        return;
      }
      var at := if tag == DST4 then 7 else if tag == DST6 then 19 else 0;
      PutElement(ip, at, tag, buf, pos, len);
      SetValidBit(tag);
      if tag == SRC4 {
        family := AF_INET;
      } else if tag == SRC6 {
        family := AF_INET6;
      }
    }

    method GetSeq(buf: array<Octet>, pos: nat, len: nat)
      requires Valid() && Apart(buf) && pos + len <= buf.Length
      modifies this, seqNum
      ensures Valid() && Abs() == Store(old(Abs()), Sub(SEQ, buf[pos..pos + len]))
    {
      if len != 4 {
        return;
      }
      PutElement(seqNum, 0, SEQ, buf, pos, len);
      SetValidBit(SEQ);
      WholePut(old(seqNum[..]), Tlv(SEQ, buf[pos..pos + len]));
    }

    /** State and reason: one octet or four, laid against the end of a zeroed word in network order. */
    method GetWord(buf: array<Octet>, pos: nat, tag: Octet, len: nat)
      requires Valid() && Apart(buf) && pos + len <= buf.Length
      requires tag == STATE || tag == REASON
      modifies this
      ensures Valid() && Abs() == Store(old(Abs()), Sub(tag, buf[pos..pos + len]))
    {
      if !FlagLen(ver, len) {
        return;
      }
      var word := new Octet[4](_ => 0);
      assert word[..] == Zeros(4);
      Copy(word, 4 - len, buf, pos, len);
      RightAligned(buf[pos..pos + len]);
      if tag == STATE {
        state := FromBe(word[..]);
      } else {
        reason := FromBe(word[..]);
      }
      SetValidBit(tag);
    }

    method GetAdInfo(buf: array<Octet>, pos: nat, len: nat)
      requires Valid() && Apart(buf) && pos + len <= buf.Length
      modifies this, ad
      ensures Valid() && Abs() == Store(old(Abs()), Sub(AD, buf[pos..pos + len]))
    {
      if len > AD_MAX {
        return;
      }
      Copy(ad, 0, buf, pos, len);
      ad[4], ad[5] := ad[5], ad[4];
      SetValidBit(AD);
    }

    /** snsd_get_value: the decoder of that type, if there is one. */
    method GetValue(buf: array<Octet>, pos: nat, tag: Octet, len: nat)
      requires Valid() && Apart(buf) && pos + len <= buf.Length
      modifies this, ip, seqNum, ad
      ensures Valid() && Abs() == Store(old(Abs()), Sub(tag, buf[pos..pos + len]))
    {
      hide Put, Zeros, SwapPort, FromBe, Tlv;
      if tag == SRC4 || tag == DST4 || tag == SRC6 || tag == DST6 {
        GetAddress(buf, pos, tag, len);
      } else if tag == SEQ {
        GetSeq(buf, pos, len);
      } else if tag == STATE || tag == REASON {
        GetWord(buf, pos, tag, len);
      } else if tag == AD {
        GetAdInfo(buf, pos, len);
      }
    }

    /** snsd_decode_sub_tlv: the walk over the elements inside one structure. */
    method DecodeSubTlv(buf: array<Octet>, rootPos: nat, rootLen: nat)
      requires Valid() && Apart(buf) && rootPos + rootLen <= buf.Length
      modifies this, ip, seqNum, ad
      ensures Valid() && Abs() == Decode(old(Abs()), Subs(buf[rootPos..rootPos + rootLen]))
    {
      hide Store, Tlv, Subs, Decode;
      ghost var v := buf[rootPos..rootPos + rootLen];
      ghost var m := Abs();
      ghost var done: seq<Sub> := [];
      DecodeNone(m);
      var subPos, subTlvLen := rootPos, 0;
      assert v[0..] == v && [] + Subs(v) == Subs(v);
      while true
        invariant Valid() && buf[..] == old(buf[..])
        invariant subTlvLen <= rootLen && subPos == rootPos + subTlvLen
        invariant Subs(v) == done + Subs(v[subTlvLen..])
        invariant Abs() == Decode(m, done)
        decreases rootLen - subTlvLen
      {
        var found, tag, len := NextSub(buf, subPos, rootLen - subTlvLen);
        SliceSlice(buf[..], rootPos, rootLen, subTlvLen, rootLen);
        if !found {
          assert done + [] == done;
          return;
        }
        subPos, subTlvLen := subPos + TAG_SIZE + LEN_SIZE, subTlvLen + TAG_SIZE + LEN_SIZE + len;
        ghost var x := Sub(tag, buf[subPos..subPos + len]);
        SliceSlice(buf[..], rootPos, rootLen, subTlvLen, rootLen);
        Reassociate(done, x, Subs(v[subTlvLen..]));
        GetValue(buf, subPos, tag, len);
        DecodeSnoc(m, done, x);
        done := done + [x];
        subPos := subPos + len;
      }
    }
  }

  /**
  The header of the next element of a structure, of which `left` octets are left. The first
  check asks for two octets only, the second for the third.
  */
  method NextSub(buf: array<Octet>, pos: nat, left: nat) returns (found: bool, tag: Octet, len: nat)
    requires pos + left <= buf.Length
    ensures found ==> 3 + len <= left
    ensures var rest := buf[pos..pos + left];
      Subs(rest) == if !found then []
                    else [Sub(tag, buf[pos + 3..pos + 3 + len])] + Subs(buf[pos + 3 + len..pos + left])
  {
    hide Subs;
    ghost var rest := buf[pos..pos + left];
    SubsWalk(rest);
    found, tag, len := false, 0, 0;
    if TAG_SIZE + TAG_SIZE > left {
      return;
    }
    tag := buf[pos];
    if TAG_SIZE + LEN_SIZE > left {
      return;
    }
    len := Pair(buf[pos + 1], buf[pos + 2]);
    assert rest[0] == tag && rest[1] == buf[pos + 1] && rest[2] == buf[pos + 2];
    if TAG_SIZE + LEN_SIZE + len > left {
      return;
    }
    SliceSlice(buf[..], pos, left, 3, 3 + len);
    SliceSlice(buf[..], pos, left, 3 + len, left);
    Whole(buf, pos, left, len);
    found := true;
  }

  /** Slices of a buffer are slices of what it holds. */
  lemma Whole(buf: array<Octet>, pos: nat, left: nat, len: nat)
    requires pos + left <= buf.Length && 3 + len <= left
    ensures buf[..][pos..pos + left] == buf[pos..pos + left]
    ensures buf[..][pos + 3..pos + 3 + len] == buf[pos + 3..pos + 3 + len]
    ensures buf[..][pos + (3 + len)..pos + left] == buf[pos + 3 + len..pos + left]
    ensures buf[pos..pos + left][3 + len..left] == buf[pos..pos + left][3 + len..]
  {
  }

  lemma Reassociate<T>(a: seq<T>, x: T, b: seq<T>)
    ensures a + ([x] + b) == (a + [x]) + b
  {
  }

  /** One step of the grammar. */
  lemma SubsWalk(v: seq<Octet>)
    ensures |v| < 3 || 3 + Pair(v[1], v[2]) > |v| ==> Subs(v) == []
    ensures |v| >= 3 && 3 + Pair(v[1], v[2]) <= |v| ==>
              var n := 3 + Pair(v[1], v[2]); Subs(v) == [Sub(v[0], v[3..n])] + Subs(v[n..])
  {
  }

  lemma DecodeNone(m: Msg)
    requires Shaped(m)
    ensures Decode(m, []) == m
  {
  }

  lemma DecodeSnoc(m: Msg, xs: seq<Sub>, x: Sub)
    requires Shaped(m)
    ensures Decode(m, xs + [x]) == Store(Decode(m, xs), x)
  {
    hide Store;
    assert (xs + [x])[..|xs|] == xs;
  }

  lemma BitIsShift(tag: Octet)
    requires 1 <= tag <= 8
    ensures (1 as bv16) << (tag - 1) == Bit(tag)
  {
    if tag == 1 {
    } else if tag == 2 {
    } else if tag == 3 {
    } else if tag == 4 {
    } else if tag == 5 {
    } else if tag == 6 {
    } else if tag == 7 {
    }
  }

  lemma WholePut(s: seq<Octet>, t: seq<Octet>)
    requires |s| == |t|
    ensures Put(s, 0, t) == t
  {
  }

  /** Leading zeros do not change a number. */
  lemma RightAligned(v: seq<Octet>)
    requires |v| == 1 || |v| == 4
    ensures FromBe(Put(Zeros(4), 4 - |v|, v)) == FromBe(v)
  {
    var w := Put(Zeros(4), 4 - |v|, v);
    if |v| == 4 {
      assert w == v;
    } else {
      assert w[..3] == Zeros(3) && Zeros(3)[..2] == Zeros(2) && Zeros(2)[..1] == Zeros(1) && Zeros(1)[..0] == [];
      assert FromBe(Zeros(1)) == 0 && FromBe(Zeros(2)) == 0 && FromBe(Zeros(3)) == 0;
      assert v[..0] == [];
    }
  }

  /** snsd_save_tl_info and memcpy: an element is written with its header. */
  method PutElement(dst: array<Octet>, at: nat, tag: Octet, src: array<Octet>, from: nat, n: nat)
    requires dst != src && n < 0x1_0000 && at + 3 + n <= dst.Length && from + n <= src.Length
    modifies dst
    ensures dst[..] == Put(old(dst[..]), at, Tlv(tag, src[from..from + n]))
  {
    ghost var was, v := dst[..], src[from..from + n];
    dst[at], dst[at + 1], dst[at + 2] := tag, n / 256, n % 256;
    assert dst[..] == Put(was, at, [tag] + Be16(n));
    Copy(dst, at + 3, src, from, n);
    PutPut(was, at, [tag] + Be16(n), v);
  }

  // ---------- The acknowledgement ----------

  /** The test of snsd_build_tlv_by_family before it writes. */
  predicate GuardPasses(tlvLen: nat, ipTlvLen: nat) {
    tlvLen + ipTlvLen + 7 <= MAX_TLV_LEN
  }

  /** Where the writes end: header, addresses and sequence number. */
  function WriteEnd(tlvLen: nat, ipTlvLen: nat): nat {
    tlvLen + TAG_SIZE + LEN_SIZE + ipTlvLen + 7
  }

  /** The guard lets through writes that leave the buffer exactly in the last three places. */
  lemma GuardExact(tlvLen: nat, ipTlvLen: nat)
    ensures GuardPasses(tlvLen, ipTlvLen) && WriteEnd(tlvLen, ipTlvLen) > MAX_TLV_LEN
       <==> MAX_TLV_LEN - 3 < tlvLen + ipTlvLen + 7 <= MAX_TLV_LEN
  {
  }

  class AckBuffer {
    const offset: array<Octet>
    var tlvLen: nat

    ghost predicate Valid()
      reads this
    {
      offset.Length == MAX_TLV_LEN && tlvLen <= MAX_TLV_LEN
    }

    ghost function Text(): seq<Octet>
      requires Valid()
      reads this, offset
    {
      offset[..tlvLen]
    }

    /** snsd_init_ack_msg_buf */
    constructor ()
      ensures Valid() && fresh(offset) && Text() == []
    {
      offset := new Octet[MAX_TLV_LEN](_ => 0);
      tlvLen := 0;
    }

    method Push(x: Octet)
      requires Valid() && tlvLen < MAX_TLV_LEN
      modifies this`tlvLen, offset
      ensures Valid() && Text() == old(Text()) + [x]
    {
      offset[tlvLen] := x;
      tlvLen := tlvLen + 1;
    }

    method Append(src: array<Octet>, n: nat)
      requires Valid() && src != offset && n <= src.Length && tlvLen + n <= MAX_TLV_LEN
      modifies this`tlvLen, offset
      ensures Valid() && Text() == old(Text()) + src[..n]
    {
      ghost var was, at := offset[..], tlvLen;
      Copy(offset, tlvLen, src, 0, n);
      tlvLen := tlvLen + n;
      PutTake(was, at, src[..n]);
    }

    /**
    snsd_build_tlv_by_family: the guard leaves the three octets of the header out of account,
    so the caller has to see to it that what passes the guard fits.
    */
    method BuildTlvByFamily(msg: NtMsg, ipTlvLen: nat)
      requires Valid() && msg.Valid() && offset != msg.ip && offset != msg.seqNum && ipTlvLen <= 38
      requires GuardPasses(tlvLen, ipTlvLen) ==> WriteEnd(tlvLen, ipTlvLen) <= MAX_TLV_LEN
      modifies this, offset
      ensures Valid()
      ensures Text() == old(Text()) + if !GuardPasses(old(tlvLen), ipTlvLen) then []
                                      else Tlv(ACK_TAG, msg.ip[..ipTlvLen] + msg.seqNum[..])
    {
      if !GuardPasses(tlvLen, ipTlvLen) {
        return;
      }
      ghost var was := Text();
      var len := ipTlvLen + 7;
      Push(ACK_TAG);
      Push(len / 256);
      Push(len % 256);
      Append(msg.ip, ipTlvLen);
      Append(msg.seqNum, 7);
      TlvInParts(was, ACK_TAG, msg.ip[..ipTlvLen], msg.seqNum[..7]);
      assert msg.seqNum[..7] == msg.seqNum[..];
    }

    /** snsd_build_ack_tlv_info */
    method BuildAckTlvInfo(msg: NtMsg)
      requires Valid() && msg.Valid() && offset != msg.ip && offset != msg.seqNum
      requires tlvLen + |AckOf(msg.Abs())| <= MAX_TLV_LEN
      modifies this, offset
      ensures Valid() && Text() == old(Text()) + AckOf(msg.Abs())
    {
      if msg.family == AF_INET {
        BuildTlvByFamily(msg, 14);
      } else if msg.family == AF_INET6 {
        assert msg.ip[..38] == msg.ip[..];
        BuildTlvByFamily(msg, 38);
      }
    }
  }

  lemma TlvInParts(s: seq<Octet>, tag: Octet, a: seq<Octet>, b: seq<Octet>)
    requires |a + b| < 0x1_0000
    ensures s + [tag] + [|a + b| / 256] + [|a + b| % 256] + a + b == s + Tlv(tag, a + b)
  {
  }

  // ---------- One message, and the packet ----------

  /** snsd_check_hostip_consistent: the addresses of this port, one by one. */
  method CheckHostIp(hosts: seq<Ip>, msg: NtMsg) returns (found: bool)
    requires msg.Valid()
    ensures found == ForThisHost(hosts, msg.Abs())
  {
    var dst := if msg.family == AF_INET then msg.ip[10..14] else msg.ip[22..38];
    found := false;
    for i := 0 to |hosts|
      invariant !found && forall k :: 0 <= k < i ==>
                  !(msg.family == AF_INET && hosts[k][..4] == dst) && !(msg.family == AF_INET6 && hosts[k] == dst)
    {
      if (msg.family == AF_INET && hosts[i][..4] == dst) || (msg.family == AF_INET6 && hosts[i] == dst) {
        return true;
      }
    }
  }

  /** snsd_deal_one_msg: a complete message for this host is posted, and acknowledged if that works. */
  method DealOneMsg(hosts: seq<Ip>, msg: NtMsg, pool: MessageQueue, ack: AckBuffer) returns (ghost posted: bool)
    requires msg.Valid() && pool.Valid() && ack.Valid()
    requires ack.offset != msg.ip && ack.offset != msg.seqNum
    requires Complete(msg.Abs()) ==> ack.tlvLen + |AckOf(msg.Abs())| <= MAX_TLV_LEN
    modifies pool, ack, ack.offset
    ensures pool.Valid() && ack.Valid()
    ensures msg.Abs() == old(msg.Abs())
    ensures var m := old(msg.Abs());
      if Complete(m) && ForThisHost(hosts, m) then
        && posted == (Posted(old(pool.Abs()), m).1 == 0)
        && pool.Abs() == Posted(old(pool.Abs()), m).0
        && ack.Text() == old(ack.Text()) + if posted then AckOf(m) else []
      else pool.Abs() == old(pool.Abs()) && ack.Text() == old(ack.Text())
  {
    hide AckOf, ForThisHost;
    posted := false;
    if Complete(msg.Abs()) {
      var consistent := CheckHostIp(hosts, msg);
      if consistent {
        var result := pool.PostOneMsg(msg.Abs());
        posted := result == 0;
        if result == 0 {
          ack.BuildAckTlvInfo(msg);
        }
      }
    }
  }

  // ---------- The packet ----------

  /** What a stretch of the receiver's work did to the pool: the turns of both threads. */
  ghost predicate Worked(before: Pool, after: Pool, turns: seq<Turn>, ms: seq<Msg>, results: seq<bool>) {
    && Stocked(before) && TurnsShaped(turns)
    && after == RunFrom(before, turns) && ms == Posts(turns) && results == Results(before, turns)
    && |results| == |ms|
  }

  lemma WorkedNone(p: Pool)
    requires Stocked(p)
    ensures Worked(p, p, [], [], [])
  {
    hide Stocked;
  }

  lemma WorkedDispatch(p: Pool, q: Pool, turns: seq<Turn>, ms: seq<Msg>, results: seq<bool>)
    requires Worked(p, q, turns, ms, results) && Stocked(q)
    ensures Worked(p, Dispatched(q), turns + [Turn.Dispatch], ms, results)
  {
    hide Stocked, Dispatched;
    var all := turns + [Turn.Dispatch];
    assert all[..|all| - 1] == turns;
    assert Posts(all) == Posts(turns) + [] && Results(p, all) == Results(p, turns) + [];
  }

  lemma WorkedPost(p: Pool, q: Pool, turns: seq<Turn>, ms: seq<Msg>, results: seq<bool>, m: Msg)
    requires Worked(p, q, turns, ms, results) && Stocked(q) && Shaped(m)
    ensures Worked(p, Posted(q, m).0, turns + [Post(m)], ms + [m], results + [Posted(q, m).1 == 0])
  {
    hide Stocked, Posted;
    var all := turns + [Post(m)];
    assert all[..|all| - 1] == turns;
  }

  /** What the roots read so far have led to. */
  ghost predicate Answered(ver: nat, hosts: seq<Ip>, done: seq<seq<Octet>>, results: seq<bool>, text: seq<Octet>) {
    var ms := Accepted(ver, hosts, done);
    |results| == |ms| && text == Acks(Picked(ms, results))
  }

  lemma AnsweredNone(ver: nat, hosts: seq<Ip>)
    ensures Answered(ver, hosts, [], [], [])
  {
  }

  lemma AcceptedSnoc(ver: nat, hosts: seq<Ip>, done: seq<seq<Octet>>, root: seq<Octet>)
    ensures var m := Parse(ver, root);
      Accepted(ver, hosts, done + [root])
      == Accepted(ver, hosts, done) + (if Complete(m) && ForThisHost(hosts, m) then [m] else [])
  {
    hide Parse, ForThisHost, Complete;
    assert (done + [root])[..|done|] == done;
  }

  lemma AnsweredSkip(ver: nat, hosts: seq<Ip>, done: seq<seq<Octet>>, results: seq<bool>, text: seq<Octet>,
                     root: seq<Octet>)
    requires Answered(ver, hosts, done, results, text)
    requires !(Complete(Parse(ver, root)) && ForThisHost(hosts, Parse(ver, root)))
    ensures Accepted(ver, hosts, done + [root]) == Accepted(ver, hosts, done)
    ensures Answered(ver, hosts, done + [root], results, text)
  {
    hide Parse, ForThisHost, Complete, Accepted, Acks;
    AcceptedSnoc(ver, hosts, done, root);
    assert Accepted(ver, hosts, done) + [] == Accepted(ver, hosts, done);
  }

  lemma AnsweredMore(ver: nat, hosts: seq<Ip>, done: seq<seq<Octet>>, results: seq<bool>, text: seq<Octet>,
                     root: seq<Octet>, posted: bool)
    requires Answered(ver, hosts, done, results, text)
    requires Complete(Parse(ver, root)) && ForThisHost(hosts, Parse(ver, root))
    ensures Accepted(ver, hosts, done + [root]) == Accepted(ver, hosts, done) + [Parse(ver, root)]
    ensures Answered(ver, hosts, done + [root], results + [posted],
                     text + if posted then AckOf(Parse(ver, root)) else [])
  {
    hide Parse, ForThisHost, Complete, Accepted, Acks, AckOf, Picked;
    AcceptedSnoc(ver, hosts, done, root);
    PickedMore(Accepted(ver, hosts, done), results, Parse(ver, root), posted);
  }

  lemma PickedMore(ms: seq<Msg>, results: seq<bool>, m: Msg, posted: bool)
    requires |ms| == |results| && Shaped(m) && forall x :: x in ms ==> Shaped(x)
    ensures Acks(Picked(ms + [m], results + [posted])) == Acks(Picked(ms, results)) + if posted then AckOf(m) else []
  {
    hide AckOf, Acks;
    var all, flags := ms + [m], results + [posted];
    assert all[..|ms|] == ms && flags[..|ms|] == results;
    assert Picked(all, flags) == Picked(ms, results) + if posted then [m] else [];
    if posted {
      AcksSnoc(Picked(ms, results), m);
    } else {
      assert Picked(ms, results) + [] == Picked(ms, results);
      assert Acks(Picked(ms, results)) + [] == Acks(Picked(ms, results));
    }
  }

  /** Room for one more acknowledgement: it is paid for by the octets of its request. */
  lemma RoomForMore(ver: nat, hosts: seq<Ip>, done: seq<seq<Octet>>, results: seq<bool>, text: seq<Octet>,
                    root: seq<Octet>)
    requires Answered(ver, hosts, done, results, text)
    requires Complete(Parse(ver, root))
    ensures |text| + |AckOf(Parse(ver, root))| <= RootsSize(done) + 3 + |root|
  {
    hide Parse, Complete, Accepted, AckOf, Acks, Picked;
    AckFits(ver, hosts, done, results);
    AckFitsHeader(ver, root);
  }

  lemma StructsWalk(b: seq<Octet>, kind: nat)
    ensures |b| < 3 || !IsStruct(b[0], kind) || 3 + Pair(b[1], b[2]) > |b| ==> Structs(b, kind) == []
    ensures |b| >= 3 && IsStruct(b[0], kind) && 3 + Pair(b[1], b[2]) <= |b| ==>
              var n := 3 + Pair(b[1], b[2]); Structs(b, kind) == [b[3..n]] + Structs(b[n..], kind)
  {
  }

  lemma RootsSizeSnoc(done: seq<seq<Octet>>, root: seq<Octet>)
    ensures RootsSize(done + [root]) == RootsSize(done) + 3 + |root|
  {
    assert (done + [root])[..|done|] == done;
  }

  /** The state of the walk: what has been done for the structures in `done`. */
  ghost predicate Walked(p: Pool, q: Pool, ver: nat, hosts: seq<Ip>, done: seq<seq<Octet>>, turns: seq<Turn>,
                         results: seq<bool>, text: seq<Octet>) {
    && Worked(p, q, turns, Accepted(ver, hosts, done), results)
    && Answered(ver, hosts, done, results, text)
  }

  /** One structure: the record is cleared and filled, and the message dealt with. */
  method DealRoot(buf: array<Octet>, rootPos: nat, rootLen: nat, hosts: seq<Ip>, ver: nat, msg: NtMsg,
                  pool: MessageQueue, ack: AckBuffer, ghost p: Pool, ghost done: seq<seq<Octet>>,
                  ghost turns: seq<Turn>, ghost results: seq<bool>)
    returns (ghost moreTurns: seq<Turn>, ghost moreResults: seq<bool>)
    requires msg.Valid() && msg.Apart(buf) && msg.Apart(ack.offset) && pool.Valid() && ack.Valid()
    requires rootPos + rootLen <= buf.Length && buf != ack.offset && RootsSize(done) + 3 + rootLen <= MAX_TLV_LEN
    requires Walked(p, pool.Abs(), ver, hosts, done, turns, results, ack.Text())
    modifies pool, ack, ack.offset, msg, msg.ip, msg.seqNum, msg.ad
    ensures msg.Valid() && pool.Valid() && ack.Valid()
    ensures Walked(p, pool.Abs(), ver, hosts, done + [old(buf[rootPos..rootPos + rootLen])], moreTurns, moreResults,
                   ack.Text())
  {
    hide Structs, Accepted, Subs, Decode, Picked, Acks, AckOf, Complete, ForThisHost, Posted, Worked, Answered,
         Stocked, AckBuffer.Text;
    ghost var root := buf[rootPos..rootPos + rootLen];
    ghost var q, ms, text := pool.Abs(), Accepted(ver, hosts, done), ack.Text();
    msg.Clear(ver);
    msg.DecodeSubTlv(buf, rootPos, rootLen);
    ghost var m := msg.Abs();
    assert m == Parse(ver, root);
    hide Parse;
    if Complete(m) {
      RoomForMore(ver, hosts, done, results, text, root);
      TextSize(ack);
    }
    ghost var posted := DealOneMsg(hosts, msg, pool, ack);
    if Complete(m) && ForThisHost(hosts, m) {
      AnsweredMore(ver, hosts, done, results, text, root, posted);
      WorkedPost(p, q, turns, ms, results, m);
      moreTurns, moreResults := turns + [Post(m)], results + [posted];
    } else {
      AnsweredSkip(ver, hosts, done, results, text, root);
      moreTurns, moreResults := turns, results;
    }
  }

  lemma TextSize(ack: AckBuffer)
    requires ack.Valid()
    ensures |ack.Text()| == ack.tlvLen
  {
  }

  /** The dispatching thread takes its turn, or not. */
  method OtherThread(runs: bool, pool: MessageQueue, ghost p: Pool, ghost ver: nat, ghost hosts: seq<Ip>,
                     ghost done: seq<seq<Octet>>, ghost turns: seq<Turn>, ghost results: seq<bool>,
                     ghost text: seq<Octet>)
    returns (ghost moreTurns: seq<Turn>)
    requires pool.Valid() && Walked(p, pool.Abs(), ver, hosts, done, turns, results, text)
    modifies pool
    ensures pool.Valid() && Walked(p, pool.Abs(), ver, hosts, done, moreTurns, results, text)
  {
    hide Walked, Stocked, Dispatched;
    moreTurns := turns;
    if runs {
      WalkedDispatch(p, pool.Abs(), ver, hosts, done, turns, results, text);
      pool.Dispatch();
      moreTurns := turns + [Turn.Dispatch];
    }
  }

  /** The header of the next structure, if the packet goes on with one that fits. */
  method NextRoot(buf: array<Octet>, pos: nat, left: nat) returns (found: bool, rootLen: nat)
    requires pos + left <= buf.Length
    ensures found ==> 3 + rootLen <= left
    ensures var rest := buf[pos..pos + left];
      Structs(rest, NOTIFY)
      == if !found then []
         else [buf[pos + 3..pos + 3 + rootLen]] + Structs(buf[pos + 3 + rootLen..pos + left], NOTIFY)
  {
    hide Structs, IsStruct;
    ghost var rest := buf[pos..pos + left];
    StructsWalk(rest, NOTIFY);
    if TAG_SIZE > left {
      return false, 0;
    }
    var rootType := buf[pos];
    if !IsStruct(rootType, NOTIFY) {
      return false, 0;
    }
    if TAG_SIZE + LEN_SIZE > left {
      return false, 0;
    }
    rootLen := Pair(buf[pos + 1], buf[pos + 2]);
    if TAG_SIZE + LEN_SIZE + rootLen > left {
      return false, 0;
    }
    SliceSlice(buf[..], pos, left, 3, 3 + rootLen);
    SliceSlice(buf[..], pos, left, 3 + rootLen, left);
    Whole(buf, pos, left, rootLen);
    found := true;
  }

  /**
  snsd_decode_nt_tlv: the walk over the structures of a packet. Before each of them the
  dispatching thread may have had the lock. Whatever it did, the acknowledgement comes to
  that of the messages whose post succeeded, and it never outgrows its buffer.
  */
  method DecodeNtTlv(buf: array<Octet>, off: nat, len: nat, hosts: seq<Ip>, ver: nat, pool: MessageQueue,
                     ack: AckBuffer, dispatcherRuns: nat -> bool)
    returns (ghost turns: seq<Turn>, ghost results: seq<bool>)
    requires off + len <= buf.Length && len <= MAX_TLV_LEN
    requires pool.Valid() && ack.Valid() && ack.Text() == [] && buf != ack.offset
    modifies pool, ack, ack.offset
    ensures pool.Valid() && ack.Valid()
    ensures Walked(old(pool.Abs()), pool.Abs(), ver, hosts, Structs(old(buf[off..off + len]), NOTIFY), turns, results,
                   ack.Text())
  {
    hide Structs, Accepted, Worked, Answered, Stocked, RootsSize, AckBuffer.Text, MessageQueue.Abs;
    ghost var b := buf[off..off + len];
    ghost var p := pool.Abs();
    ghost var done: seq<seq<Octet>> := [];
    turns, results := [], [];
    WalkedNone(p, ver, hosts);
    hide Walked;
    var msg := new NtMsg();
    var rootPos := 0;
    assert b[0..] == b && [] + Structs(b, NOTIFY) == Structs(b, NOTIFY);
    while true
      invariant msg.Valid() && fresh(msg) && fresh(msg.ip) && fresh(msg.seqNum) && fresh(msg.ad)
      invariant pool.Valid() && ack.Valid() && buf[..] == old(buf[..])
      invariant rootPos <= len && RootsSize(done) == rootPos
      invariant Structs(b, NOTIFY) == done + Structs(b[rootPos..], NOTIFY)
      invariant Walked(p, pool.Abs(), ver, hosts, done, turns, results, ack.Text())
      decreases len - rootPos
    {
      turns := OtherThread(dispatcherRuns(rootPos), pool, p, ver, hosts, done, turns, results, ack.Text());
      assert b[rootPos..] == buf[off + rootPos..off + len];
      assert done + [] == done;
      var found, rootLen := NextRoot(buf, off + rootPos, len - rootPos);
      if !found {
        return;
      }
      rootPos := rootPos + TAG_SIZE + LEN_SIZE;
      ghost var root := buf[off + rootPos..off + rootPos + rootLen];
      assert b[rootPos + rootLen..] == buf[off + rootPos + rootLen..off + len];
      RootsSizeSnoc(done, root);
      Reassociate(done, root, Structs(b[rootPos + rootLen..], NOTIFY));
      turns, results := DealRoot(buf, off + rootPos, rootLen, hosts, ver, msg, pool, ack, p, done, turns, results);
      done := done + [root];
      rootPos := rootPos + rootLen;
    }
  }

  lemma WalkedNone(p: Pool, ver: nat, hosts: seq<Ip>)
    requires Stocked(p)
    ensures Walked(p, p, ver, hosts, [], [], [], [])
    ensures RootsSize([]) == 0
  {
    hide Stocked;
    WorkedNone(p);
    AnsweredNone(ver, hosts);
  }

  lemma WalkedDispatch(p: Pool, q: Pool, ver: nat, hosts: seq<Ip>, done: seq<seq<Octet>>, turns: seq<Turn>,
                       results: seq<bool>, text: seq<Octet>)
    requires Walked(p, q, ver, hosts, done, turns, results, text) && Stocked(q)
    ensures Walked(p, Dispatched(q), ver, hosts, done, turns + [Turn.Dispatch], results, text)
  {
    hide Stocked, Worked, Answered, Dispatched, Accepted;
    WorkedDispatch(p, q, turns, Accepted(ver, hosts, done), results);
  }

  // ---------- Frames ----------

  const HEADER_LEN := 22
  const MAX_BUFFER_LEN := 1514
  const ETH_NTS_TYPE := 0x88A7
  const NTF_VER := 1
  const MRP_BRIDGE: seq<Octet> := [0x01, 0x80, 0xc2, 0x00, 0x00, 0x0d]

  /** An Ethernet header for the bridge address, then version, reserved, length, reserved. */
  predicate HeaderOk(b: seq<Octet>) {
    && HEADER_LEN <= |b| <= MAX_BUFFER_LEN
    && b[..6] == MRP_BRIDGE && Pair(b[12], b[13]) == ETH_NTS_TYPE && b[14] <= NTF_VER
    && 0 < Pair(b[16], b[17]) <= |b| - HEADER_LEN
  }

  /** The structures of a well-formed frame. */
  function Payload(b: seq<Octet>): (r: seq<Octet>)
    requires HeaderOk(b)
    ensures 0 < |r| <= MAX_TLV_LEN
  {
    b[HEADER_LEN..HEADER_LEN + Pair(b[16], b[17])]
  }

  /** snsd_get_msg_header */
  method GetMsgHeader(buf: array<Octet>, len: nat) returns (ok: bool, tlvLen: nat, ver: nat)
    requires len <= buf.Length
    ensures ok <==> HeaderOk(buf[..len])
    ensures ok <==>
              && 22 <= len <= 1514 && buf[..6] == [0x01, 0x80, 0xc2, 0x00, 0x00, 0x0d]
              && buf[12] == 0x88 && buf[13] == 0xa7 && buf[14] <= 1
              && 0 < 256 * (buf[16] as int) + buf[17] <= len - 22
    ensures ok ==> ver == buf[14] && tlvLen == Pair(buf[16], buf[17]) == 256 * (buf[16] as int) + buf[17]
  {
    ok, tlvLen, ver := false, 0, 0;
    assert len <= buf.Length && (len >= 6 ==> buf[..len][..6] == buf[..6]);
    if len < HEADER_LEN || len > MAX_BUFFER_LEN {
      return;
    }
    PairIs(buf[12], buf[13]);
    PairIs(buf[16], buf[17]);
    if Pair(buf[12], buf[13]) != ETH_NTS_TYPE {
      return;
    }
    if !(buf[0] == MRP_BRIDGE[0] && buf[1] == MRP_BRIDGE[1] && buf[2] == MRP_BRIDGE[2]
         && buf[3] == MRP_BRIDGE[3] && buf[4] == MRP_BRIDGE[4] && buf[5] == MRP_BRIDGE[5]) {
      assert buf[..len][..6] != MRP_BRIDGE by {
        var h := buf[..len][..6];
        assert h[0] == buf[0] && h[1] == buf[1] && h[2] == buf[2] && h[3] == buf[3] && h[4] == buf[4] && h[5] == buf[5];
      }
      return;
    }
    assert buf[..len][..6] == MRP_BRIDGE;
    if buf[14] > NTF_VER {
      return;
    }
    ver := buf[14];
    tlvLen := Pair(buf[16], buf[17]);
    ok := tlvLen != 0 && tlvLen <= len - HEADER_LEN;
  }

  /** A reply: the same header with the version of this program, then the acknowledgements. */
  function Reply(mac: seq<Octet>, text: seq<Octet>): seq<Octet>
    requires |mac| == 6 && |text| <= MAX_TLV_LEN
  {
    MRP_BRIDGE + mac + Be16(ETH_NTS_TYPE) + [NTF_VER, 0] + Be16(|text|) + Zeros(4) + text
  }

  /** A receiver of the same protocol accepts the reply, and finds the acknowledgements in it. */
  lemma ReplyReadsBack(mac: seq<Octet>, text: seq<Octet>)
    requires |mac| == 6 && 0 < |text| <= MAX_TLV_LEN
    ensures HeaderOk(Reply(mac, text)) && Payload(Reply(mac, text)) == text
    ensures Reply(mac, text)[6..12] == mac && Reply(mac, text)[14] == 1 && |Reply(mac, text)| == 22 + |text|
  {
    var r := Reply(mac, text);
    assert r[6..12] == mac;
    assert r[..6] == MRP_BRIDGE;
    assert r[12] == 0x88 && r[13] == 0xA7 && r[14] == 1 && r[16] == |text| / 256 && r[17] == |text| % 256;
    PairIs(r[12], r[13]);
    PairIs(r[16], r[17]);
    assert r[HEADER_LEN..] == text;
  }

  /** What a frame, if it is accepted at all, led to. */
  ghost predicate Received(p: Pool, q: Pool, hosts: seq<Ip>, frame: seq<Octet>, turns: seq<Turn>, results: seq<bool>,
                           text: seq<Octet>) {
    if HeaderOk(frame) then Walked(p, q, frame[14], hosts, Structs(Payload(frame), NOTIFY), turns, results, text)
    else q == p && text == []
  }

  class Server {
    const pool: MessageQueue
    const ack: AckBuffer
    var dropped: nat

    ghost predicate Valid()
      reads this, pool, ack
    {
      pool.Valid() && ack.Valid()
    }

    constructor (pool: MessageQueue, ack: AckBuffer)
      requires pool.Valid() && ack.Valid()
      ensures Valid() && this.pool == pool && this.ack == ack && dropped == 0
    {
      this.pool, this.ack, dropped := pool, ack, 0;
    }

    /** snsd_process_nt_msg: a frame with a bad header is dropped and counted. */
    method ProcessNtMsg(buf: array<Octet>, readCnt: nat, hosts: seq<Ip>, dispatcherRuns: nat -> bool)
      returns (ghost turns: seq<Turn>, ghost results: seq<bool>)
      requires Valid() && readCnt <= buf.Length && buf != ack.offset && ack.Text() == []
      modifies this, pool, ack, ack.offset
      ensures Valid()
      ensures Received(old(pool.Abs()), pool.Abs(), hosts, old(buf[..readCnt]), turns, results, ack.Text())
      ensures dropped == old(dropped) + if HeaderOk(old(buf[..readCnt])) then 0 else 1
    {
      hide Walked, Stocked, Structs, AckBuffer.Text, HeaderOk;
      ghost var frame := buf[..readCnt];
      turns, results := [], [];
      var ok, tlvLen, ver := GetMsgHeader(buf, readCnt);
      if !ok {
        dropped := dropped + 1;
        return;
      }
      HeaderRoom(frame);
      assert frame[14] == ver && frame[16] == buf[16] && frame[17] == buf[17];
      assert buf[HEADER_LEN..HEADER_LEN + tlvLen] == frame[HEADER_LEN..HEADER_LEN + tlvLen];
      turns, results := DecodeNtTlv(buf, HEADER_LEN, tlvLen, hosts, ver, pool, ack, dispatcherRuns);
    }

    /**
    snsd_client_notify, from the receive buffer with `readCnt` octets to the frame sent back, if
    any. Nothing is sent when nothing was acknowledged; what is sent reads back as the
    acknowledgements of exactly those messages whose post succeeded. The zero written behind
    the octets read falls outside the buffer, `outside`, exactly when they fill it.
    */
    method ClientNotify(buf: array<Octet>, readCnt: int, known: bool, attacked: bool, mac: seq<Octet>, hosts: seq<Ip>,
                        dispatcherRuns: nat -> bool)
      returns (reply: Option<seq<Octet>>, outside: bool, ghost turns: seq<Turn>, ghost results: seq<bool>)
      requires Valid() && buf.Length == MAX_BUFFER_LEN && readCnt <= buf.Length && buf != ack.offset && |mac| == 6
      modifies this, pool, ack, ack.offset, buf
      ensures Valid()
      ensures outside <==> known && readCnt == MAX_BUFFER_LEN
      ensures buf[..] == if known && 0 < readCnt < MAX_BUFFER_LEN then old(buf[..])[readCnt := 0] else old(buf[..])
      ensures !known || readCnt <= 0 || attacked ==>
                reply.None? && pool.Abs() == old(pool.Abs()) && dropped == old(dropped) + 1
      ensures known && readCnt > 0 && !attacked ==>
                exists text ::
                  && Received(old(pool.Abs()), pool.Abs(), hosts, old(buf[..readCnt]), turns, results, text)
                  && (reply.None? <==> text == [])
                  && (reply.Some? ==> HeaderOk(reply.value) && Payload(reply.value) == text)
    {
      hide Received, Stocked, HeaderOk, Payload;
      turns, results := [], [];
      reply, outside := None, false;
      if !known {
        dropped := dropped + 1;
        return;
      }
      ack.tlvLen := 0;
      if readCnt <= 0 {
        dropped := dropped + 1;
        return;
      }
      ghost var frame := buf[..readCnt];
      if readCnt < buf.Length {
        buf[readCnt] := 0;
      } else {
        outside := true;
      }
      if attacked {
        dropped := dropped + 1;
        return;
      }
      assert buf[..readCnt] == frame;
      turns, results := ProcessNtMsg(buf, readCnt, hosts, dispatcherRuns);
      if ack.tlvLen != 0 {
        reply := Some(Reply(mac, ack.offset[..ack.tlvLen]));
        ReplyReadsBack(mac, ack.Text());
      }
    }
  }

  lemma HeaderRoom(b: seq<Octet>)
    requires HeaderOk(b)
    ensures HEADER_LEN <= |b| && HEADER_LEN + Pair(b[16], b[17]) <= |b| && Pair(b[16], b[17]) <= MAX_TLV_LEN
  {
  }
}

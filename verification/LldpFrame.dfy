/**
The LLDP frame: the octets that the encoder lays down field by field, against the walk over
type-length-value elements that IEEE Std 802.1AB prescribes for a receiver.
*/
module LldpFrame {
  import opened Bytes
  import opened Limits
  import opened Options
  import SocketTable

  const MAX_LENGTH := 1514

  const TYPE_CHASSIS_ID := 1
  const TYPE_PORT_ID := 2
  const TYPE_TIME_TO_LIVE := 3
  const TYPE_EXTEND := 127
  const LIFETIME := 120
  const HEADER_LEN := 14

  type Mac = s: seq<Octet> | |s| == 6 witness [0, 0, 0, 0, 0, 0]

  predicate Name(s: string) {
    |s| < IFNAMSIZ && forall i :: 0 <= i < |s| ==> 0 < s[i] as int < 256
  }

  /** What a frame says about a port; the numbers fit the fields that carry them. */
  datatype Port = Port(name: string, nameIndex: nat, serviceType: Octet, family: int, ip: Ip, mac: Mac,
                       role: Octet, protocol: Octet, ulpPort: nat)

  predicate Sendable(p: Port, nqn: seq<Octet>) {
    Name(p.name) && p.nameIndex < 256 && p.ulpPort < 0x1_0000 && |nqn| < NQN_MAX_LEN
  }

  // ---------- The standard's walk ----------

  datatype Element = Element(kind: nat, value: seq<Octet>)

  /**
  The elements up to the end element, which has type 0 and length 0 (clauses 8.4 and 8.5.1):
  a type of seven bits and a length of nine, then the value.
  */
  function Walk(b: seq<Octet>): Option<seq<Element>>
    decreases |b|
  {
    if |b| < 2 then None
    else
      var kind, len := b[0] / 2, Pair(b[0] % 2, b[1]);
      if kind == 0 then (if len == 0 then Some([]) else None)
      else if 2 + len > |b| then None
      else
        match Walk(b[2 + len..])
        case None => None
        case Some(rest) => Some([Element(kind, b[2..2 + len])] + rest)
  }

  // ---------- The frame ----------

  /** The first two octets of an element: `type << 9 | length`, in network order. */
  function Head(kind: nat, len: nat): seq<Octet>
    requires kind < 128 && len < 512
  {
    [2 * kind + len / 256, len % 256]
  }

  function Encoded(e: Element): seq<Octet>
    requires e.kind < 128 && |e.value| < 512
  {
    Head(e.kind, |e.value|) + e.value
  }

  function Octets(s: string): (r: seq<Octet>)
    requires forall i :: 0 <= i < |s| ==> s[i] as int < 256
    ensures |r| == |s| && forall i :: 0 <= i < |r| ==> r[i] == s[i] as int
  {
    if s == "" then [] else [s[0] as int] + Octets(s[1..])
  }

  function PortIdText(p: Port): (r: string)
    requires Name(p.name) && p.nameIndex < 256
    ensures |r| <= 23 && forall i :: 0 <= i < |r| ==> r[i] as int < 256
  {
    "snsd_" + SocketTable.PortId(p.name, p.nameIndex)
  }

  function ChassisId(p: Port): Element {
    Element(TYPE_CHASSIS_ID, [4] + p.mac)
  }

  function PortIdElement(p: Port): Element
    requires Name(p.name) && p.nameIndex < 256
  {
    Element(TYPE_PORT_ID, [5] + Octets(PortIdText(p)))
  }

  function TimeToLive(): Element {
    Element(TYPE_TIME_TO_LIVE, [0, LIFETIME])
  }

  /** The address field: four octets and zeros, or sixteen octets. */
  function Address(p: Port): Ip {
    if p.family == AF_INET then p.ip[..4] + Zeros(12) else p.ip
  }

  function AddressType(p: Port): Octet {
    p.serviceType / 16 * 16 + if p.family == AF_INET then 1 else 2
  }

  /** The element of the organisation 00-18-82, subtype 101. */
  function Smart(p: Port, nqn: seq<Octet>): (e: Element)
    requires Sendable(p, nqn)
    ensures |e.value| == 31 + |nqn|
  {
    Element(TYPE_EXTEND, [0x00, 0x18, 0x82, 101, 1, AddressType(p), 0, 0] + Address(p)
                         + [p.role, p.protocol, 1, 1, p.ulpPort / 256, p.ulpPort % 256, |nqn|] + nqn)
  }

  function Elements(p: Port, nqn: seq<Octet>): seq<Element>
    requires Sendable(p, nqn)
  {
    [ChassisId(p), PortIdElement(p), TimeToLive(), Smart(p, nqn)]
  }

  function EthHeader(mac: Mac): seq<Octet> {
    [0x01, 0x80, 0xc2, 0x00, 0x00, 0x0e] + mac + [0x88, 0xcc]
  }

  function Frame(p: Port, nqn: seq<Octet>): (r: seq<Octet>)
    requires Sendable(p, nqn)
    ensures |r| <= MAX_LENGTH
  {
    EthHeader(p.mac) + (Encoded(ChassisId(p)) + (Encoded(PortIdElement(p)) + (Encoded(TimeToLive())
    + (Encoded(Smart(p, nqn)) + [0, 0]))))
  }

  // ---------- Reading it back ----------

  lemma EncodedHead(e: Element, rest: seq<Octet>)
    requires 0 < e.kind < 128 && |e.value| < 512
    ensures var b, len := Encoded(e) + rest, |e.value|;
      && |b| == 2 + len + |rest| && b[0] / 2 == e.kind && Pair(b[0] % 2, b[1]) == len
      && b[2..2 + len] == e.value && b[2 + len..] == rest
  {
    var b, len := Encoded(e) + rest, |e.value|;
    assert b[0] == 2 * e.kind + len / 256 && b[1] == len % 256;
    PairIs(b[0] % 2, b[1]);
    assert b == Head(e.kind, len) + (e.value + rest);
  }

  /** One step of the walk. */
  lemma WalkStep(b: seq<Octet>)
    requires |b| >= 2 && b[0] / 2 != 0 && 2 + Pair(b[0] % 2, b[1]) <= |b|
    ensures var n := 2 + Pair(b[0] % 2, b[1]);
      Walk(b) == match Walk(b[n..])
                 case None => None
                 case Some(more) => Some([Element(b[0] / 2, b[2..n])] + more)
  {
  }

  lemma WalkEncoded(e: Element, rest: seq<Octet>)
    requires 0 < e.kind < 128 && |e.value| < 512
    ensures Walk(Encoded(e) + rest) ==
            match Walk(rest)
            case None => None
            case Some(more) => Some([e] + more)
  {
    hide Walk, Encoded;
    EncodedHead(e, rest);
    WalkStep(Encoded(e) + rest);
  }

  /** A receiver finds the three mandatory elements first, in their order, then the one of this program, and the end. */
  lemma FrameReadsBack(p: Port, nqn: seq<Octet>)
    requires Sendable(p, nqn)
    ensures Walk(Frame(p, nqn)[HEADER_LEN..]) == Some(Elements(p, nqn))
  {
    hide Encoded, Smart, PortIdElement, Walk;
    var end: seq<Octet> := [0, 0];
    WalkEnd();
    SmartFits(p, nqn);
    PortIdFits(p);
    var four := Encoded(Smart(p, nqn)) + end;
    var three := Encoded(TimeToLive()) + four;
    var two := Encoded(PortIdElement(p)) + three;
    WalkEncoded(Smart(p, nqn), end);
    WalkEncoded(TimeToLive(), four);
    WalkEncoded(PortIdElement(p), three);
    WalkEncoded(ChassisId(p), two);
    assert |EthHeader(p.mac)| == HEADER_LEN;
    assert Frame(p, nqn)[HEADER_LEN..] == Encoded(ChassisId(p)) + two;
    assert Elements(p, nqn) == [ChassisId(p)] + ([PortIdElement(p)] + ([TimeToLive()] + ([Smart(p, nqn)] + [])));
  }

  /**
  The frame octet by octet: destination 01-80-C2-00-00-0E, source, EtherType 88CC; the chassis by
  its address; the port by its name and number; 120 seconds; the organisation's element; the end.
  */
  lemma FrameOctets(p: Port, nqn: seq<Octet>)
    requires Sendable(p, nqn)
    ensures var text := "snsd_" + (p.name + ['_', SocketTable.Digit(p.nameIndex / 10 % 10),
                                             SocketTable.Digit(p.nameIndex % 10)]);
      var n := 31 + |nqn|;
      && (forall i :: 0 <= i < |text| ==> text[i] as int < 256)
      && Frame(p, nqn)
         == [0x01, 0x80, 0xc2, 0x00, 0x00, 0x0e] + p.mac + [0x88, 0xcc]
            + [0x02, 0x07, 0x04] + p.mac
            + [0x04, |p.name| + 9, 0x05] + Octets(text)
            + [0x06, 0x02, 0x00, 0x78]
            + [0xfe + n / 256, n % 256, 0x00, 0x18, 0x82, 0x65, 0x01,
               p.serviceType / 16 * 16 + (if p.family == 2 then 1 else 2), 0x00, 0x00]
            + (if p.family == 2 then p.ip[..4] + Zeros(12) else p.ip)
            + [p.role, p.protocol, 0x01, 0x01, p.ulpPort / 256, p.ulpPort % 256, |nqn|] + nqn
            + [0x00, 0x00]
  {
    hide Octets, Encoded, Smart, ChassisId, PortIdElement, TimeToLive;
    SmartOctets(p, nqn);
    ShortParts(p);
    var eth, dst: seq<Octet>, kind: seq<Octet> := EthHeader(p.mac), [0x01, 0x80, 0xc2, 0x00, 0x00, 0x0e], [0x88, 0xcc];
    var text := PortIdText(p);
    var c0: seq<Octet>, t0: seq<Octet>, ttl: seq<Octet> := [0x02, 0x07, 0x04], [0x04, |p.name| + 9, 0x05],
                                                           [0x06, 0x02, 0x00, 0x78];
    var n := 31 + |nqn|;
    var s0: seq<Octet> := [0xfe + n / 256, n % 256, 0x00, 0x18, 0x82, 0x65, 0x01, AddressType(p), 0x00, 0x00];
    var s1: seq<Octet> := [p.role, p.protocol, 0x01, 0x01, p.ulpPort / 256, p.ulpPort % 256, |nqn|];
    Regroup(dst + p.mac + kind, c0, p.mac, t0, Octets(text), ttl, s0, Address(p), s1, nqn, [0x00, 0x00]);
  }

  lemma Regroup(a: seq<Octet>, b: seq<Octet>, c: seq<Octet>, d: seq<Octet>, e: seq<Octet>, f: seq<Octet>,
                g: seq<Octet>, h: seq<Octet>, i: seq<Octet>, j: seq<Octet>, k: seq<Octet>)
    ensures a + ((b + c) + ((d + e) + (f + ((g + h + i + j) + k)))) == a + b + c + d + e + f + g + h + i + j + k
  {
  }

  lemma ShortParts(p: Port)
    requires Name(p.name) && p.nameIndex < 256
    ensures var text := "snsd_" + (p.name + ['_', SocketTable.Digit(p.nameIndex / 10 % 10),
                                             SocketTable.Digit(p.nameIndex % 10)]);
      && text == PortIdText(p) && |p.name| + 9 < 256
      && PortIdElement(p).kind < 128 && |PortIdElement(p).value| < 512
      && Encoded(PortIdElement(p)) == [0x04, |p.name| + 9, 0x05] + Octets(PortIdText(p))
      && Encoded(ChassisId(p)) == [0x02, 0x07, 0x04] + p.mac
      && Encoded(TimeToLive()) == [0x06, 0x02, 0x00, 0x78]
  {
    var text := PortIdText(p);
    assert |Octets(text)| == |p.name| + 8;
    hide Octets;
  }

  lemma SmartOctets(p: Port, nqn: seq<Octet>)
    requires Sendable(p, nqn)
    ensures var n := 31 + |nqn|;
      Encoded(Smart(p, nqn))
      == [0xfe + n / 256, n % 256, 0x00, 0x18, 0x82, 0x65, 0x01, AddressType(p), 0x00, 0x00] + Address(p)
         + [p.role, p.protocol, 0x01, 0x01, p.ulpPort / 256, p.ulpPort % 256, |nqn|] + nqn
  {
  }

  lemma WalkEnd()
    ensures Walk([0, 0]) == Some([])
  {
  }

  lemma SmartFits(p: Port, nqn: seq<Octet>)
    requires Sendable(p, nqn)
    ensures Smart(p, nqn).kind == TYPE_EXTEND && |Smart(p, nqn).value| < 512
  {
  }

  lemma PortIdFits(p: Port)
    requires Name(p.name) && p.nameIndex < 256
    ensures PortIdElement(p).kind == TYPE_PORT_ID && |PortIdElement(p).value| < 512
  {
  }

  /** The fields of the organisation's element, as a receiver takes them out. */
  datatype Announcement = Announcement(version: Octet, service: nat, v4: bool, ip: seq<Octet>, role: Octet,
                                       protocol: Octet, port: nat, nqn: seq<Octet>)

  function ReadSmart(v: seq<Octet>): Option<Announcement> {
    if |v| < 31 || v[..3] != [0x00, 0x18, 0x82] || v[3] != 101 || |v| - 31 != v[30] then None
    else
      var v4 := v[5] % 16 == 1;
      Some(Announcement(v[4], v[5] / 16, v4, if v4 then v[8..12] else v[8..24], v[24], v[25],
                        Pair(v[28], v[29]), v[31..]))
  }

  /** What is announced is the address, role, protocol, port and name that were to be announced. */
  lemma SmartReadsBack(p: Port, nqn: seq<Octet>)
    requires Sendable(p, nqn)
    ensures ReadSmart(Smart(p, nqn).value)
         == Some(Announcement(1, p.serviceType / 16, p.family == AF_INET,
                              if p.family == AF_INET then p.ip[..4] else p.ip,
                              p.role, p.protocol, p.ulpPort, nqn))
  {
    var v := Smart(p, nqn).value;
    var head, tail := [0x00, 0x18, 0x82, 101, 1, AddressType(p), 0, 0],
                      [p.role, p.protocol, 1, 1, p.ulpPort / 256, p.ulpPort % 256, |nqn|];
    assert v == head + Address(p) + tail + nqn;
    assert v[..3] == [0x00, 0x18, 0x82] && v[3] == 101 && v[4] == 1 && v[5] == AddressType(p);
    assert v[24] == p.role && v[25] == p.protocol && v[28] == p.ulpPort / 256 && v[29] == p.ulpPort % 256
           && v[30] == |nqn|;
    assert v[8..24] == Address(p) && v[8..12] == v[8..24][..4];
    assert p.family == AF_INET ==> Address(p)[..4] == p.ip[..4];
    PairIs(v[28], v[29]);
    assert v[31..] == nqn;
  }

  /** Ports whose names or numbers differ do not send the same port identifier. */
  lemma PortIdsDiffer(p: Port, q: Port)
    requires Name(p.name) && Name(q.name) && p.nameIndex <= SocketTable.MAP_BITS && q.nameIndex <= SocketTable.MAP_BITS
    requires PortIdElement(p) == PortIdElement(q)
    ensures p.name == q.name && p.nameIndex == q.nameIndex
  {
    var s, t := PortIdText(p), PortIdText(q);
    assert PortIdElement(p).value[1..] == Octets(s) && PortIdElement(q).value[1..] == Octets(t);
    forall i | 0 <= i < |s|
      ensures s[i] == t[i]
    {
      assert Octets(s)[i] == Octets(t)[i];
    }
    assert s == t && s[5..] == SocketTable.PortId(p.name, p.nameIndex)
           && t[5..] == SocketTable.PortId(q.name, q.nameIndex);
    SocketTable.PortIdApart(p.name, p.nameIndex, q.name, q.nameIndex);
  }

  // ---------- The encoder ----------

  method Write(dst: array<Octet>, at: nat, s: seq<Octet>)
    requires at + |s| <= dst.Length
    modifies dst
    ensures dst[..] == Put(old(dst[..]), at, s)
  {
    ghost var was := dst[..];
    for i := 0 to |s|
      invariant dst[..] == Put(was, at, s[..i])
    {
      dst[at + i] := s[i];
      PutMore(was, at, s[..i], s[i]);
      assert s[..i + 1] == s[..i] + [s[i]];
    }
    assert s[..|s|] == s;
  }

  /** A write that ends the text of the frame so far lengthens it. */
  method Append(dst: array<Octet>, at: nat, s: seq<Octet>) returns (next: nat)
    requires at + |s| <= dst.Length
    modifies dst
    ensures next == at + |s| && dst[..next] == old(dst[..at]) + s
  {
    ghost var was := dst[..];
    Write(dst, at, s);
    PutTake(was, at, s);
    next := at + |s|;
  }

  /** type_length */
  method WriteHead(dst: array<Octet>, at: nat, kind: nat, len: nat) returns (next: nat)
    requires kind < 128 && len < 512 && at + 2 <= dst.Length
    modifies dst
    ensures next == at + 2 && dst[..next] == old(dst[..at]) + Head(kind, len)
  {
    var word := 512 * kind + len;
    next := Append(dst, at, [word / 256, word % 256]);
  }

  /** lldp_init_eth_header */
  method InitEthHeader(dst: array<Octet>, mac: Mac)
    requires dst.Length >= HEADER_LEN
    modifies dst
    ensures dst[..HEADER_LEN] == EthHeader(mac)
  {
    var at := Append(dst, 0, [0x01, 0x80, 0xc2, 0x00, 0x00, 0x0e]);
    at := Append(dst, at, mac);
    at := Append(dst, at, [0x88, 0xcc]);
  }

  /** lldp_init_chassis_id_tlv */
  method InitChassisIdTlv(dst: array<Octet>, offset: nat, p: Port) returns (next: nat)
    requires offset + 9 <= dst.Length
    modifies dst
    ensures next == offset + 9 && dst[..next] == old(dst[..offset]) + Encoded(ChassisId(p))
  {
    next := WriteHead(dst, offset, TYPE_CHASSIS_ID, |p.mac| + 1);
    next := Append(dst, next, [4]);
    next := Append(dst, next, p.mac);
  }

  /** lldp_create_port_id_tlv: the prefix and the identifier, and the head once their length is known. */
  method CreatePortIdTlv(dst: array<Octet>, offset: nat, p: Port) returns (next: nat)
    requires Name(p.name) && p.nameIndex < 256 && offset + 26 <= dst.Length
    modifies dst
    ensures next <= offset + 26 && dst[..next] == old(dst[..offset]) + Encoded(PortIdElement(p))
  {
    var text := Octets(PortIdText(p));
    next := WriteHead(dst, offset, TYPE_PORT_ID, |text| + 1);
    next := Append(dst, next, [5]);
    next := Append(dst, next, text);
  }

  /** lldp_init_time_to_live_tlv */
  method InitTimeToLiveTlv(dst: array<Octet>, offset: nat) returns (next: nat)
    requires offset + 4 <= dst.Length
    modifies dst
    ensures next == offset + 4 && dst[..next] == old(dst[..offset]) + Encoded(TimeToLive())
  {
    next := WriteHead(dst, offset, TYPE_TIME_TO_LIVE, 2);
    next := Append(dst, next, [LIFETIME / 256, LIFETIME % 256]);
  }

  /** memset */
  method Clear(dst: array<Octet>, at: nat, n: nat)
    requires at + n <= dst.Length
    modifies dst
    ensures dst[at..at + n] == Zeros(n) && dst[..at] == old(dst[..at])
  {
    forall i | at <= i < at + n { dst[i] := 0; }
  }

  /** The field at `k` of the element at `offset`. */
  method Field(dst: array<Octet>, offset: nat, ghost body: seq<Octet>, k: nat, s: seq<Octet>)
    requires offset + |body| <= dst.Length && k + |s| <= |body| && dst[offset..offset + |body|] == body
    modifies dst
    ensures dst[offset..offset + |body|] == Put(body, k, s) && dst[..offset] == old(dst[..offset])
  {
    ghost var was := dst[..];
    Write(dst, offset + k, s);
    FieldPut(was, offset, body, k, s);
  }

  lemma FieldPut(b: seq<Octet>, offset: nat, body: seq<Octet>, k: nat, s: seq<Octet>)
    requires offset + |body| <= |b| && k + |s| <= |body| && b[offset..offset + |body|] == body
    ensures Put(b, offset + k, s)[offset..offset + |body|] == Put(body, k, s)
    ensures Put(b, offset + k, s)[..offset] == b[..offset]
  {
    var r := Put(b, offset + k, s);
    forall i | 0 <= i < |body|
      ensures r[offset + i] == Put(body, k, s)[i]
    {
      assert b[offset + i] == body[i];
    }
  }

  /** lldp_create_smart_tlv: the element is cleared and its fields are laid down; the head comes last. */
  method CreateSmartTlv(dst: array<Octet>, offset: nat, p: Port, nqn: seq<Octet>) returns (next: nat)
    requires Sendable(p, nqn) && offset + 33 + |nqn| <= dst.Length
    modifies dst
    ensures next == offset + 33 + |nqn| && dst[..next] == old(dst[..offset]) + Encoded(Smart(p, nqn))
  {
    hide Put, Encoded, Smart;
    var length := 33 + |nqn|;
    next := offset + length;
    Clear(dst, offset, length);
    ghost var b0 := Zeros(length);
    Field(dst, offset, b0, 2, [0x00, 0x18, 0x82, 101, 1]);
    ghost var b1 := Put(b0, 2, [0x00, 0x18, 0x82, 101, 1]);
    Field(dst, offset, b1, 7, [AddressType(p)]);
    ghost var b2 := Put(b1, 7, [AddressType(p)]);
    var ip := if p.family == AF_INET then p.ip[..4] else p.ip;
    Field(dst, offset, b2, 10, ip);
    ghost var b3 := Put(b2, 10, ip);
    var tail: seq<Octet> := [p.role, p.protocol, 1, 1, p.ulpPort / 256, p.ulpPort % 256, |nqn|];
    Field(dst, offset, b3, 26, tail);
    ghost var b4 := Put(b3, 26, tail);
    Field(dst, offset, b4, 33, nqn);
    ghost var b5 := Put(b4, 33, nqn);
    var word := 512 * TYPE_EXTEND + (length - 2);
    Field(dst, offset, b5, 0, Be16(word));
    SmartLaidOut(p, nqn);
    assert dst[..next] == dst[..offset] + dst[offset..next];
  }

  lemma SmartLaidOut(p: Port, nqn: seq<Octet>)
    requires Sendable(p, nqn)
    ensures var b1 := Put(Zeros(33 + |nqn|), 2, [0x00, 0x18, 0x82, 101, 1]);
      var b2 := Put(b1, 7, [AddressType(p)]);
      var b3 := Put(b2, 10, if p.family == AF_INET then p.ip[..4] else p.ip);
      var b4 := Put(b3, 26, [p.role, p.protocol, 1, 1, p.ulpPort / 256, p.ulpPort % 256, |nqn|]);
      var word := 512 * TYPE_EXTEND + 31 + |nqn|;
      && |Smart(p, nqn).value| < 512 && Smart(p, nqn).kind < 128
      && Put(Put(b4, 33, nqn), 0, [word / 256, word % 256]) == Encoded(Smart(p, nqn))
  {
    var n, head := |nqn|, [0x00, 0x18, 0x82, 101, 1];
    var tail := [p.role, p.protocol, 1, 1, p.ulpPort / 256, p.ulpPort % 256, n];
    var ip := if p.family == AF_INET then p.ip[..4] else p.ip;
    var b1 := Put(Zeros(33 + n), 2, head);
    assert b1 == Zeros(2) + head + Zeros(26 + n);
    AddressLaidOut(p, Zeros(2) + head, n);
    var b3 := Put(Put(b1, 7, [AddressType(p)]), 10, ip);
    TailLaidOut(Zeros(2) + head + [AddressType(p), 0, 0] + Address(p), tail, nqn);
    var body := head + [AddressType(p), 0, 0] + Address(p) + tail + nqn;
    assert Zeros(2) + head + [AddressType(p), 0, 0] + Address(p) + tail + nqn == Zeros(2) + body;
    assert body == Smart(p, nqn).value;
    HeadLaidOut(TYPE_EXTEND, body);
  }

  lemma AddressLaidOut(p: Port, before: seq<Octet>, n: nat)
    requires |before| == 7
    ensures Put(Put(before + Zeros(26 + n), 7, [AddressType(p)]), 10, if p.family == AF_INET then p.ip[..4] else p.ip)
         == before + [AddressType(p), 0, 0] + Address(p) + Zeros(7 + n)
  {
    var b := before + [AddressType(p)] + Zeros(25 + n);
    assert Put(before + Zeros(26 + n), 7, [AddressType(p)]) == b;
    var ip := if p.family == AF_INET then p.ip[..4] else p.ip;
    assert Put(b, 10, ip) == before + [AddressType(p), 0, 0] + Address(p) + Zeros(7 + n);
  }

  lemma TailLaidOut(before: seq<Octet>, tail: seq<Octet>, nqn: seq<Octet>)
    requires |before| == 26 && |tail| == 7
    ensures Put(Put(before + Zeros(7 + |nqn|), 26, tail), 33, nqn) == before + tail + nqn
  {
    assert Put(before + Zeros(7 + |nqn|), 26, tail) == before + tail + Zeros(|nqn|);
  }

  lemma HeadLaidOut(kind: nat, body: seq<Octet>)
    requires kind < 128 && |body| < 512
    ensures var word := 512 * kind + |body|;
      Put(Zeros(2) + body, 0, [word / 256, word % 256]) == Encoded(Element(kind, body))
  {
    var word := 512 * kind + |body|;
    assert [word / 256, word % 256] == Head(kind, |body|);
  }

  /** lldp_send: the octets handed to the socket are the frame, whatever the memory held before. */
  method LldpSend(memory: array<Octet>, p: Port, nqn: seq<Octet>) returns (offset: nat)
    requires Sendable(p, nqn) && memory.Length == MAX_LENGTH
    modifies memory
    ensures offset <= MAX_LENGTH && memory[..offset] == Frame(p, nqn)
  {
    hide Encoded, EthHeader, Smart, PortIdElement;
    InitEthHeader(memory, p.mac);
    offset := HEADER_LEN;
    SmartFits(p, nqn);
    PortIdFits(p);
    offset := InitChassisIdTlv(memory, offset, p);
    offset := CreatePortIdTlv(memory, offset, p);
    offset := InitTimeToLiveTlv(memory, offset);
    offset := CreateSmartTlv(memory, offset, p, nqn);
    offset := Append(memory, offset, [0, 0]);
  }
}

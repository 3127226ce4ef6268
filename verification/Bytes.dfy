/** Octets, 16-octet address fields and big-endian numbers, shared by every component. */
module Bytes {

  type Octet = x: int | 0 <= x < 256

  /** The 16-octet address field used for both families; IPv4 uses its first four octets. */
  type Ip = s: seq<Octet> | |s| == 16 witness seq(16, _ => 0)

  const AF_INET := 2
  const AF_INET6 := 10

  /** snsd_ip_match: families other than IPv4 and IPv6 never match. */
  predicate IpMatch(family: int, x: Ip, y: Ip) {
    (family == AF_INET && x[0] == y[0] && x[1] == y[1] && x[2] == y[2] && x[3] == y[3])
        || (family == AF_INET6 && x == y)
  }

  /** The two octets of a 16-bit number in network order. */
  function Be16(n: nat): (s: seq<Octet>)
    requires n < 0x1_0000
    ensures |s| == 2
  {
    [n / 256, n % 256]
  }

  /** The number that a sequence of octets denotes in network order. */
  function FromBe(s: seq<Octet>): nat {
    if s == [] then 0 else 256 * FromBe(s[..|s| - 1]) + s[|s| - 1]
  }

  lemma FromBe16(s: seq<Octet>)
    requires |s| == 2
    ensures FromBe(s) == 256 * (s[0] as int) + s[1]
    ensures FromBe(s) < 0x1_0000
  {
    assert s[..1][..0] == [];
    assert FromBe(s[..1]) == s[0];
  }

  /** The number of two octets in network order. */
  function Pair(hi: Octet, lo: Octet): (r: nat)
    ensures r < 0x1_0000
  {
    FromBe16([hi, lo]);
    FromBe([hi, lo])
  }

  lemma PairIs(hi: Octet, lo: Octet)
    ensures Pair(hi, lo) == 256 * hi + lo
  {
    FromBe16([hi, lo]);
  }

  lemma Be16RoundTrip(n: nat)
    requires n < 0x1_0000
    ensures FromBe(Be16(n)) == n
  {
    FromBe16(Be16(n));
  }

  function Zeros(n: nat): (s: seq<Octet>)
    ensures |s| == n
  {
    seq(n, _ => 0)
  }

  // ---------- Writing into buffers ----------

  /** The octets of `s`, with those of `t` in their place from `at` on. */
  function Put(s: seq<Octet>, at: nat, t: seq<Octet>): (r: seq<Octet>)
    requires at + |t| <= |s|
    ensures |r| == |s|
  {
    s[..at] + t + s[at + |t|..]
  }

  lemma PutReads(s: seq<Octet>, at: nat, t: seq<Octet>, lo: nat, hi: nat)
    requires at + |t| <= |s| && lo <= hi <= |s|
    ensures at == lo && at + |t| == hi ==> Put(s, at, t)[lo..hi] == t
    ensures hi <= at || at + |t| <= lo ==> Put(s, at, t)[lo..hi] == s[lo..hi]
  {
    var r := Put(s, at, t);
    if hi <= at || at + |t| <= lo {
      forall k | lo <= k < hi
        ensures r[k] == s[k]
      {
      }
    }
  }

  lemma SliceMore(s: seq<Octet>, from: nat, i: nat)
    requires from + i < |s|
    ensures s[from..from + i + 1] == s[from..from + i] + [s[from + i]]
  {
  }

  /** memcpy: octets of one buffer go to another. */
  method Copy(dst: array<Octet>, at: nat, src: array<Octet>, from: nat, n: nat)
    requires dst != src && at + n <= dst.Length && from + n <= src.Length
    modifies dst
    ensures dst[..] == Put(old(dst[..]), at, src[from..from + n])
  {
    ghost var was, s := dst[..], src[..];
    PutNone(was, at);
    hide Put;
    for i := 0 to n
      invariant src[..] == s && dst[..] == Put(was, at, s[from..from + i])
    {
      dst[at + i] := src[from + i];
      PutMore(was, at, s[from..from + i], s[from + i]);
      SliceMore(s, from, i);
    }
  }

  lemma PutNone(s: seq<Octet>, at: nat)
    requires at <= |s|
    ensures Put(s, at, []) == s
  {
  }

  lemma PutMore(s: seq<Octet>, at: nat, t: seq<Octet>, x: Octet)
    requires at + |t| < |s|
    ensures Put(s, at, t)[at + |t| := x] == Put(s, at, t + [x])
  {
  }

  /** Two neighbouring writes are one. */
  lemma PutPut(s: seq<Octet>, at: nat, t: seq<Octet>, u: seq<Octet>)
    requires at + |t| + |u| <= |s|
    ensures Put(Put(s, at, t), at + |t|, u) == Put(s, at, t + u)
  {
  }

  lemma PutTake(s: seq<Octet>, at: nat, t: seq<Octet>)
    requires at + |t| <= |s|
    ensures Put(s, at, t)[..at + |t|] == s[..at] + t
  {
  }

  /** A slice of a slice. */
  lemma SliceSlice(b: seq<Octet>, at: nat, n: nat, lo: nat, hi: nat)
    requires at + n <= |b| && lo <= hi <= n
    ensures b[at..at + n][lo..hi] == b[at + lo..at + hi]
  {
    var s, t := b[at..at + n][lo..hi], b[at + lo..at + hi];
    assert |s| == |t|;
    forall i | 0 <= i < |s|
      ensures s[i] == t[i]
    {
      assert s[i] == b[at..at + n][lo + i] == b[at + lo + i];
    }
  }
}

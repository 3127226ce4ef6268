/**
The slaves of a bonding port: a new text marks and adds, a sweep over the linked list
releases what is gone and acquires a socket for what is new.
*/
module BondingSlaves {
  import opened Limits
  import opened Options

  const MAX_SLAVES := 32

  // ---------- The names in a text ----------

  predicate Separator(c: char) {
    c == ' ' || c == '\n'
  }

  /** Where the separators are. */
  function Cuts(t: string): (r: seq<nat>)
    ensures forall k :: 0 <= k < |r| ==> r[k] < |t| && Separator(t[r[k]])
    ensures forall k :: 0 <= k < |r| - 1 ==> r[k] < r[k + 1]
    ensures forall i :: 0 <= i < |t| && Separator(t[i]) ==> i in r
  {
    if t == "" then []
    else
      var n := |t| - 1;
      Cuts(t[..n]) + (if Separator(t[n]) then [n] else [])
  }

  function Count(t: string): nat {
    if |Cuts(t)| < MAX_SLAVES then |Cuts(t)| else MAX_SLAVES
  }

  function Begin(cuts: seq<nat>, k: nat): nat
    requires k <= |cuts|
  {
    if k == 0 then 0 else cuts[k - 1] + 1
  }

  /** What stands before the `k`-th separator, after the one before it. */
  function NameAt(t: string, k: nat): string
    requires k < |Cuts(t)|
  {
    BeginBefore(t, k);
    t[Begin(Cuts(t), k)..Cuts(t)[k]]
  }

  lemma BeginBefore(t: string, k: nat)
    requires k < |Cuts(t)|
    ensures Begin(Cuts(t), k) <= Cuts(t)[k] < |t|
  {
  }

  function NamesUpTo(t: string, n: nat): (r: seq<string>)
    requires n <= |Cuts(t)|
    ensures |r| == n && forall k :: 0 <= k < n ==> r[k] == NameAt(t, k)
  {
    if n == 0 then [] else NamesUpTo(t, n - 1) + [NameAt(t, n - 1)]
  }

  /** The names of a text: what ends in a separator counts, at most thirty-two of them. */
  function Names(t: string): seq<string> {
    NamesUpTo(t, Count(t))
  }

  lemma {:induction false} CutsRise(t: string, j: nat, k: nat)
    requires j < k < |Cuts(t)|
    ensures Cuts(t)[j] < Cuts(t)[k]
    decreases k - j
  {
    if j + 1 < k {
      CutsRise(t, j + 1, k);
    }
  }

  /** A name holds no separator. */
  lemma NameIsPlain(t: string, k: nat, i: nat)
    requires k < |Cuts(t)| && i < |NameAt(t, k)|
    ensures !Separator(NameAt(t, k)[i])
  {
    hide Cuts;
    BeginBefore(t, k);
    var at := Begin(Cuts(t), k) + i;
    assert NameAt(t, k)[i] == t[at];
    forall j | 0 <= j < |Cuts(t)|
      ensures Cuts(t)[j] != at
    {
      if j < k - 1 {
        CutsRise(t, j, k - 1);
      } else if j > k {
        CutsRise(t, k, j);
      }
    }
  }

  // ---------- A text that was put together from names ----------

  /** Neither of the two characters that end a name. */
  predicate Plain(s: string) {
    ' ' !in s && '\n' !in s
  }

  /** Each name with the character that ends it. */
  function TextOf(names: seq<string>, ends: seq<char>): string
    requires |ends| == |names|
  {
    if names == [] then ""
    else
      var n := |names| - 1;
      TextOf(names[..n], ends[..n]) + names[n] + [ends[n]]
  }

  lemma {:induction false} CutsPlain(t: string, s: string)
    requires Plain(s)
    ensures Cuts(t + s) == Cuts(t)
    decreases |s|
  {
    if s != "" {
      CutsPlain(t, s[..|s| - 1]);
      assert (t + s)[..|t + s| - 1] == t + s[..|s| - 1];
    } else {
      assert t + s == t;
    }
  }

  /** Names before the last separator do not depend on what comes after. */
  lemma NameAtPrefix(t: string, u: string, k: nat)
    requires k < |Cuts(t)| && t <= u && Cuts(t) <= Cuts(u)
    ensures NameAt(u, k) == NameAt(t, k)
  {
    hide Cuts;
    BeginBefore(t, k);
    BeginBefore(u, k);
  }

  ghost predicate Joinable(names: seq<string>, ends: seq<char>) {
    |ends| == |names| && forall i :: 0 <= i < |names| ==> Plain(names[i]) && (ends[i] == ' ' || ends[i] == '\n')
  }

  /** One name more, with the character that ends it. */
  lemma CutsMore(t: string, s: string, c: char)
    requires Plain(s) && (c == ' ' || c == '\n') && Begin(Cuts(t), |Cuts(t)|) == |t|
    ensures var u := t + s + [c];
      && Cuts(u) == Cuts(t) + [|t + s|] && Begin(Cuts(u), |Cuts(u)|) == |u| && NameAt(u, |Cuts(t)|) == s
  {
    var u := t + s + [c];
    CutsPlain(t, s);
    assert u[..|u| - 1] == t + s;
    assert Cuts(u) == Cuts(t) + [|t + s|];
    hide Cuts, NameAt;
    NameIs(u, |Cuts(t)|);
    assert Begin(Cuts(u), |Cuts(t)|) == |t|;
    assert u[|t|..|t + s|] == s;
  }

  lemma {:induction false} TextCuts(names: seq<string>, ends: seq<char>)
    requires Joinable(names, ends)
    ensures var t := TextOf(names, ends); |Cuts(t)| == |names| && Begin(Cuts(t), |names|) == |t|
    decreases |names|
  {
    hide Cuts, NameAt;
    if names != [] {
      var n := |names| - 1;
      TextCuts(names[..n], ends[..n]);
      CutsMore(TextOf(names[..n], ends[..n]), names[n], ends[n]);
    } else {
      NoCuts();
    }
  }

  lemma NoCuts()
    ensures Cuts("") == []
  {
  }

  lemma {:induction false} TextAt(names: seq<string>, ends: seq<char>, k: nat)
    requires Joinable(names, ends) && k < |names|
    ensures var t := TextOf(names, ends); k < |Cuts(t)| && NameAt(t, k) == names[k]
    decreases |names|
  {
    hide Cuts, NameAt;
    var n := |names| - 1;
    var t := TextOf(names[..n], ends[..n]);
    TextCuts(names[..n], ends[..n]);
    CutsMore(t, names[n], ends[n]);
    if k < n {
      TextAt(names[..n], ends[..n], k);
      NameAtPrefix(t, t + names[n] + [ends[n]], k);
    }
  }

  /** Names joined by blanks and line ends are read back in order, the first thirty-two of them, and no unended one. */
  lemma NamesReadBack(names: seq<string>, ends: seq<char>, rest: string)
    requires Joinable(names, ends) && Plain(rest)
    ensures Names(TextOf(names, ends) + rest) == if |names| <= 32 then names else names[..32]
  {
    var t := TextOf(names, ends);
    TextCuts(names, ends);
    CutsPlain(t, rest);
    hide Cuts, NameAt, TextOf, Joinable;
    var read := Names(t + rest);
    forall k | 0 <= k < |read|
      ensures read[k] == names[k]
    {
      TextAt(names, ends, k);
      NameAtPrefix(t, t + rest, k);
    }
  }

  /** The string that starts at `at` in a buffer and ends before the next zero. */
  function CString(b: seq<char>, at: nat): string
    requires at <= |b|
    decreases |b| - at
  {
    if at == |b| || b[at] == '\0' then "" else [b[at]] + CString(b, at + 1)
  }

  lemma {:induction false} CStringIs(b: seq<char>, at: nat, end: nat)
    requires at <= end < |b| && b[end] == '\0' && forall i :: at <= i < end ==> b[i] != '\0'
    ensures CString(b, at) == b[at..end]
    decreases end - at
  {
    if at < end {
      CStringIs(b, at + 1, end);
      assert b[at..end] == [b[at]] + b[at + 1..end];
    }
  }

  predicate IsCString(t: string) {
    '\0' !in t
  }

  lemma CutsStep(t: string, i: nat)
    requires i < |t|
    ensures Cuts(t[..i + 1]) == Cuts(t[..i]) + if Separator(t[i]) then [i] else []
  {
    assert t[..i + 1][..i] == t[..i];
  }

  lemma {:induction false} CutsPrefix(t: string, i: nat)
    requires i <= |t|
    ensures Cuts(t[..i]) <= Cuts(t)
    decreases |t| - i
  {
    if i < |t| {
      CutsPrefix(t, i + 1);
      CutsStep(t, i);
    } else {
      assert t[..i] == t;
    }
  }

  /** The separators before `done` have become zeros. */
  ghost predicate CutUp(b: seq<char>, t: string, done: nat) {
    |b| == |t| + 1 && b[|t|] == '\0' && done <= |t|
    && forall i :: 0 <= i < |t| ==> b[i] == if i < done && Separator(t[i]) then '\0' else t[i]
  }

  lemma ReadName(b: seq<char>, t: string, done: nat, k: nat)
    requires IsCString(t) && CutUp(b, t, done) && k < |Cuts(t[..done])|
    ensures Cuts(t[..done]) <= Cuts(t) && Begin(Cuts(t), k) < |b| && CString(b, Begin(Cuts(t), k)) == NameAt(t, k)
  {
    hide Cuts, NameAt, CString;
    CutsPrefix(t, done);
    BeginBefore(t, k);
    var at, end := Begin(Cuts(t), k), Cuts(t)[k];
    assert end == Cuts(t[..done])[k] < done;
    NameIs(t, k);
    forall i | at <= i < end
      ensures b[i] == t[i] != '\0'
    {
      NameIsPlain(t, k, i - at);
      assert t[at..end][i - at] == t[i];
      assert t[i] in t;
    }
    CStringIs(b, at, end);
    assert b[at..end] == t[at..end];
  }

  lemma NameIs(t: string, k: nat)
    requires k < |Cuts(t)|
    ensures Begin(Cuts(t), k) <= Cuts(t)[k] < |t| && NameAt(t, k) == t[Begin(Cuts(t), k)..Cuts(t)[k]]
  {
    BeginBefore(t, k);
  }

  /** The text up to `done` has been cut up, and `starts` has where its names and the rest begin. */
  ghost predicate Walked(b: seq<char>, t: string, done: nat, starts: seq<nat>) {
    CutUp(b, t, done) && |starts| == |Cuts(t[..done])| + 1
    && forall k :: 0 <= k < |starts| ==> starts[k] == Begin(Cuts(t[..done]), k)
  }

  lemma WalkedStart(b: seq<char>, t: string)
    requires b == t + ['\0']
    ensures Walked(b, t, 0, [0])
  {
  }

  lemma WalkedStep(b: seq<char>, t: string, done: nat, starts: seq<nat>)
    requires Walked(b, t, done, starts) && done < |b| && b[done] != '\0'
    ensures done < |t| && b[done] == t[done]
    ensures if Separator(t[done]) then Walked(b[done := '\0'], t, done + 1, starts + [done + 1])
            else Walked(b, t, done + 1, starts)
  {
    CutUpStep(b, t, done);
    CutsStep(t, done);
    hide Cuts, CutUp;
  }

  lemma WalkedEnd(b: seq<char>, t: string, done: nat, starts: seq<nat>, k: nat)
    requires IsCString(t) && Walked(b, t, done, starts) && k < |starts| - 1
    ensures starts[k] < |b| && k < |Cuts(t)| && CString(b, starts[k]) == NameAt(t, k)
  {
    hide CString, NameAt, CutUp;
    ReadName(b, t, done, k);
    hide Cuts;
  }

  lemma CountIs(b: seq<char>, t: string, done: nat, starts: seq<nat>)
    requires IsCString(t) && Walked(b, t, done, starts)
    requires (done < |b| && b[done] == '\0' && |starts| - 1 < MAX_SLAVES) || |starts| - 1 == MAX_SLAVES
    ensures Count(t) == |starts| - 1
  {
    if |starts| - 1 < MAX_SLAVES {
      WholeText(b, t, done);
    } else {
      CutsPrefix(t, done);
    }
  }

  /**
  snsd_seperate_slaves: the separators of the buffer become zeros, and the offsets found are
  those of the names.
  */
  method SeparateSlaves(slaves: array<char>, ghost t: string) returns (count: nat, offsets: seq<nat>)
    requires IsCString(t) && slaves[..] == t + ['\0']
    modifies slaves
    ensures count == Count(t) && |offsets| >= count
    ensures forall k :: 0 <= k < count ==> offsets[k] <= slaves.Length && CString(slaves[..], offsets[k]) == Names(t)[k]
  {
    WalkedStart(slaves[..], t);
    hide Cuts, CString, NameAt, CutUp, Names, Walked, Count;
    count := 0;
    offsets := [0];
    ghost var starts: seq<nat> := [0];
    var temp := 0;
    while slaves[temp] != '\0'
      invariant temp < slaves.Length == |t| + 1 && Walked(slaves[..], t, temp, starts)
      invariant count < MAX_SLAVES && offsets == starts && |starts| == count + 1
      decreases |t| - temp
    {
      WalkedStep(slaves[..], t, temp, starts);
      if slaves[temp] == ' ' || slaves[temp] == '\n' {
        ghost var b := slaves[..];
        slaves[temp] := '\0';
        assert slaves[..] == b[temp := '\0'];
        count := count + 1;
        starts := starts + [temp + 1];
        if count >= MAX_SLAVES {
          break;
        }
        offsets := offsets + [temp + 1];
      }
      temp := temp + 1;
    }
    ghost var done := if count < MAX_SLAVES then temp else temp + 1;
    CountIs(slaves[..], t, done, starts);
    NamesAre(t);
    forall k | 0 <= k < count
      ensures offsets[k] <= slaves.Length && CString(slaves[..], offsets[k]) == Names(t)[k]
    {
      WalkedEnd(slaves[..], t, done, starts, k);
    }
  }

  lemma CutUpStep(b: seq<char>, t: string, done: nat)
    requires CutUp(b, t, done) && done < |b| && b[done] != '\0'
    ensures done < |t| && b[done] == t[done]
    ensures CutUp(if Separator(t[done]) then b[done := '\0'] else b, t, done + 1)
  {
  }

  lemma NamesAre(t: string)
    ensures |Names(t)| == Count(t) && forall k :: 0 <= k < Count(t) ==> Names(t)[k] == NameAt(t, k)
  {
  }

  lemma WholeText(b: seq<char>, t: string, done: nat)
    requires IsCString(t) && CutUp(b, t, done) && b[done] == '\0'
    ensures t[..done] == t
  {
    assert forall i :: 0 <= i < |t| ==> t[i] in t;
  }

  // ---------- The list as a value ----------

  datatype Rec = Rec(name: string, ifindex: int, fdIndex: nat, fd: int, deleted: bool, valid: bool)

  ghost predicate Distinct(rs: seq<Rec>) {
    forall i, j :: 0 <= i < j < |rs| ==> rs[i].name != rs[j].name
  }

  function Marked(rs: seq<Rec>): (r: seq<Rec>)
    ensures |r| == |rs| && forall i :: 0 <= i < |r| ==> r[i] == rs[i].(deleted := true)
  {
    if rs == [] then [] else [rs[0].(deleted := true)] + Marked(rs[1..])
  }

  /** The first record of that name; the length of the list if there is none. */
  function Find(rs: seq<Rec>, name: string): (r: nat)
    ensures r <= |rs| && (r < |rs| ==> rs[r].name == name)
    ensures forall i :: 0 <= i < r ==> rs[i].name != name
  {
    if rs == [] || rs[0].name == name then 0 else 1 + Find(rs[1..], name)
  }

  /** snsd_create_slave, with the answer of the system (negative for none) as an input. */
  function Created(rs: seq<Rec>, name: string, ifindex: int): (seq<Rec>, bool) {
    if |name| >= IFNAMSIZ || ifindex < 0 then (rs, false)
    else ([Rec(name, ifindex, 0, 0, false, false)] + rs, true)
  }

  /** The list after one name: a known one is wanted again, another gets a record in front. */
  function WantOne(rs: seq<Rec>, name: string, ifindex: int): (seq<Rec>, bool) {
    var i := Find(rs, name);
    if i < |rs| then (rs[i := rs[i].(deleted := false)], true) else Created(rs, name, ifindex)
  }

  /** The list after the names of a text, one by one, as far as they could be dealt with. */
  function Wanted(rs: seq<Rec>, names: seq<string>, ifindexOf: string -> int): (seq<Rec>, bool)
    decreases |names|
  {
    if names == [] then (rs, true)
    else
      var (more, ok) := WantOne(rs, names[0], ifindexOf(names[0]));
      if ok then Wanted(more, names[1..], ifindexOf) else (rs, false)
  }

  /** A record that stays is wanted under its name. */
  ghost predicate Live(rs: seq<Rec>, name: string) {
    exists i :: 0 <= i < |rs| && rs[i].name == name && !rs[i].deleted
  }

  /** `r` is `rs` behind new records, with nothing changed but marks taken away. */
  ghost predicate Grown(r: seq<Rec>, rs: seq<Rec>) {
    var more := |r| - |rs|;
    && more >= 0
    && (forall i :: 0 <= i < |rs| ==> 
          r[more + i] == rs[i].(deleted := r[more + i].deleted) && (r[more + i].deleted ==> rs[i].deleted))
    && (forall i :: 0 <= i < more ==> !r[i].deleted && !r[i].valid && r[i].ifindex >= 0)
  }

  lemma GrownFurther(r: seq<Rec>, q: seq<Rec>, rs: seq<Rec>)
    requires Grown(r, q) && Grown(q, rs)
    ensures Grown(r, rs)
  {
    var more, extra := |r| - |q|, |q| - |rs|;
    forall i | 0 <= i < |rs|
      ensures r[more + extra + i] == rs[i].(deleted := r[more + extra + i].deleted)
      ensures r[more + extra + i].deleted ==> rs[i].deleted
    {
      assert r[more + (extra + i)] == q[extra + i].(deleted := r[more + (extra + i)].deleted);
    }
    forall i | 0 <= i < more + extra
      ensures !r[i].deleted && !r[i].valid && r[i].ifindex >= 0
    {
      if i >= more {
        assert r[more + (i - more)] == q[i - more].(deleted := r[more + (i - more)].deleted);
      }
    }
  }

  lemma WantKnown(rs: seq<Rec>, i: nat)
    requires Distinct(rs) && i < |rs|
    ensures var q := rs[i := rs[i].(deleted := false)];
      Distinct(q) && Grown(q, rs) && forall x :: Live(q, x) <==> Live(rs, x) || x == rs[i].name
  {
    hide Live, Grown;
    LiveWanted(rs, i);
    KnownGrown(rs, rs[i := rs[i].(deleted := false)], i);
  }

  lemma KnownGrown(rs: seq<Rec>, q: seq<Rec>, i: nat)
    requires i < |rs| && q == rs[i := rs[i].(deleted := false)]
    ensures Grown(q, rs)
  {
    forall k | 0 <= k < |rs|
      ensures q[(|q| - |rs|) + k] == q[k]
      ensures q[k] == rs[k].(deleted := q[k].deleted) && (q[k].deleted ==> rs[k].deleted)
    {
    }
  }

  lemma NewGrown(rs: seq<Rec>, r: Rec)
    requires !r.deleted && !r.valid && r.ifindex >= 0
    ensures Grown([r] + rs, rs)
  {
    GrownBehind([r] + rs, rs);
  }

  lemma GrownBehind(q: seq<Rec>, rs: seq<Rec>)
    requires |q| == |rs| + 1 && !q[0].deleted && !q[0].valid && q[0].ifindex >= 0
    requires forall i :: 0 <= i < |rs| ==> q[1 + i] == rs[i]
    ensures Grown(q, rs)
  {
    var more := |q| - |rs|;
    forall i | 0 <= i < |rs|
      ensures q[more + i] == rs[i]
    {
      assert q[1 + i] == rs[i];
    }
  }

  lemma NewDistinct(rs: seq<Rec>, r: Rec)
    requires Distinct(rs) && Find(rs, r.name) == |rs|
    ensures Distinct([r] + rs)
  {
    var q := [r] + rs;
    forall i, j | 0 <= i < j < |q|
      ensures q[i].name != q[j].name
    {
      assert q[j] == rs[j - 1];
      assert i > 0 ==> q[i] == rs[i - 1];
    }
  }

  lemma WantNew(rs: seq<Rec>, r: Rec)
    requires Distinct(rs) && Find(rs, r.name) == |rs| && !r.deleted && !r.valid && r.ifindex >= 0
    ensures var q := [r] + rs;
      Distinct(q) && Grown(q, rs) && forall x :: Live(q, x) <==> Live(rs, x) || x == r.name
  {
    hide Distinct, Grown, Live;
    NewDistinct(rs, r);
    NewGrown(rs, r);
    LiveCreated(rs, [r] + rs);
  }

  lemma WantOneMeans(rs: seq<Rec>, name: string, ifindex: int)
    requires Distinct(rs) && WantOne(rs, name, ifindex).1
    ensures var q := WantOne(rs, name, ifindex).0;
      Distinct(q) && Grown(q, rs) && forall x :: Live(q, x) <==> Live(rs, x) || x == name
  {
    hide Live, Distinct, Grown;
    if Find(rs, name) < |rs| {
      WantKnown(rs, Find(rs, name));
    } else {
      WantNew(rs, WantOne(rs, name, ifindex).0[0]);
    }
  }

  /**
  Working through the names keeps names distinct, keeps what the list had, marks nothing,
  and leaves alive what was alive and names given; if it gets to the end, exactly those.
  */
  lemma {:induction false} WantedMeans(rs: seq<Rec>, names: seq<string>, ifindexOf: string -> int)
    requires Distinct(rs)
    ensures var (r, ok) := Wanted(rs, names, ifindexOf);
      && Distinct(r) && Grown(r, rs)
      && (forall x :: Live(r, x) ==> Live(rs, x) || x in names)
      && (ok ==> forall x :: Live(rs, x) || x in names ==> Live(r, x))
    decreases |names|
  {
    hide Live, Distinct, WantOne, Grown;
    if names == [] {
      GrownNone(rs);
    } else {
      var (q, ok) := WantOne(rs, names[0], ifindexOf(names[0]));
      if ok {
        WantOneMeans(rs, names[0], ifindexOf(names[0]));
        WantedMeans(q, names[1..], ifindexOf);
        GrownFurther(Wanted(q, names[1..], ifindexOf).0, q, rs);
      } else {
        GrownNone(rs);
      }
      assert names == [names[0]] + names[1..];
    }
  }

  lemma GrownNone(rs: seq<Rec>)
    ensures Grown(rs, rs)
  {
  }

  lemma LiveWanted(rs: seq<Rec>, i: nat)
    requires i < |rs|
    ensures forall x :: Live(rs[i := rs[i].(deleted := false)], x) <==> Live(rs, x) || x == rs[i].name
  {
    var q := rs[i := rs[i].(deleted := false)];
    forall x
      ensures Live(q, x) <==> Live(rs, x) || x == rs[i].name
    {
      if Live(rs, x) {
        var k :| 0 <= k < |rs| && rs[k].name == x && !rs[k].deleted;
        assert q[k].name == x && !q[k].deleted;
      }
      if x == rs[i].name {
        assert q[i].name == x && !q[i].deleted;
      }
      if Live(q, x) {
        var k :| 0 <= k < |q| && q[k].name == x && !q[k].deleted;
        assert k == i || (rs[k].name == x && !rs[k].deleted);
      }
    }
  }

  lemma LiveCreated(rs: seq<Rec>, q: seq<Rec>)
    requires |q| == |rs| + 1 && q[1..] == rs && !q[0].deleted
    ensures forall x :: Live(q, x) <==> Live(rs, x) || x == q[0].name
  {
    forall x
      ensures Live(q, x) <==> Live(rs, x) || x == q[0].name
    {
      if Live(rs, x) {
        var k :| 0 <= k < |rs| && rs[k].name == x && !rs[k].deleted;
        assert q[k + 1].name == x && !q[k + 1].deleted;
      }
      if Live(q, x) {
        var k :| 0 <= k < |q| && q[k].name == x && !q[k].deleted;
        assert k == 0 || rs[k - 1] == q[k];
      }
    }
  }

  /** What a new text does: everything is marked, then its names are worked through. */
  function Verified(rs: seq<Rec>, names: seq<string>, ifindexOf: string -> int): (seq<Rec>, bool) {
    Wanted(Marked(rs), names, ifindexOf)
  }

  lemma MarkedNotLive(rs: seq<Rec>, x: string)
    ensures !Live(Marked(rs), x)
  {
  }

  /** After a successful verification the records that stay are exactly the names of the text. */
  lemma VerifiedMeans(rs: seq<Rec>, names: seq<string>, ifindexOf: string -> int)
    requires Distinct(rs)
    ensures var (r, ok) := Verified(rs, names, ifindexOf);
      var more := |r| - |rs|;
      && Distinct(r)
      && more >= 0 && (forall i :: 0 <= i < |rs| ==> r[more + i] == rs[i].(deleted := r[more + i].deleted))
      && (forall i :: 0 <= i < more ==> !r[i].deleted && !r[i].valid && r[i].ifindex >= 0)
      && (ok ==> forall x :: Live(r, x) <==> x in names)
  {
    hide Live, Marked, Grown, Wanted, Distinct;
    MarkedDistinct(rs);
    WantedMeans(Marked(rs), names, ifindexOf);
    var r := Wanted(Marked(rs), names, ifindexOf).0;
    GrownSize(r, Marked(rs));
    forall i | 0 <= i < |rs|
      ensures r[|r| - |rs| + i] == rs[i].(deleted := r[|r| - |rs| + i].deleted)
    {
      GrownMarkedAt(r, rs, i);
    }
    forall x
      ensures !Live(Marked(rs), x)
    {
      MarkedNotLive(rs, x);
    }
  }

  lemma MarkedDistinct(rs: seq<Rec>)
    requires Distinct(rs)
    ensures Distinct(Marked(rs))
  {
  }

  lemma GrownMarkedAt(r: seq<Rec>, rs: seq<Rec>, i: nat)
    requires Grown(r, Marked(rs)) && i < |rs|
    ensures |r| >= |rs| && r[|r| - |rs| + i] == rs[i].(deleted := r[|r| - |rs| + i].deleted)
  {
    hide Grown, Marked;
    var q := Marked(rs);
    GrownAt(r, q, i);
    MarkedOnly(r[|r| - |rs| + i], q[i], rs[i]);
  }

  lemma MarkedOnly(x: Rec, m: Rec, q: Rec)
    requires x == m.(deleted := x.deleted) && m == q.(deleted := true)
    ensures x == q.(deleted := x.deleted)
  {
  }

  lemma GrownSize(r: seq<Rec>, rs: seq<Rec>)
    requires Grown(r, rs)
    ensures |r| >= |rs| && forall i :: 0 <= i < |r| - |rs| ==> !r[i].deleted && !r[i].valid && r[i].ifindex >= 0
  {
  }

  lemma GrownAt(r: seq<Rec>, rs: seq<Rec>, i: nat)
    requires Grown(r, rs) && i < |rs|
    ensures |r| >= |rs| && r[|r| - |rs| + i] == rs[i].(deleted := r[|r| - |rs| + i].deleted)
  {
  }

  lemma NamedMore(q: seq<Rec>, rs: seq<Rec>, name: string, ifindex: int, x: string)
    requires (q, true) == WantOne(rs, name, ifindex)
    ensures Named(q, x) <==> Named(rs, x) || x == name
  {
    var i := Find(rs, name);
    if i < |rs| {
      assert q == rs[i := q[i]] && q[i].name == name;
      forall k | 0 <= k < |rs|
        ensures q[k].name == rs[k].name
      {
      }
      assert Named(rs, name) by {
        assert rs[i].name == name;
      }
      if Named(rs, x) {
        var k :| 0 <= k < |rs| && rs[k].name == x;
        assert q[k].name == x;
      }
    } else {
      NamedCons(q[0], rs, x);
    }
  }

  /** A name of the text can be dealt with: a slave has it, or one can be made for it. */
  ghost predicate Possible(rs: seq<Rec>, ifindexOf: string -> int, x: string) {
    Named(rs, x) || (|x| < 16 && ifindexOf(x) >= 0)
  }

  lemma WantOneOk(rs: seq<Rec>, name: string, ifindex: int)
    ensures WantOne(rs, name, ifindex).1 <==> Named(rs, name) || (|name| < 16 && ifindex >= 0)
  {
    var i := Find(rs, name);
    if i < |rs| {
      assert rs[i].name == name;
    }
  }

  lemma {:induction false} WantedSucceeds(rs: seq<Rec>, names: seq<string>, ifindexOf: string -> int)
    ensures Wanted(rs, names, ifindexOf).1 <==> forall x :: x in names ==> Possible(rs, ifindexOf, x)
    decreases |names|
  {
    if names != [] {
      var n := names[0];
      WantOneOk(rs, n, ifindexOf(n));
      assert names == [n] + names[1..] && n in names;
      var (more, ok) := WantOne(rs, n, ifindexOf(n));
      if ok {
        WantedSucceeds(more, names[1..], ifindexOf);
        forall x
          ensures Possible(more, ifindexOf, x) <==> Possible(rs, ifindexOf, x) || x == n
        {
          NamedMore(more, rs, n, ifindexOf(n), x);
        }
      }
      hide WantOne, Named;
    }
  }

  lemma MarkedNamed(rs: seq<Rec>, x: string)
    ensures Named(Marked(rs), x) <==> Named(rs, x)
  {
    if Named(rs, x) {
      var i :| 0 <= i < |rs| && rs[i].name == x;
      assert Marked(rs)[i].name == x;
    }
  }

  /** Verification succeeds iff every name of the text has a slave already, or is short enough and known to the system. */
  lemma VerifiedSucceeds(rs: seq<Rec>, names: seq<string>, ifindexOf: string -> int)
    ensures Verified(rs, names, ifindexOf).1 <==>
              forall x :: x in names ==> Named(rs, x) || (|x| < 16 && ifindexOf(x) >= 0)
  {
    hide Wanted, Marked, Named;
    WantedSucceeds(Marked(rs), names, ifindexOf);
    forall x
      ensures Possible(Marked(rs), ifindexOf, x) <==> Named(rs, x) || (|x| < 16 && ifindexOf(x) >= 0)
    {
      MarkedNamed(rs, x);
    }
  }

  /** The records in front of the old ones are for names of the text, with the system's answers, and without sockets. */
  lemma {:induction false} WantedNew(rs: seq<Rec>, names: seq<string>, ifindexOf: string -> int, i: nat)
    requires i < |Wanted(rs, names, ifindexOf).0| - |rs|
    ensures var r := Wanted(rs, names, ifindexOf).0[i];
      r.name in names && r == Rec(r.name, ifindexOf(r.name), 0, 0, false, false)
    decreases |names|
  {
    var n := names[0];
    var (more, ok) := WantOne(rs, n, ifindexOf(n));
    assert names == [n] + names[1..];
    var w := Wanted(more, names[1..], ifindexOf).0;
    if i < |w| - |more| {
      WantedNew(more, names[1..], ifindexOf, i);
    } else {
      WantedTail(more, names[1..], ifindexOf);
      assert |more| == |rs| + 1 && w[|w| - |more|] == more[0];
    }
  }

  /** A record that was there before, and is not marked at the end, is as it was. */
  lemma {:induction false} WantedTail(rs: seq<Rec>, names: seq<string>, ifindexOf: string -> int)
    ensures var w := Wanted(rs, names, ifindexOf).0;
      |w| >= |rs| && forall k :: 0 <= k < |rs| && !rs[k].deleted ==> w[|w| - |rs| + k] == rs[k]
    decreases |names|
  {
    if names != [] {
      var (more, ok) := WantOne(rs, names[0], ifindexOf(names[0]));
      if ok {
        WantedTail(more, names[1..], ifindexOf);
        var w := Wanted(more, names[1..], ifindexOf).0;
        var d := |more| - |rs|;
        forall k | 0 <= k < |rs| && !rs[k].deleted
          ensures w[|w| - |rs| + k] == rs[k]
        {
          assert more[d + k] == rs[k];
          assert w[|w| - |more| + (d + k)] == more[d + k];
        }
      }
    }
  }

  /** New slaves after a verification are names of the text, with the interface that the system gave, and no socket. */
  lemma VerifiedNew(rs: seq<Rec>, names: seq<string>, ifindexOf: string -> int, i: nat)
    requires i < |Verified(rs, names, ifindexOf).0| - |rs|
    ensures var r := Verified(rs, names, ifindexOf).0[i];
      r.name in names && r == Rec(r.name, ifindexOf(r.name), 0, 0, false, false)
  {
    hide Wanted, Marked;
    WantedNew(Marked(rs), names, ifindexOf, i);
  }

  // ---------- The sweep as a value ----------

  datatype Sock = Sock(fdIndex: nat, fd: int)

  function Acquired(r: Rec, sock: Sock): Rec {
    r.(fdIndex := sock.fdIndex, fd := sock.fd, valid := true)
  }

  datatype Outcome = Outcome(slaves: seq<Rec>, released: seq<nat>, ok: bool)

  /** switch_get_bonding_fd over the list: what stays, which sockets were put back, and whether it got to the end. */
  function Swept(rs: seq<Rec>, sockFor: string -> Option<Sock>): Outcome {
    if rs == [] then Outcome([], [], true)
    else
      var r := rs[0];
      if r.deleted then
        var o := Swept(rs[1..], sockFor);
        o.(released := (if r.valid then [r.fdIndex] else []) + o.released)
      else if r.valid then
        var o := Swept(rs[1..], sockFor);
        o.(slaves := [r] + o.slaves)
      else
        match sockFor(r.name)
        case None => Outcome(rs, [], false)
        case Some(sock) =>
          var o := Swept(rs[1..], sockFor);
          o.(slaves := [Acquired(r, sock)] + o.slaves)
  }

  function Alive(rs: seq<Rec>): seq<Rec> {
    if rs == [] then [] else (if rs[0].deleted then [] else [rs[0]]) + Alive(rs[1..])
  }

  /** The sockets of the records that are to go. */
  function Owed(rs: seq<Rec>): seq<nat> {
    if rs == [] then [] else (if rs[0].deleted && rs[0].valid then [rs[0].fdIndex] else []) + Owed(rs[1..])
  }

  /** A record that stays is as it was, except that it has a socket now if it had none. */
  predicate Kept(r: Rec, was: Rec) {
    r.valid && r == if was.valid then was else was.(fdIndex := r.fdIndex, fd := r.fd, valid := true)
  }

  lemma KeptCons(r: Rec, s: seq<Rec>, q: Rec, was: seq<Rec>)
    requires |s| == |was| && Kept(r, q) && forall i :: 0 <= i < |s| ==> Kept(s[i], was[i])
    ensures forall i :: 0 <= i < |s| + 1 ==> Kept(([r] + s)[i], ([q] + was)[i])
  {
    hide Kept;
  }

  /**
  A sweep that gets to the end keeps the records that stay, in their order and with the
  sockets they had, and has put back the socket of every other, once.
  */
  lemma {:induction false} SweptMeans(rs: seq<Rec>, sockFor: string -> Option<Sock>)
    requires Swept(rs, sockFor).ok
    ensures var o := Swept(rs, sockFor);
      && o.released == Owed(rs)
      && |o.slaves| == |Alive(rs)| && forall i :: 0 <= i < |o.slaves| ==> Kept(o.slaves[i], Alive(rs)[i])
  {
    if rs != [] {
      SweptHead(rs, sockFor);
      hide Swept, Owed, Alive, Kept;
      SweptMeans(rs[1..], sockFor);
      if !rs[0].deleted {
        var s := Swept(rs, sockFor).slaves;
        KeptCons(s[0], Swept(rs[1..], sockFor).slaves, rs[0], Alive(rs[1..]));
      }
    }
  }

  /** What a sweep that gets to the end does with the first record. */
  lemma SweptHead(rs: seq<Rec>, sockFor: string -> Option<Sock>)
    requires rs != [] && Swept(rs, sockFor).ok
    ensures var o, p := Swept(rs, sockFor), Swept(rs[1..], sockFor);
      && p.ok && o.released == (if rs[0].deleted && rs[0].valid then [rs[0].fdIndex] else []) + p.released
      && Owed(rs) == (if rs[0].deleted && rs[0].valid then [rs[0].fdIndex] else []) + Owed(rs[1..])
      && if rs[0].deleted then o.slaves == p.slaves && Alive(rs) == Alive(rs[1..])
         else
           && o.slaves != [] && o.slaves == [o.slaves[0]] + p.slaves && Alive(rs) == [rs[0]] + Alive(rs[1..])
           && Kept(o.slaves[0], rs[0])
  {
    assert [] + Swept(rs[1..], sockFor).released == Swept(rs[1..], sockFor).released;
    assert [] + Alive(rs[1..]) == Alive(rs[1..]);
  }

  /** A sweep gets to the end iff there is a socket for every slave that stays and has none. */
  lemma {:induction false} SweptOk(rs: seq<Rec>, sockFor: string -> Option<Sock>)
    ensures Swept(rs, sockFor).ok <==>
              forall i :: 0 <= i < |rs| && !rs[i].deleted && !rs[i].valid ==> sockFor(rs[i].name).Some?
    decreases |rs|
  {
    if rs != [] {
      SweptOk(rs[1..], sockFor);
      assert forall i :: 0 < i < |rs| ==> rs[i] == rs[1..][i - 1];
    }
  }

  /** Then each slave that had no socket has the one that was given for its name. */
  lemma {:induction false} SweptSockets(rs: seq<Rec>, sockFor: string -> Option<Sock>, i: nat)
    requires Swept(rs, sockFor).ok && i < |Alive(rs)|
    ensures var o, was := Swept(rs, sockFor), Alive(rs)[i];
      && i < |o.slaves|
      && if was.valid then o.slaves[i] == was
         else sockFor(was.name).Some? && o.slaves[i] == was.(fdIndex := sockFor(was.name).value.fdIndex,
                                                             fd := sockFor(was.name).value.fd, valid := true)
    decreases |rs|
  {
    if rs[0].deleted {
      SweptSockets(rs[1..], sockFor, i);
    } else if i > 0 {
      SweptSockets(rs[1..], sockFor, i - 1);
    } else {
      SweptMeans(rs[1..], sockFor);
    }
  }

  /** What stays, and with which sockets. */
  ghost predicate SameCrew(s: seq<Rec>, was: seq<Rec>) {
    |s| == |was| && forall i :: 0 <= i < |was| ==> s[i] == was[i] || Kept(s[i], was[i])
  }

  lemma SameCrewCons(r: Rec, q: Rec, s: seq<Rec>, was: seq<Rec>)
    requires SameCrew(s, was) && (r == q || Kept(r, q))
    ensures SameCrew([r] + s, [q] + was)
  {
  }

  lemma AliveCons(r: Rec, rs: seq<Rec>)
    ensures Alive([r] + rs) == (if r.deleted then [] else [r]) + Alive(rs)
  {
  }

  /** Failed or not, a sweep loses nobody: what stays, and with which sockets it already had. */
  lemma {:induction false} SweptLosesNobody(rs: seq<Rec>, sockFor: string -> Option<Sock>)
    ensures SameCrew(Alive(Swept(rs, sockFor).slaves), Alive(rs))
  {
    if rs != [] {
      hide Alive, SameCrew;
      var r, rest := rs[0], rs[1..];
      assert rs == [r] + rest;
      var s, t := Swept(rs, sockFor).slaves, Swept(rest, sockFor).slaves;
      SweptLosesNobody(rest, sockFor);
      AliveCons(r, rest);
      if r.deleted {
        assert [] + Alive(rest) == Alive(rest);
      } else if r.valid || sockFor(r.name).Some? {
        assert s == [s[0]] + t;
        AliveCons(s[0], t);
        SameCrewCons(s[0], r, Alive(t), Alive(rest));
      } else {
        SameCrewSelf(Alive(rs));
      }
    }
  }

  lemma SameCrewSelf(s: seq<Rec>)
    ensures SameCrew(s, s)
  {
  }

  ghost predicate Named(rs: seq<Rec>, name: string) {
    exists i :: 0 <= i < |rs| && rs[i].name == name
  }

  lemma NamedCons(r: Rec, rs: seq<Rec>, x: string)
    ensures Named([r] + rs, x) <==> r.name == x || Named(rs, x)
  {
    var q := [r] + rs;
    if Named(rs, x) {
      var i :| 0 <= i < |rs| && rs[i].name == x;
      assert q[i + 1].name == x;
    }
    assert q[0].name == r.name;
  }

  lemma LiveCons(r: Rec, rs: seq<Rec>, x: string)
    ensures Live([r] + rs, x) <==> (r.name == x && !r.deleted) || Live(rs, x)
  {
    var q := [r] + rs;
    if Live(rs, x) {
      var i :| 0 <= i < |rs| && rs[i].name == x && !rs[i].deleted;
      assert q[i + 1].name == x && !q[i + 1].deleted;
    }
    assert q[0] == r;
  }

  lemma DistinctCons(r: Rec, rs: seq<Rec>)
    ensures Distinct([r] + rs) <==> Distinct(rs) && !Named(rs, r.name)
  {
    var q := [r] + rs;
    if Distinct(q) {
      forall i | 0 <= i < |rs|
        ensures rs[i].name != r.name
      {
        assert q[i + 1].name != q[0].name;
      }
      forall i, j | 0 <= i < j < |rs|
        ensures rs[i].name != rs[j].name
      {
        assert q[i + 1].name != q[j + 1].name;
      }
    }
  }

  /** Failed or not, a sweep adds no name, keeps names distinct, and takes away only marked records. */
  lemma {:induction false} SweptNames(rs: seq<Rec>, sockFor: string -> Option<Sock>, x: string)
    requires Distinct(rs)
    ensures var s := Swept(rs, sockFor).slaves;
      && Distinct(s) && (Named(s, x) ==> Named(rs, x)) && (Live(s, x) <==> Live(rs, x))
    decreases |rs|
  {
    if rs != [] {
      hide Distinct, Named, Live;
      var r, rest := rs[0], rs[1..];
      assert rs == [r] + rest;
      var s, t := Swept(rs, sockFor).slaves, Swept(rest, sockFor).slaves;
      DistinctCons(r, rest);
      SweptNames(rest, sockFor, x);
      SweptNames(rest, sockFor, r.name);
      NamedCons(r, rest, x);
      LiveCons(r, rest, x);
      if !r.deleted && s != rs {
        assert s == [s[0]] + t;
        DistinctCons(s[0], t);
        NamedCons(s[0], t, x);
        LiveCons(s[0], t, x);
      }
    }
  }

  lemma {:induction false} AliveIsAlive(rs: seq<Rec>, i: nat)
    requires i < |Alive(rs)|
    ensures !Alive(rs)[i].deleted && Alive(rs)[i] in rs
    decreases |rs|
  {
    if rs[0].deleted {
      AliveIsAlive(rs[1..], i);
    } else if i > 0 {
      AliveIsAlive(rs[1..], i - 1);
    }
  }

  /** The sockets of the slaves that had one and are not named any more. */
  function Gone(rs: seq<Rec>, names: seq<string>): seq<nat> {
    if rs == [] then []
    else (if rs[0].valid && rs[0].name !in names then [rs[0].fdIndex] else []) + Gone(rs[1..], names)
  }

  lemma {:induction false} OwedIsGone(q: seq<Rec>, rs: seq<Rec>, names: seq<string>)
    requires |q| == |rs| && forall i :: 0 <= i < |rs| ==> q[i] == rs[i].(deleted := rs[i].name !in names)
    ensures Owed(q) == Gone(rs, names)
  {
    if rs != [] {
      OwedIsGone(q[1..], rs[1..], names);
    }
  }

  lemma {:induction false} OwedTail(r: seq<Rec>, more: nat)
    requires more <= |r| && forall i :: 0 <= i < more ==> !r[i].deleted
    ensures Owed(r) == Owed(r[more..])
    decreases more
  {
    if more != 0 {
      OwedTail(r[1..], more - 1);
      assert r[1..][more - 1..] == r[more..];
    } else {
      assert r[0..] == r;
    }
  }

  /** The records marked after a successful verification are those whose names are not in the text. */
  lemma VerifiedOwes(rs: seq<Rec>, names: seq<string>, ifindexOf: string -> int)
    requires Distinct(rs) && Verified(rs, names, ifindexOf).1
    ensures Owed(Verified(rs, names, ifindexOf).0) == Gone(rs, names)
  {
    hide Verified, Owed, Gone;
    var r := Verified(rs, names, ifindexOf).0;
    VerifiedMeans(rs, names, ifindexOf);
    var more := |r| - |rs|;
    OwedTail(r, more);
    forall i | 0 <= i < |rs|
      ensures r[more..][i] == rs[i].(deleted := rs[i].name !in names)
    {
      assert Live(r, rs[i].name) <==> !r[more + i].deleted;
    }
    OwedIsGone(r[more..], rs, names);
  }

  /** The sockets still to be put back shrink by those that a sweep puts back; a full sweep leaves none. */
  lemma {:induction false} SweptOwes(rs: seq<Rec>, sockFor: string -> Option<Sock>)
    ensures var o := Swept(rs, sockFor);
      && o.released + Owed(o.slaves) == Owed(rs)
      && (o.ok ==> Owed(o.slaves) == [])
  {
    if rs != [] {
      SweptOwes(rs[1..], sockFor);
      var r, t := rs[0], Swept(rs[1..], sockFor).slaves;
      if !r.deleted && (r.valid || sockFor(r.name).Some?) {
        var s := Swept(rs, sockFor).slaves;
        assert s[1..] == t;
      }
    }
  }

  /** Sweeps at successive polls, until one gets to the end. */
  function Sweeps(rs: seq<Rec>, socks: seq<string -> Option<Sock>>): Outcome
    decreases |socks|
  {
    if socks == [] then Outcome(rs, [], false)
    else
      var o := Swept(rs, socks[0]);
      if o.ok then o
      else
        var p := Sweeps(o.slaves, socks[1..]);
        p.(released := o.released + p.released)
  }

  lemma SameCrewTrans(s: seq<Rec>, t: seq<Rec>, u: seq<Rec>)
    requires SameCrew(s, t) && SameCrew(t, u)
    ensures SameCrew(s, u)
  {
    forall i | 0 <= i < |u|
      ensures s[i] == u[i] || Kept(s[i], u[i])
    {
      assert t[i] == u[i] || Kept(t[i], u[i]);
    }
  }

  /** However many sweeps it takes: what stays stays, each socket owed is put back once, and in the end none is owed. */
  lemma {:induction false} SweepsMean(rs: seq<Rec>, socks: seq<string -> Option<Sock>>)
    requires Distinct(rs)
    ensures var o := Sweeps(rs, socks);
      && Distinct(o.slaves) && (forall x :: Live(o.slaves, x) <==> Live(rs, x))
      && o.released + Owed(o.slaves) == Owed(rs)
      && SameCrew(Alive(o.slaves), Alive(rs))
      && (o.ok ==>
            Owed(o.slaves) == [] && forall i :: 0 <= i < |o.slaves| ==> o.slaves[i].valid && !o.slaves[i].deleted)
    decreases |socks|
  {
    hide Distinct, Live, Swept, Owed, Alive, SameCrew;
    SameCrewSelf(Alive(rs));
    if socks != [] {
      var o := Swept(rs, socks[0]);
      SweptOwes(rs, socks[0]);
      SweptLosesNobody(rs, socks[0]);
      SweptNames(rs, socks[0], "");
      forall x
        ensures Live(o.slaves, x) <==> Live(rs, x)
      {
        SweptNames(rs, socks[0], x);
      }
      if o.ok {
        SweptWhole(rs, socks[0]);
      } else {
        SweepsMean(o.slaves, socks[1..]);
        var p := Sweeps(o.slaves, socks[1..]);
        SameCrewTrans(Alive(p.slaves), Alive(o.slaves), Alive(rs));
        assert o.released + p.released + Owed(p.slaves) == o.released + (p.released + Owed(p.slaves));
      }
    }
  }

  /** A full sweep leaves no marks, and a socket everywhere. */
  lemma SweptWhole(rs: seq<Rec>, sockFor: string -> Option<Sock>)
    requires Swept(rs, sockFor).ok
    ensures forall i :: 0 <= i < |Swept(rs, sockFor).slaves| ==>
              var r := Swept(rs, sockFor).slaves[i]; r.valid && !r.deleted
  {
    hide Swept, Alive;
    SweptMeans(rs, sockFor);
    forall i | 0 <= i < |Swept(rs, sockFor).slaves|
      ensures !Alive(rs)[i].deleted
    {
      AliveIsAlive(rs, i);
    }
  }

  lemma {:induction false} AliveAll(rs: seq<Rec>)
    requires forall i :: 0 <= i < |rs| ==> !rs[i].deleted
    ensures Alive(rs) == rs
  {
    if rs != [] {
      AliveAll(rs[1..]);
    }
  }

  /** Without marks the names are those of the records that stay. */
  lemma NamedLive(rs: seq<Rec>, x: string)
    requires forall i :: 0 <= i < |rs| ==> !rs[i].deleted
    ensures Named(rs, x) <==> Live(rs, x)
  {
  }

  /**
  A new text that is verified and then swept, as often as it takes for a sweep to get to the
  end: the list has each name of the text exactly once and nothing else, every record has a
  socket, those that had one before have kept it, and the sockets of those not named any more
  have been put back once each.
  */
  lemma VerifyThenSweep(rs: seq<Rec>, names: seq<string>, ifindexOf: string -> int, socks: seq<string -> Option<Sock>>)
    requires Distinct(rs) && Verified(rs, names, ifindexOf).1
    requires Sweeps(Verified(rs, names, ifindexOf).0, socks).ok
    ensures var o := Sweeps(Verified(rs, names, ifindexOf).0, socks);
      && Distinct(o.slaves)
      && (forall x :: Named(o.slaves, x) <==> x in names)
      && (forall i :: 0 <= i < |o.slaves| ==> o.slaves[i].valid && !o.slaves[i].deleted)
      && o.released == Gone(rs, names)
      && (forall i, j :: 0 <= i < |o.slaves| && 0 <= j < |rs| && rs[j].valid && rs[j].name == o.slaves[i].name ==>
            o.slaves[i].fdIndex == rs[j].fdIndex && o.slaves[i].fd == rs[j].fd)
  {
    hide Named, Live, Verified, Sweeps, Owed, Alive;
    var r := Verified(rs, names, ifindexOf).0;
    var o := Sweeps(r, socks);
    VerifiedMeans(rs, names, ifindexOf);
    VerifiedOwes(rs, names, ifindexOf);
    SweepsMean(r, socks);
    AliveAll(o.slaves);
    forall x
      ensures Named(o.slaves, x) <==> x in names
    {
      NamedLive(o.slaves, x);
    }
    forall i, j | 0 <= i < |o.slaves| && 0 <= j < |rs| && rs[j].valid && rs[j].name == o.slaves[i].name
      ensures o.slaves[i].fdIndex == rs[j].fdIndex && o.slaves[i].fd == rs[j].fd
    {
      AliveIsAlive(r, i);
      var more := |r| - |rs|;
      var k :| 0 <= k < |r| && r[k] == Alive(r)[i];
      assert r[more + j].name == r[k].name;
      assert k == more + j;
    }
  }
}

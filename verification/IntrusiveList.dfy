/**
The intrusive circular list: every operation rewires the pointers of heap nodes, and the
ring that the pointers make is a sequence.
*/
module IntrusiveList {
  import opened Collections

  /** The links embedded in every listed object, and in every list head. */
  class ListHead {
    var next: ListHead
    var prev: ListHead

    /** INIT_LIST_HEAD: alone in its ring. */
    constructor ()
      ensures Ring([this])
    {
      next := this;
      prev := this;
    }
  }

  /** `b` comes right after `a`. */
  ghost predicate Linked(a: ListHead, b: ListHead)
    reads a, b
  {
    a.next == b && b.prev == a
  }

  /** The nodes are distinct, and their pointers go round in this order, both ways. */
  ghost predicate Ring(ns: seq<ListHead>)
    reads ns
  {
    && ns != [] && NoDup(ns)
    && (forall i :: 0 <= i < |ns| - 1 ==> Linked(ns[i], ns[i + 1]))
    && Linked(ns[|ns| - 1], ns[0])
  }

  /** `head` lists the nodes `s`. */
  ghost predicate Lists(head: ListHead, s: seq<ListHead>)
    reads head, s
  {
    Ring([head] + s)
  }

  /** Two lists share no node, not even a head. */
  ghost predicate Apart(a: seq<ListHead>, b: seq<ListHead>) {
    forall x :: x in a ==> x !in b
  }

  lemma ApartAt(a: seq<ListHead>, b: seq<ListHead>)
    requires Apart(a, b)
    ensures forall i, j :: 0 <= i < |a| && 0 <= j < |b| ==> a[i] != b[j]
  {
    forall i, j | 0 <= i < |a| && 0 <= j < |b|
      ensures a[i] != b[j]
    {
      assert a[i] in a && b[j] in b;
    }
  }

  lemma NoDupInsert(a: seq<ListHead>, i: nat, x: ListHead)
    requires NoDup(a) && i <= |a| && x !in a
    ensures NoDup(a[..i] + [x] + a[i..])
  {
    var b := a[..i] + [x] + a[i..];
    forall j, k | 0 <= j < k < |b|
      ensures b[j] != b[k]
    {
      if j == i {
        assert b[k] == a[k - 1];
      } else if k == i {
        assert b[j] == a[j];
      } else {
        assert b[j] == a[if j < i then j else j - 1] && b[k] == a[if k < i then k else k - 1];
      }
    }
  }

  lemma NoDupRemove(a: seq<ListHead>, i: nat)
    requires NoDup(a) && i < |a|
    ensures NoDup(a[..i] + a[i + 1..])
  {
    var b := a[..i] + a[i + 1..];
    forall j, k | 0 <= j < k < |b|
      ensures b[j] != b[k]
    {
      assert b[j] == a[if j < i then j else j + 1] && b[k] == a[if k < i then k else k + 1];
    }
  }

  lemma NoDupJoin(h: ListHead, t: seq<ListHead>, s: seq<ListHead>)
    requires NoDup([h] + s) && NoDup(t) && Apart(t, [h] + s)
    ensures NoDup([h] + t + s)
  {
    var b, hs := [h] + t + s, [h] + s;
    ApartAt(t, hs);
    forall j, k | 0 <= j < k < |b|
      ensures b[j] != b[k]
    {
      if j == 0 {
        assert b[j] == hs[0];
        assert b[k] == if k <= |t| then t[k - 1] else hs[k - |t|];
      } else if k <= |t| {
        assert b[j] == t[j - 1] && b[k] == t[k - 1];
      } else {
        assert b[j] == if j <= |t| then t[j - 1] else hs[j - |t|];
        assert b[k] == hs[k - |t|];
      }
    }
  }

  /** What a list holds is determined by the pointers. */
  lemma {:induction false} PrefixUnique(a: seq<ListHead>, b: seq<ListHead>, k: nat)
    requires Ring(a) && Ring(b) && a[0] == b[0] && k < |a| && k < |b|
    ensures a[k] == b[k]
  {
    if k != 0 {
      PrefixUnique(a, b, k - 1);
      assert Linked(a[k - 1], a[k]) && Linked(b[k - 1], b[k]);
    }
  }

  lemma NotLonger(a: seq<ListHead>, b: seq<ListHead>)
    requires Ring(a) && Ring(b) && a[0] == b[0]
    ensures |a| <= |b|
  {
    if |b| < |a| {
      PrefixUnique(a, b, |b| - 1);
    }
  }

  lemma ListsUnique(head: ListHead, s: seq<ListHead>, t: seq<ListHead>)
    requires Lists(head, s) && Lists(head, t)
    ensures s == t
  {
    var a, b := [head] + s, [head] + t;
    NotLonger(a, b);
    NotLonger(b, a);
    forall k | 0 <= k < |a|
      ensures a[k] == b[k]
    {
      PrefixUnique(a, b, k);
    }
    assert s == a[1..] && t == b[1..];
  }

  // ---------- The operations ----------

  method ListAdd(newp: ListHead, head: ListHead, ghost s: seq<ListHead>)
    requires Lists(head, s) && newp !in [head] + s
    modifies newp, head, head.next
    ensures Lists(head, [newp] + s)
  {
    ghost var a := [head] + s;
    assert Linked(a[0], if s == [] then a[0] else a[1]);
    NoDupInsert(a, 1, newp);
    head.next.prev := newp;
    newp.next := head.next;
    newp.prev := head;
    head.next := newp;
    ghost var b := [head] + ([newp] + s);
    assert b == a[..1] + [newp] + a[1..];
    forall i | 0 <= i < |b| - 1
      ensures Linked(b[i], b[i + 1])
    {
      if i >= 2 {
        assert b[i] == a[i - 1] && b[i + 1] == a[i];
        assert old(Linked(a[i - 1], a[i]));
      }
    }
    assert s != [] ==> b[|b| - 1] == a[|a| - 1];
  }

  method ListAddTail(newp: ListHead, head: ListHead, ghost s: seq<ListHead>)
    requires Lists(head, s) && newp !in [head] + s
    modifies newp, head, head.prev
    ensures Lists(head, s + [newp])
  {
    ghost var a := [head] + s;
    assert Linked(a[|a| - 1], a[0]);
    NoDupInsert(a, |a|, newp);
    head.prev.next := newp;
    newp.next := head;
    newp.prev := head.prev;
    head.prev := newp;
    ghost var b := [head] + (s + [newp]);
    assert b == a[..|a|] + [newp] + a[|a|..];
    forall i | 0 <= i < |b| - 1
      ensures Linked(b[i], b[i + 1])
    {
      if i < |a| - 1 {
        assert old(Linked(a[i], a[i + 1]));
      }
    }
  }

  /** The node taken out keeps its own pointers. */
  method ListDel(elem: ListHead, ghost head: ListHead, ghost s: seq<ListHead>, ghost k: nat)
    requires Lists(head, s) && k < |s| && s[k] == elem
    modifies elem.next, elem.prev
    ensures Lists(head, s[..k] + s[k + 1..])
    ensures elem.next == old(elem.next) && elem.prev == old(elem.prev)
  {
    ghost var a := [head] + s;
    assert a[k + 1] == elem && Linked(a[k], a[k + 1]);
    assert Linked(elem, if k + 2 < |a| then a[k + 2] else a[0]);
    NoDupRemove(a, k + 1);
    elem.next.prev := elem.prev;
    elem.prev.next := elem.next;
    ghost var b := [head] + (s[..k] + s[k + 1..]);
    assert b == a[..k + 1] + a[k + 2..];
    forall i | 0 <= i < |b| - 1
      ensures Linked(b[i], b[i + 1])
    {
      if i < k {
        assert old(Linked(a[i], a[i + 1]));
      } else if i > k {
        assert b[i] == a[i + 1] && b[i + 1] == a[i + 2];
        assert old(Linked(a[i + 1], a[i + 2]));
      }
    }
    assert b[|b| - 1] == if k + 2 < |a| then a[|a| - 1] else a[k];
  }

  /** The nodes of one list go to the front of another; the head they came from is left as it was. */
  method ListSplice(add: ListHead, head: ListHead, ghost t: seq<ListHead>, ghost s: seq<ListHead>)
    requires Lists(add, t) && Lists(head, s) && Apart([add] + t, [head] + s)
    modifies add.next, add.prev, head, head.next
    ensures Lists(head, t + s)
    ensures t != [] ==> add.next == old(add.next) && add.prev == old(add.prev)
  {
    ghost var c, a := [add] + t, [head] + s;
    ApartAt(c, a);
    if add != add.next {
      assert Linked(c[0], if t == [] then c[0] else c[1]) && Linked(c[|c| - 1], c[0]);
      assert Linked(a[0], if s == [] then a[0] else a[1]) && Linked(a[|a| - 1], a[0]);
      assert t != [] && t == c[1..];
      NoDupJoin(head, t, s);
      add.next.prev := head;
      add.prev.next := head.next;
      head.next.prev := add.prev;
      head.next := add.next;
      ghost var b := [head] + (t + s);
      assert b == [head] + t + s;
      forall i | 0 <= i < |b| - 1
        ensures Linked(b[i], b[i + 1])
      {
        if 1 <= i < |t| {
          assert old(Linked(c[i], c[i + 1]));
        } else if i > |t| {
          assert b[i] == a[i - |t|] && b[i + 1] == a[i - |t| + 1];
          assert old(Linked(a[i - |t|], a[i - |t| + 1]));
        }
      }
      assert s != [] ==> b[|b| - 1] == a[|a| - 1];
    } else {
      assert Linked(c[0], if t == [] then c[0] else c[1]);
      assert t == [] && t + s == s;
    }
  }

  // ---------- Loops that may take out the current node ----------

  datatype Fate = Keep | Free | Move

  /** The nodes of `s` that meet the fate `f`, in order. */
  ghost function Those(s: seq<ListHead>, fate: ListHead -> Fate, f: Fate): (r: seq<ListHead>)
    ensures forall i :: 0 <= i < |r| ==> r[i] in s && fate(r[i]) == f
  {
    if s == [] then []
    else
      var last := s[|s| - 1];
      Those(s[..|s| - 1], fate, f) + (if fate(last) == f then [last] else [])
  }

  /** No node is lost: each is found under its own fate, and nowhere else. */
  lemma {:induction false} ThoseExactly(s: seq<ListHead>, fate: ListHead -> Fate, f: Fate, x: ListHead)
    ensures x in Those(s, fate, f) <==> x in s && fate(x) == f
    decreases |s|
  {
    if s != [] {
      ThoseExactly(s[..|s| - 1], fate, f, x);
      assert x in s <==> x in s[..|s| - 1] || x == s[|s| - 1];
    }
  }

  lemma ThoseStep(s: seq<ListHead>, k: nat, fate: ListHead -> Fate, f: Fate)
    requires k < |s|
    ensures Those(s[..k + 1], fate, f) == Those(s[..k], fate, f) + (if fate(s[k]) == f then [s[k]] else [])
  {
    assert s[..k + 1][..k] == s[..k] && s[..k + 1][k] == s[k];
  }

  /** The sequence in the middle of the loop: what was kept, then what is still to come. */
  ghost function Midway(s: seq<ListHead>, fate: ListHead -> Fate, k: nat): seq<ListHead>
    requires k <= |s|
  {
    Those(s[..k], fate, Keep) + s[k..]
  }

  lemma MidwayStep(s: seq<ListHead>, fate: ListHead -> Fate, k: nat)
    requires k < |s|
    ensures var m, n := Midway(s, fate, k), |Those(s[..k], fate, Keep)|;
      && n < |m| && m[n] == s[k] && (if n + 1 < |m| then k + 1 < |s| && m[n + 1] == s[k + 1] else k + 1 == |s|)
      && Midway(s, fate, k + 1) == if fate(s[k]) == Keep then m else m[..n] + m[n + 1..]
  {
    ThoseStep(s, k, fate, Keep);
    assert s[k..] == [s[k]] + s[k + 1..];
  }

  lemma RingClosed(ns: seq<ListHead>, i: nat)
    requires Ring(ns) && i < |ns|
    ensures ns[i].next in ns && ns[i].prev in ns
  {
    assert Linked(ns[i], if i + 1 < |ns| then ns[i + 1] else ns[0]);
    assert Linked(if i > 0 then ns[i - 1] else ns[|ns| - 1], ns[i]);
  }

  lemma MidwayInside(s: seq<ListHead>, fate: ListHead -> Fate, k: nat)
    requires k <= |s|
    ensures forall x :: x in Midway(s, fate, k) ==> x in s
    ensures forall x :: x in Those(s[..k], fate, Move) ==> x in s
  {
  }

  /** The head, the nodes before `k` and the nodes from `k` on are all different. */
  lemma SplitApart(head: ListHead, s: seq<ListHead>, k: nat)
    requires NoDup([head] + s) && k <= |s|
    ensures head !in s && Apart(s[..k], s[k..])
  {
    var a := [head] + s;
    forall i | 0 <= i < |s|
      ensures s[i] == a[i + 1] != a[0]
    {
    }
    forall i, j | 0 <= i < k <= j < |s|
      ensures s[i] != s[j]
    {
      assert a[i + 1] != a[j + 1];
    }
  }

  /** The two rings stay apart in the middle of the loop. */
  lemma MidwayApart(head: ListHead, s: seq<ListHead>, other: ListHead, t: seq<ListHead>, fate: ListHead -> Fate, k: nat)
    requires NoDup([head] + s) && Apart([head] + s, [other] + t) && k <= |s|
    ensures Apart([head] + Midway(s, fate, k), [other] + (t + Those(s[..k], fate, Move)))
  {
    SplitApart(head, s, k);
    var r := Those(s[..k], fate, Move);
    forall x | x in [head] + Midway(s, fate, k)
      ensures x !in [other] + (t + r)
    {
      assert x in [head] + s;
      assert x in Those(s[..k], fate, Keep) ==> fate(x) == Keep;
    }
  }

  /** The current node, once taken out of the first ring, is in neither. */
  lemma CurrentOut(head: ListHead, s: seq<ListHead>, other: ListHead, t: seq<ListHead>, fate: ListHead -> Fate, k: nat)
    requires NoDup([head] + s) && Apart([head] + s, [other] + t) && k < |s| && fate(s[k]) != Keep
    ensures s[k] !in [head] + Midway(s, fate, k + 1) && s[k] !in [other] + (t + Those(s[..k], fate, Move))
  {
    SplitApart(head, s, k);
    SplitApart(head, s, k + 1);
    assert s[k] in s[k..] && s[k] in s[..k + 1] && s[k] in [head] + s;
    ThoseStep(s, k, fate, Keep);
  }

  method DeleteFrom(elem: ListHead, ghost head: ListHead, ghost s: seq<ListHead>, ghost k: nat)
    requires Lists(head, s) && k < |s| && s[k] == elem
    modifies head, s
    ensures Lists(head, s[..k] + s[k + 1..])
  {
    RingClosed([head] + s, k + 1);
    assert ([head] + s)[k + 1] == elem;
    hide Lists, Ring;
    ListDel(elem, head, s, k);
  }

  method AppendTo(elem: ListHead, head: ListHead, ghost s: seq<ListHead>)
    requires Lists(head, s) && elem !in [head] + s
    modifies elem, head, s
    ensures Lists(head, s + [elem])
  {
    RingClosed([head] + s, 0);
    hide Lists, Ring;
    ListAddTail(elem, head, s);
  }

  /** What the body of the loop does to the current node. */
  method Visit(cur: ListHead, head: ListHead, other: ListHead, fate: ListHead -> Fate,
               ghost s: seq<ListHead>, ghost t: seq<ListHead>, ghost k: nat)
    requires NoDup([head] + s) && Apart([head] + s, [other] + t) && k < |s| && s[k] == cur
    requires Lists(head, Midway(s, fate, k)) && Lists(other, t + Those(s[..k], fate, Move))
    modifies head, other, s, t
    ensures Lists(head, Midway(s, fate, k + 1)) && Lists(other, t + Those(s[..k + 1], fate, Move))
  {
    hide Ring, NoDup, Apart, Those, Midway, Lists;
    ghost var r, n := t + Those(s[..k], fate, Move), |Those(s[..k], fate, Keep)|;
    MidwayStep(s, fate, k);
    ThoseStep(s, k, fate, Move);
    ReGroup(t, Those(s[..k], fate, Move), if fate(cur) == Move then [cur] else []);
    if fate(cur) != Keep {
      LoopFrame(head, s, other, t, fate, k);
      DeleteFrom(cur, head, Midway(s, fate, k), n);
      if fate(cur) == Move {
        AppendTo(cur, other, r);
      }
    }
  }

  lemma ReGroup(a: seq<ListHead>, b: seq<ListHead>, c: seq<ListHead>)
    ensures a + (b + c) == (a + b) + c && (c == [] ==> a + (b + c) == a + b)
  {
    assert b + [] == b;
  }

  /** What the body may touch, and what each of its two steps leaves alone. */
  lemma LoopFrame(head: ListHead, s: seq<ListHead>, other: ListHead, t: seq<ListHead>, fate: ListHead -> Fate, k: nat)
    requires NoDup([head] + s) && Apart([head] + s, [other] + t) && k < |s| && fate(s[k]) != Keep
    ensures var m, n, r := Midway(s, fate, k), Midway(s, fate, k + 1), t + Those(s[..k], fate, Move);
      && head != other && other !in m && head !in r
      && (forall i :: 0 <= i < |m| ==> m[i] in s && m[i] !in r)
      && (forall i :: 0 <= i < |r| ==> (r[i] in s || r[i] in t) && r[i] !in m)
      && s[k] !in [other] + r && s[k] !in [head] + n
      && (forall i :: 0 <= i < |n| ==> n[i] !in r && n[i] != other)
  {
    MidwayInside(s, fate, k);
    MidwayApart(head, s, other, t, fate, k);
    MidwayApart(head, s, other, t, fate, k + 1);
    CurrentOut(head, s, other, t, fate, k);
    ThoseStep(s, k, fate, Move);
    var m, n, r := Midway(s, fate, k), Midway(s, fate, k + 1), t + Those(s[..k], fate, Move);
    hide Midway, Those, NoDup;
    ApartAt([head] + m, [other] + r);
    assert head in [head] + m && other in [other] + r;
    forall i | 0 <= i < |m|
      ensures m[i] in s && m[i] !in r && m[i] != other
    {
      assert m[i] in [head] + m;
    }
    forall i | 0 <= i < |r|
      ensures (r[i] in s || r[i] in t) && r[i] !in m
    {
      assert r[i] in [other] + r;
    }
    forall i | 0 <= i < |n|
      ensures n[i] !in r && n[i] != other
    {
      assert n[i] in [head] + n;
    }
  }

  /**
  list_for_each_entry_safe with a body that keeps the current node, frees it, or moves it to
  the tail of another list. Each node that was there at the start is visited once, in order.
  */
  method ForEachSafe(head: ListHead, other: ListHead, fate: ListHead -> Fate, ghost s: seq<ListHead>,
                     ghost t: seq<ListHead>)
    returns (ghost seen: seq<ListHead>)
    requires Lists(head, s) && Lists(other, t) && Apart([head] + s, [other] + t)
    modifies head, other, s, t
    ensures seen == s
    ensures Lists(head, Those(s, fate, Keep)) && Lists(other, t + Those(s, fate, Move))
    ensures Apart([head] + Those(s, fate, Keep), [other] + (t + Those(s, fate, Move)))
  {
    hide Ring, NoDup, Apart, Those, Midway, Lists;
    ghost var k := 0;
    seen := [];
    Start(head, s, t, fate);
    Pointers(head, s, fate, 0);
    Finish(head, s, other, t, fate);
    var cur := head.next;
    var tmp := cur.next;
    while cur != head
      invariant k <= |s| && seen == s[..k]
      invariant Lists(head, Midway(s, fate, k)) && Lists(other, t + Those(s[..k], fate, Move))
      invariant cur == if k < |s| then s[k] else head
      invariant k < |s| ==> tmp == if k + 1 < |s| then s[k + 1] else head
      decreases |s| - k
    {
      Visit(cur, head, other, fate, s, t, k);
      k := k + 1;
      seen := seen + [cur];
      cur := tmp;
      Pointers(head, s, fate, k);
      tmp := tmp.next;
      Longer(s, k);
    }
  }

  lemma Longer(s: seq<ListHead>, k: nat)
    requires 0 < k <= |s|
    ensures s[..k - 1] + [s[k - 1]] == s[..k]
  {
  }

  lemma Start(head: ListHead, s: seq<ListHead>, t: seq<ListHead>, fate: ListHead -> Fate)
    requires Lists(head, s)
    ensures NoDup([head] + s) && Midway(s, fate, 0) == s && t + Those(s[..0], fate, Move) == t
  {
    assert s[..0] == [] && s[0..] == s;
  }

  lemma Finish(head: ListHead, s: seq<ListHead>, other: ListHead, t: seq<ListHead>, fate: ListHead -> Fate)
    requires NoDup([head] + s) && Apart([head] + s, [other] + t)
    ensures head !in s && s[..|s|] == s && Midway(s, fate, |s|) == Those(s, fate, Keep)
    ensures Apart([head] + Those(s, fate, Keep), [other] + (t + Those(s, fate, Move)))
  {
    MidwayApart(head, s, other, t, fate, |s|);
    SplitApart(head, s, |s|);
    assert s[|s|..] == [];
  }

  /** The cursor of the loop, in terms of the sequence. */
  lemma Pointers(head: ListHead, s: seq<ListHead>, fate: ListHead -> Fate, k: nat)
    requires NoDup([head] + s) && k <= |s| && Lists(head, Midway(s, fate, k))
    ensures k == 0 ==> head.next == if s == [] then head else s[0]
    ensures k < |s| ==> s[k] != head && s[k].next == if k + 1 < |s| then s[k + 1] else head
  {
    var m, n := Midway(s, fate, k), |Those(s[..k], fate, Keep)|;
    if k < |s| {
      MidwayStep(s, fate, k);
      Neighbours(head, m, n);
    }
    if k == 0 {
      Neighbours(head, m, 0);
      assert s[..0] == [] && s[0..] == s;
    }
  }

  lemma Neighbours(head: ListHead, s: seq<ListHead>, n: nat)
    requires Lists(head, s)
    ensures head.next == if s == [] then head else s[0]
    ensures n < |s| ==> s[n] != head && s[n].next == if n + 1 < |s| then s[n + 1] else head
  {
    var a := [head] + s;
    assert Linked(a[0], if s == [] then a[0] else a[1]);
    if n < |s| {
      assert a[n + 1] == s[n];
      assert Linked(a[n + 1], if n + 2 < |a| then a[n + 2] else a[0]);
    }
  }
}

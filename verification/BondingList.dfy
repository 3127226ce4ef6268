/**
The slave list of a bonding port in memory: records chained by pointers, marked, pushed in
front and unlinked in place.
*/
module BondingList {
  import opened BondingSlaves
  import opened Limits
  import opened Options
  import opened Collections

  class SlaveInfo {
    const name: string
    const ifindex: int
    var next: SlaveInfo?
    var fdIndex: nat
    var fd: int
    var deleted: bool
    var valid: bool

    constructor (name: string, ifindex: int, next: SlaveInfo?)
      ensures Value() == Rec(name, ifindex, 0, 0, false, false) && this.next == next
    {
      this.name, this.ifindex, this.next := name, ifindex, next;
      fdIndex, fd, deleted, valid := 0, 0, false, false;
    }

    /** The last of the nodes `kept` points elsewhere from now on. */
    method Redirect(to: SlaveInfo?, ghost kept: seq<SlaveInfo>, ghost was: SlaveInfo?)
      requires kept != [] && kept[|kept| - 1] == this && NoDup(kept) && Leads(kept, was)
      modifies this`next
      ensures Leads(kept, to) && next == to
      ensures fdIndex == old(fdIndex) && fd == old(fd) && deleted == old(deleted) && valid == old(valid)
    {
      next := to;
    }

    function Value(): Rec
      reads this
    {
      Rec(name, ifindex, fdIndex, fd, deleted, valid)
    }
  }

  function Values(nodes: seq<SlaveInfo>): (r: seq<Rec>)
    reads nodes
    ensures |r| == |nodes| && forall i :: 0 <= i < |r| ==> r[i] == nodes[i].Value()
  {
    if nodes == [] then [] else [nodes[0].Value()] + Values(nodes[1..])
  }

  function At(nodes: seq<SlaveInfo>, i: nat): SlaveInfo? {
    if i < |nodes| then nodes[i] else null
  }

  /** From `first`, the pointers go through these nodes, all different, to the end. */
  ghost predicate Chain(first: SlaveInfo?, nodes: seq<SlaveInfo>)
    reads nodes
  {
    first == At(nodes, 0) && NoDup(nodes) && Leads(nodes, null)
  }

  /** Each of the nodes points to the one after it, and the last to `end`. */
  ghost predicate Leads(nodes: seq<SlaveInfo>, end: SlaveInfo?)
    reads nodes
  {
    forall i :: 0 <= i < |nodes| ==> nodes[i].next == if i == |nodes| - 1 then end else At(nodes, i + 1)
  }

  lemma LeadsSplit(kept: seq<SlaveInfo>, rest: seq<SlaveInfo>, end: SlaveInfo?)
    requires Leads(kept + rest, end)
    ensures Leads(kept, if rest == [] then end else rest[0]) && Leads(rest, end)
  {
    var all := kept + rest;
    forall i | 0 <= i < |kept|
      ensures kept[i] == all[i]
    {
    }
    forall i | 0 <= i < |rest|
      ensures rest[i] == all[|kept| + i]
    {
    }
  }

  lemma LeadsOne(node: SlaveInfo, end: SlaveInfo?)
    requires Leads([node], end)
    ensures node.next == end
  {
    assert [node][0] == node;
  }

  lemma LeadsJoin(kept: seq<SlaveInfo>, rest: seq<SlaveInfo>, end: SlaveInfo?)
    requires Leads(kept, if rest == [] then end else rest[0]) && Leads(rest, end)
    ensures Leads(kept + rest, end)
  {
    var all := kept + rest;
    forall i | 0 <= i < |all|
      ensures all[i] == if i < |kept| then kept[i] else rest[i - |kept|]
    {
    }
  }

  lemma CutNoDup(kept: seq<SlaveInfo>, cur: SlaveInfo, rest: seq<SlaveInfo>)
    requires NoDup(kept + ([cur] + rest))
    ensures NoDup(kept + rest)
    ensures forall i, j :: 0 <= i < |kept| && 0 <= j < |rest| ==> kept[i] != rest[j]
    ensures NoDup(kept)
  {
    var all, less := kept + ([cur] + rest), kept + rest;
    forall i, j | 0 <= i < j < |less|
      ensures less[i] != less[j]
    {
      assert less[i] == all[if i < |kept| then i else i + 1] && less[j] == all[if j < |kept| then j else j + 1];
    }
    forall i, j | 0 <= i < |kept| && 0 <= j < |rest|
      ensures kept[i] != rest[j]
    {
      assert less[i] == kept[i] && less[|kept| + j] == rest[j];
    }
    forall i, j | 0 <= i < j < |kept|
      ensures kept[i] != kept[j]
    {
      assert less[i] == kept[i] && less[j] == kept[j];
    }
  }

  /** The list means what its last text said. */
  ghost predicate TextTrue(rs: seq<Rec>, text: Option<string>) {
    text.Some? ==> forall x :: Live(rs, x) <==> x in Names(text.value)
  }

  lemma ChainPush(added: SlaveInfo, first: SlaveInfo?, nodes: seq<SlaveInfo>)
    requires Chain(first, nodes) && added !in nodes && added.next == first
    ensures Chain(added, [added] + nodes) && Values([added] + nodes) == [added.Value()] + Values(nodes)
  {
    hide Values;
    var more := [added] + nodes;
    forall i | 0 <= i < |more|
      ensures more[i].next == At(more, i + 1)
    {
      if i > 0 {
        assert more[i] == nodes[i - 1] && nodes[i - 1].next == At(nodes, i);
      }
    }
  }

  class BondingInfo {
    var slave: SlaveInfo?
    var slavesCount: int
    var text: Option<string>
    var change: bool
    ghost var nodes: seq<SlaveInfo>

    ghost predicate Valid()
      reads this, nodes
    {
      Chain(slave, nodes) && slavesCount == |nodes| && Distinct(Values(nodes)) && TextTrue(Values(nodes), text)
    }

    constructor ()
      ensures Valid() && nodes == [] && text.None?
    {
      slave, slavesCount, text, change, nodes := null, 0, None, true, [];
    }

    /** One slave is marked, or wanted again. */
    method SetMark(cur: SlaveInfo, ghost k: nat, deleted: bool)
      requires Chain(slave, nodes) && k < |nodes| && nodes[k] == cur
      modifies cur`deleted
      ensures Chain(slave, nodes)
              && Values(nodes) == old(Values(nodes))[k := old(Values(nodes))[k].(deleted := deleted)]
    {
      hide Values;
      cur.deleted := deleted;
    }

    /** Every slave is marked. */
    method MarkAll()
      requires Chain(slave, nodes)
      modifies nodes
      ensures Chain(slave, nodes) && Values(nodes) == Marked(old(Values(nodes)))
    {
      hide Values;
      ghost var rs := Values(nodes);
      ghost var k := 0;
      var cur := slave;
      while cur != null
        invariant k <= |nodes| && cur == At(nodes, k) && Chain(slave, nodes)
        invariant |rs| == |nodes|
        invariant forall i :: 0 <= i < |rs| ==> Values(nodes)[i] == if i < k then rs[i].(deleted := true) else rs[i]
        decreases |nodes| - k
      {
        SetMark(cur, k, true);
        cur := cur.next;
        k := k + 1;
      }
    }

    /** snsd_need_new_slave: a slave of that name is wanted again; only if there is none, a new one is needed. */
    method NeedNewSlave(name: string) returns (need: bool)
      requires Chain(slave, nodes)
      modifies nodes
      ensures Chain(slave, nodes)
      ensures var rs := old(Values(nodes));
        var i := Find(rs, name);
        && need == (i == |rs|)
        && Values(nodes) == if need then rs else rs[i := rs[i].(deleted := false)]
    {
      hide Values;
      ghost var rs := Values(nodes);
      ghost var k := 0;
      var cur := slave;
      while cur != null
        invariant k <= |nodes| && cur == At(nodes, k) && Chain(slave, nodes)
        invariant Values(nodes) == rs && forall i :: 0 <= i < k ==> rs[i].name != name
        decreases |nodes| - k
      {
        if cur.name == name {
          FoundAt(rs, name, k);
          SetMark(cur, k, false);
          return false;
        }
        cur := cur.next;
        k := k + 1;
      }
      FoundAt(rs, name, k);
      return true;
    }

    /** snsd_create_slave */
    method CreateSlave(name: string, ifindex: int) returns (ok: bool)
      requires Chain(slave, nodes) && slavesCount == |nodes|
      modifies this`slave, this`slavesCount, this`nodes
      ensures Chain(slave, nodes) && slavesCount == |nodes|
      ensures (Values(nodes), ok) == Created(old(Values(nodes)), name, ifindex)
      ensures forall i :: 0 <= i < |nodes| ==> nodes[i] in old(nodes) || fresh(nodes[i])
    {
      if |name| >= IFNAMSIZ || ifindex < 0 {
        return false;
      }
      hide Values, Chain, NoDup, Leads;
      ghost var were := nodes;
      var added := new SlaveInfo(name, ifindex, slave);
      assert added !in were && Values(were) == old(Values(nodes));
      ChainPush(added, slave, were);
      slave := added;
      slavesCount := slavesCount + 1;
      nodes := [added] + were;
      ok := true;
      assert Values(nodes) == [added.Value()] + old(Values(nodes));
    }

    /** The names of a text, one by one. */
    method WantAll(names: seq<string>, ifindexOf: string -> int) returns (ok: bool)
      requires Chain(slave, nodes) && slavesCount == |nodes|
      modifies this`slave, this`slavesCount, this`nodes, nodes
      ensures Chain(slave, nodes) && slavesCount == |nodes|
      ensures (Values(nodes), ok) == Wanted(old(Values(nodes)), names, ifindexOf)
      ensures forall i :: 0 <= i < |nodes| ==> nodes[i] in old(nodes) || fresh(nodes[i])
    {
      hide Values, Chain, Find, Created;
      ghost var rs := Values(nodes);
      for i := 0 to |names|
        invariant Chain(slave, nodes) && slavesCount == |nodes|
        invariant Wanted(Values(nodes), names[i..], ifindexOf) == Wanted(rs, names, ifindexOf)
        invariant forall k :: 0 <= k < |nodes| ==> nodes[k] in old(nodes) || fresh(nodes[k])
      {
        assert names[i..][1..] == names[i + 1..];
        ghost var now := Values(nodes);
        var need := NeedNewSlave(names[i]);
        if need {
          var made := CreateSlave(names[i], ifindexOf(names[i]));
          if !made {
            CreatedNot(now, names[i], ifindexOf(names[i]));
            return false;
          }
        }
      }
      ok := true;
    }

    /**
    snsd_verify_slave: nothing to do for the text that the list already means; otherwise the
    marks and the records follow the new text. After a failure no text is remembered, so the
    next call starts over.
    */
    method VerifySlave(slaves: array<char>, t: string, ifindexOf: string -> int) returns (ok: bool)
      requires Valid() && IsCString(t) && slaves[..] == t + ['\0']
      modifies this, nodes, slaves
      ensures Valid()
      ensures ok ==> forall x :: Live(Values(nodes), x) <==> x in Names(t)
      ensures if old(slave) != null && old(text) == Some(t)
              then ok && nodes == old(nodes) && Values(nodes) == old(Values(nodes))
              else (Values(nodes), ok) == Verified(old(Values(nodes)), Names(t), ifindexOf)
                   && text == (if ok then Some(t) else None) && change
    {
      hide Values, Chain, Distinct, Live, Names, Verified;
      if slave != null && text == Some(t) {
        return true;
      }
      VerifiedMeans(Values(nodes), Names(t), ifindexOf);
      ok := FollowText(slaves, t, ifindexOf);
    }

    method FollowText(slaves: array<char>, t: string, ifindexOf: string -> int) returns (ok: bool)
      requires Chain(slave, nodes) && slavesCount == |nodes| && IsCString(t) && slaves[..] == t + ['\0']
      modifies this, nodes, slaves
      ensures Chain(slave, nodes) && slavesCount == |nodes|
      ensures (Values(nodes), ok) == Verified(old(Values(nodes)), Names(t), ifindexOf)
      ensures text == (if ok then Some(t) else None) && change
    {
      hide Values, Chain, Names, Verified, Wanted, Count, CString, IsCString, Marked;
      ghost var rs := Values(nodes);
      change := true;
      MarkAll();
      text := Some(t);
      var names := NamesOf(slaves, t);
      VerifiedIs(rs, names, ifindexOf);
      ok := WantAll(names, ifindexOf);
      if !ok {
        text := None;
      }
    }

    /** The node after `prev`, or after the head, is taken out of the chain. */
    method Unlink(prev: SlaveInfo?, cur: SlaveInfo, ghost kept: seq<SlaveInfo>, ghost rest: seq<SlaveInfo>)
      requires Chain(slave, kept + ([cur] + rest)) && prev == Last(kept)
      modifies this`slave, this`slavesCount, this`nodes, if prev == null then {} else {prev}
      ensures Chain(slave, kept + rest) && nodes == kept + rest && slavesCount == old(slavesCount) - 1
      ensures Values(kept) == old(Values(kept)) && Values(rest) == old(Values(rest))
    {
      hide Values, NoDup, Leads;
      CutNoDup(kept, cur, rest);
      LeadsSplit(kept, [cur] + rest, null);
      LeadsSplit([cur], rest, null);
      LeadsOne(cur, At(rest, 0));
      if prev == null {
        slave := cur.next;
      } else {
        prev.Redirect(cur.next, kept, cur);
      }
      slavesCount := slavesCount - 1;
      nodes := kept + rest;
      LeadsJoin(kept, rest, null);
    }

    /** What happens to one slave that stays: it gets a socket if it has none. */
    method Supply(cur: SlaveInfo, sockFor: string -> Option<Sock>) returns (ok: bool)
      modifies cur`fdIndex, cur`fd, cur`valid
      ensures ok == (old(cur.valid) || sockFor(cur.name).Some?)
      ensures cur.Value() == if old(cur.valid) || !ok then old(cur.Value())
              else Acquired(old(cur.Value()), sockFor(cur.name).value)
    {
      if cur.valid {
        return true;
      }
      match sockFor(cur.name) {
        case None =>
          return false;
        case Some(sock) =>
          cur.fdIndex := sock.fdIndex;
          cur.fd := sock.fd;
          cur.valid := true;
          return true;
      }
    }

    /** In the middle of a sweep over the nodes `all`: `kept` are behind the cursor, the rest before it. */
    ghost predicate Sweeping(all: seq<SlaveInfo>, k: nat, kept: seq<SlaveInfo>, prev: SlaveInfo?, goal: Outcome,
                             released: seq<nat>, sockFor: string -> Option<Sock>)
      reads this, nodes, all, kept
    {
      && k <= |all| && nodes == kept + all[k..] && Chain(slave, nodes) && slavesCount == |nodes|
      && prev == Last(kept) && (forall i :: 0 <= i < |kept| ==> kept[i] in all)
      && Joined(Values(kept), released, Swept(Values(all[k..]), sockFor)) == goal
    }

    /** A marked slave leaves the list, and its socket is put back. */
    method StepOut(prev: SlaveInfo?, cur: SlaveInfo, released: seq<nat>, ghost all: seq<SlaveInfo>, ghost k: nat,
                   ghost kept: seq<SlaveInfo>, ghost goal: Outcome, ghost sockFor: string -> Option<Sock>)
      returns (more: seq<nat>)
      requires Sweeping(all, k, kept, prev, goal, released, sockFor) && k < |all| && all[k] == cur && cur.deleted
      modifies this`slave, this`slavesCount, this`nodes, all
      ensures Sweeping(all, k + 1, kept, prev, goal, more, sockFor)
    {
      hide Values, Chain, Swept, Joined;
      ghost var rest := all[k + 1..];
      assert all[k..] == [cur] + rest;
      assert prev != null ==> prev in all;
      ValuesCons(cur, rest);
      JoinedOut(Values(kept), released, cur.Value(), Values(rest), sockFor);
      more := released + if cur.valid then [cur.fdIndex] else [];
      Unlink(prev, cur, kept, rest);
    }

    /** What happens to the current slave changes nothing around it. */
    method SupplyWithin(cur: SlaveInfo, sockFor: string -> Option<Sock>, ghost kept: seq<SlaveInfo>,
                        ghost rest: seq<SlaveInfo>)
      returns (ok: bool)
      requires nodes == kept + ([cur] + rest) && Chain(slave, nodes)
      modifies cur
      ensures Chain(slave, nodes) && Values(kept) == old(Values(kept)) && Values(rest) == old(Values(rest))
      ensures ok == (old(cur.valid) || sockFor(cur.name).Some?)
      ensures cur.Value() == if old(cur.valid) || !ok then old(cur.Value())
              else Acquired(old(cur.Value()), sockFor(cur.name).value)
    {
      hide Values;
      CurrentApart(kept, cur, rest);
      ok := Supply(cur, sockFor);
    }

    /** Another slave stays, with a socket if there is one for it. */
    method StepKeep(prev: SlaveInfo?, cur: SlaveInfo, ghost released: seq<nat>, ghost all: seq<SlaveInfo>, ghost k: nat,
                    ghost kept: seq<SlaveInfo>, ghost goal: Outcome, sockFor: string -> Option<Sock>)
      returns (ok: bool)
      requires Sweeping(all, k, kept, prev, goal, released, sockFor) && k < |all| && all[k] == cur && !cur.deleted
      modifies all
      ensures ok ==> Sweeping(all, k + 1, kept + [cur], cur, goal, released, sockFor)
      ensures !ok ==> Outcome(Values(nodes), released, false) == goal && Chain(slave, nodes) && slavesCount == |nodes|
    {
      hide Values, Chain, Swept, Joined, Acquired;
      ghost var rest, was := all[k + 1..], cur.Value();
      assert all[k..] == [cur] + rest;
      ValuesCons(cur, rest);
      assert !was.deleted && was.valid == cur.valid && was.name == cur.name;
      hide SlaveInfo.Value;
      ok := SupplyWithin(cur, sockFor, kept, rest);
      JoinedKeep(Values(kept), released, was, Values(rest), sockFor);
      ValuesCons(cur, rest);
      if ok {
        ValuesSnoc(kept, cur);
        assert kept + [cur] + rest == kept + ([cur] + rest);
      } else {
        ValuesJoin(kept, [cur] + rest);
      }
    }

    /**
    switch_get_bonding_fd: one pass with a pointer to the link that leads to the current
    slave. Sockets come from `sockFor`; those put back are listed in `released`.
    */
    method GetBondingFd(sockFor: string -> Option<Sock>) returns (ok: bool, released: seq<nat>)
      requires Valid()
      modifies this, nodes
      ensures Valid() && text == old(text)
      ensures Outcome(Values(nodes), released, ok) == Swept(old(Values(nodes)), sockFor)
      ensures change == (old(change) && !ok)
    {
      hide Values, Chain, Distinct, Live, Names, Swept, Sweeping;
      ghost var all, rs, goal := nodes, Values(nodes), Swept(Values(nodes), sockFor);
      ghost var k := 0;
      ghost var kept: seq<SlaveInfo> := [];
      released := [];
      var prev: SlaveInfo?, cur := null, slave;
      SweptKeepsTruth(rs, sockFor, text);
      SweepStart(goal, sockFor);
      while cur != null
        invariant Sweeping(all, k, kept, prev, goal, released, sockFor)
        invariant k <= |all| && cur == At(all, k) && text == old(text) && change == old(change)
        decreases |all| - k
      {
        NextInSweep(all, k, kept, prev, goal, released, sockFor);
        var slaveNext := cur.next;
        if cur.deleted {
          released := StepOut(prev, cur, released, all, k, kept, goal, sockFor);
        } else {
          var supplied := StepKeep(prev, cur, released, all, k, kept, goal, sockFor);
          if !supplied {
            return false, released;
          }
          kept := kept + [cur];
          prev := cur;
        }
        cur := slaveNext;
        k := k + 1;
      }
      SweepEnd(all, kept, prev, goal, released, sockFor);
      change := false;
      ok := true;
    }

    lemma SweepStart(goal: Outcome, sockFor: string -> Option<Sock>)
      requires Valid() && goal == Swept(Values(nodes), sockFor)
      ensures slave == At(nodes, 0) && Sweeping(nodes, 0, [], null, goal, [], sockFor)
    {
      hide Swept, Distinct;
      assert nodes[0..] == nodes && [] + nodes == nodes;
    }

    lemma NextInSweep(all: seq<SlaveInfo>, k: nat, kept: seq<SlaveInfo>, prev: SlaveInfo?, goal: Outcome,
                      released: seq<nat>, sockFor: string -> Option<Sock>)
      requires Sweeping(all, k, kept, prev, goal, released, sockFor) && k < |all|
      ensures all[k].next == At(all, k + 1)
    {
      assert nodes[|kept|] == all[k];
      assert k + 1 < |all| ==> nodes[|kept| + 1] == all[k + 1];
    }

    lemma SweepEnd(all: seq<SlaveInfo>, kept: seq<SlaveInfo>, prev: SlaveInfo?, goal: Outcome,
                   released: seq<nat>, sockFor: string -> Option<Sock>)
      requires Sweeping(all, |all|, kept, prev, goal, released, sockFor)
      ensures Outcome(Values(nodes), released, true) == goal && Chain(slave, nodes) && slavesCount == |nodes|
    {
      assert all[|all|..] == [] && kept + [] == kept;
      assert Values(kept) + [] == Values(kept) && released + [] == released;
    }
  }

  lemma ValuesCons(cur: SlaveInfo, rest: seq<SlaveInfo>)
    ensures Values([cur] + rest) == [cur.Value()] + Values(rest)
  {
    hide Values;
  }

  lemma ValuesSnoc(kept: seq<SlaveInfo>, cur: SlaveInfo)
    ensures Values(kept + [cur]) == Values(kept) + [cur.Value()]
  {
    hide Values;
  }

  lemma ValuesJoin(kept: seq<SlaveInfo>, rest: seq<SlaveInfo>)
    ensures Values(kept + rest) == Values(kept) + Values(rest)
  {
    hide Values;
  }

  lemma CurrentApart(kept: seq<SlaveInfo>, cur: SlaveInfo, rest: seq<SlaveInfo>)
    requires NoDup(kept + ([cur] + rest))
    ensures (forall i :: 0 <= i < |kept| ==> kept[i] != cur) && (forall i :: 0 <= i < |rest| ==> rest[i] != cur)
  {
    var all := kept + ([cur] + rest);
    forall i | 0 <= i < |kept|
      ensures kept[i] != cur
    {
      assert all[i] != all[|kept|];
    }
    forall i | 0 <= i < |rest|
      ensures rest[i] != cur
    {
      assert all[|kept|] != all[|kept| + 1 + i];
    }
  }

  lemma JoinedOut(kept: seq<Rec>, released: seq<nat>, r: Rec, rest: seq<Rec>, sockFor: string -> Option<Sock>)
    requires r.deleted
    ensures Joined(kept, released, Swept([r] + rest, sockFor))
         == Joined(kept, released + (if r.valid then [r.fdIndex] else []), Swept(rest, sockFor))
  {
    assert ([r] + rest)[1..] == rest;
  }

  lemma JoinedKeep(kept: seq<Rec>, released: seq<nat>, r: Rec, rest: seq<Rec>, sockFor: string -> Option<Sock>)
    requires !r.deleted
    ensures Joined(kept, released, Swept([r] + rest, sockFor)) ==
            if r.valid then Joined(kept + [r], released, Swept(rest, sockFor))
            else match sockFor(r.name)
                 case None => Outcome(kept + ([r] + rest), released, false)
                 case Some(sock) => Joined(kept + [Acquired(r, sock)], released, Swept(rest, sockFor))
  {
    assert ([r] + rest)[1..] == rest;
    assert released + [] == released;
  }

  lemma SweptKeepsTruth(rs: seq<Rec>, sockFor: string -> Option<Sock>, text: Option<string>)
    requires Distinct(rs) && TextTrue(rs, text)
    ensures Distinct(Swept(rs, sockFor).slaves) && TextTrue(Swept(rs, sockFor).slaves, text)
  {
    hide Distinct, Live, Names, Swept;
    SweptNames(rs, sockFor, "");
    forall x
      ensures Live(Swept(rs, sockFor).slaves, x) <==> Live(rs, x)
    {
      SweptNames(rs, sockFor, x);
    }
  }

  function Last(nodes: seq<SlaveInfo>): SlaveInfo? {
    if nodes == [] then null else nodes[|nodes| - 1]
  }

  function Joined(kept: seq<Rec>, released: seq<nat>, o: Outcome): Outcome {
    Outcome(kept + o.slaves, released + o.released, o.ok)
  }

  /** The names, read from the buffer once it is cut up. */
  method NamesOf(slaves: array<char>, ghost t: string) returns (names: seq<string>)
    requires IsCString(t) && slaves[..] == t + ['\0']
    modifies slaves
    ensures names == Names(t)
  {
    NamesAre(t);
    hide CString, Names, Count;
    var count, offsets := SeparateSlaves(slaves, t);
    names := [];
    for i := 0 to count
      invariant names == Names(t)[..i]
    {
      names := names + [CString(slaves[..], offsets[i])];
    }
  }

  lemma VerifiedIs(rs: seq<Rec>, names: seq<string>, ifindexOf: string -> int)
    ensures Verified(rs, names, ifindexOf) == Wanted(Marked(rs), names, ifindexOf)
  {
  }

  lemma CreatedNot(rs: seq<Rec>, name: string, ifindex: int)
    requires !Created(rs, name, ifindex).1
    ensures Created(rs, name, ifindex).0 == rs
  {
  }

  lemma FoundAt(rs: seq<Rec>, name: string, k: nat)
    requires k <= |rs| && (forall i :: 0 <= i < k ==> rs[i].name != name) && (k < |rs| ==> rs[k].name == name)
    ensures Find(rs, name) == k
  {
  }
}

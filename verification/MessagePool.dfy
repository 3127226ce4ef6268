/**
The queue between the receiving thread and the dispatching thread: a fixed stock of nodes
that travel between a free list and an active list under one lock.
*/
module MessagePool {
  import opened Bytes
  import opened Limits
  import opened NotifyCodec
  import opened Collections

  const MAX_MSG_NUM := 1000

  // ---------- What a message asks for ----------

  const HOST_INACTIVE := 0
  const HOST_ACTIVE := 1
  const CHANGE_ZONE := 4
  const CHANGE_IP := 5
  const LLDP_AGE_OUT := 6

  datatype Call = Call(on: bool, family: nat, host: Ip, target: Ip, nqn: seq<Octet>,
                       protocol: Octet, port: nat, forced: bool)

  function Padded4(s: seq<Octet>): Ip
    requires |s| == 4
  {
    s + Zeros(12)
  }

  /** The octets before the first zero. */
  function CString(s: seq<Octet>): (r: seq<Octet>)
    ensures |r| <= |s|
  {
    if s == [] || s[0] == 0 then [] else [s[0]] + CString(s[1..])
  }

  /** snsd_connect_change: the call made for a message whose state octet is 0 or 1. */
  function CallOf(m: Msg): Call
    requires Shaped(m)
  {
    var v4 := m.family == AF_INET;
    var on := m.state % 256 == HOST_ACTIVE;
    Call(on, m.family,
         if v4 then Padded4(m.ip[10..14]) else m.ip[22..38],
         if v4 then Padded4(m.ip[3..7]) else m.ip[3..19],
         CString(m.ad[7..7 + NQN_MAX_LEN - 1]), m.ad[1], Pair(m.ad[5], m.ad[4]),
         !on && (m.reason == CHANGE_ZONE || m.reason == CHANGE_IP || m.reason == LLDP_AGE_OUT))
  }

  predicate Asks(m: Msg) {
    m.state % 256 == HOST_ACTIVE || m.state % 256 == HOST_INACTIVE
  }

  /** The calls that messages lead to, in their order; a message with another state octet is ignored. */
  function Calls(ms: seq<Msg>): seq<Call>
    requires forall m :: m in ms ==> Shaped(m)
  {
    if ms == [] then []
    else (if Asks(ms[0]) then [CallOf(ms[0])] else []) + Calls(ms[1..])
  }

  lemma CallsNone()
    ensures Calls([]) == []
  {
  }

  lemma {:induction false} CallsAppend(a: seq<Msg>, b: seq<Msg>)
    requires (forall m :: m in a ==> Shaped(m)) && forall m :: m in b ==> Shaped(m)
    ensures (forall m :: m in a + b ==> Shaped(m)) && Calls(a + b) == Calls(a) + Calls(b)
    decreases |a|
  {
    hide CallOf, Calls, Shaped, Asks;
    if a == [] {
      CallsNone();
      assert a + b == b;
    } else {
      assert (a + b)[1..] == a[1..] + b && (a + b)[0] == a[0];
      CallsAppend(a[1..], b);
      CallsStep(a);
      CallsStep(a + b);
    }
  }

  /** The call made for a complete message, in terms of the elements of the packet. */
  ghost predicate Says(ver: nat, xs: seq<Sub>, m: Msg, c: Call)
    requires Shaped(m) && AllGiven(ver, xs, m)
  {
    var src, dst := Last(ver, xs, SrcTag(m)).value, Last(ver, xs, DstTag(m)).value;
    var state, reason := FromBe(Last(ver, xs, STATE).value), FromBe(Last(ver, xs, REASON).value);
    && c.target == src + Zeros(16 - |src|) && c.host == dst + Zeros(16 - |dst|)
    && c.family == (if m.bitmap == COMPLETE4 then AF_INET else AF_INET6)
    && (Asks(m) <==> state % 256 <= 1) && (c.on <==> state % 256 == 1)
    && (c.forced <==> !c.on && 4 <= reason <= 6)
  }

  lemma Padding(s: seq<Octet>)
    requires |s| == 16
    ensures s + Zeros(16 - |s|) == s
  {
  }

  /**
  A complete message leads to a call for the addresses, the state and the reason that its
  elements gave last, whatever other elements surround them.
  */
  lemma CallSays(ver: nat, v: seq<Octet>)
    requires Complete(Parse(ver, v))
    ensures var m, xs := Parse(ver, v), Subs(v); AllGiven(ver, xs, m) && Says(ver, xs, m, CallOf(m))
  {
    hide Decode, LastLegal, Tlv, CString, FromBe, Subs, Seen;
    var m, xs := Parse(ver, v), Subs(v);
    CompleteGiven(ver, xs);
    CompleteExact(ver, xs);
    LastFieldsWin(ver, xs);
    var src, dst := Last(ver, xs, SrcTag(m)).value, Last(ver, xs, DstTag(m)).value;
    if m.bitmap == COMPLETE4 {
      LastPair4Wins(ver, xs);
      TlvValue(SRC4, src, m.ip, 0);
      TlvValue(DST4, dst, m.ip, 7);
    } else {
      LastPair6Wins(ver, xs);
      TlvValue(SRC6, src, m.ip, 0);
      TlvValue(DST6, dst, m.ip, 19);
      Padding(src);
      Padding(dst);
    }
  }

  /**
  Its port is that of the last additional information that reaches past the port if and only if
  an even number of shorter ones followed that, or its octets are equal; otherwise it has the two
  octets the wrong way round. (None of five octets followed; `PortExact` has that case too.)
  */
  lemma CallPort(ver: nat, v: seq<Octet>)
    requires LastLong(ver, Subs(v)).Some? && !LastLong(ver, Subs(v)).value.five
    ensures var t, c := LastLong(ver, Subs(v)).value, CallOf(Parse(ver, v));
      && (c.port == Pair(t.long[4], t.long[5]) <==> !t.odd || t.long[4] == t.long[5])
      && (t.odd ==> c.port == Pair(t.long[5], t.long[4]))
  {
    hide Decode, PortAfter, LastLong, CString, Subs;
    PortExact(ver, Subs(v));
    TailPort(ver, Subs(v));
  }

  /** Its protocol is that of the last additional information of two octets or more. */
  lemma CallProtocol(ver: nat, v: seq<Octet>)
    ensures CallOf(Parse(ver, v)).protocol ==
            match LastReach(ver, Subs(v), 2)
            case None => 0
            case Some(w) => w[1]
  {
    hide Decode, LastReach, CString, Subs;
    AdOctet(ver, Subs(v), 1);
  }

  lemma {:induction false} CStringMeans(s: seq<Octet>, k: nat)
    ensures k < |CString(s)| ==> CString(s)[k] == s[k] != 0
    ensures |CString(s)| < |s| ==> s[|CString(s)|] == 0
    decreases |s|
  {
    if s != [] && s[0] != 0 {
      CStringMeans(s[1..], if k > 0 then k - 1 else 0);
    }
  }

  /** An octet of the additional information: that of the last one long enough, or zero. */
  function AdAt(ver: nat, xs: seq<Sub>, i: nat): Octet {
    match LastReach(ver, xs, i + 1)
    case None => 0
    case Some(w) => w[i]
  }

  /** Its name is what the additional information says from its eighth octet on, up to a zero or 255 octets. */
  lemma CallNqn(ver: nat, v: seq<Octet>, k: nat)
    ensures var nqn := CallOf(Parse(ver, v)).nqn;
      && |nqn| <= 255
      && (k < |nqn| ==> nqn[k] == AdAt(ver, Subs(v), 7 + k) && nqn[k] != 0)
      && (|nqn| < 255 ==> AdAt(ver, Subs(v), 7 + |nqn|) == 0)
  {
    var m := Parse(ver, v);
    var nqn := CallOf(m).nqn;
    hide Decode, Subs, LastReach, CString;
    CStringMeans(m.ad[7..262], k);
    if k < |nqn| {
      AdOctet(ver, Subs(v), 7 + k);
    }
    if |nqn| < 255 {
      AdOctet(ver, Subs(v), 7 + |nqn|);
    }
  }

  // ---------- The pool as a value ----------

  type Node = n: int | 0 <= n < MAX_MSG_NUM

  datatype Pool = Pool(recv: seq<Node>, active: seq<Node>, content: seq<Msg>, issued: seq<Call>)

  /** The nodes are distinct, a thousand between them, and the free ones are blank. */
  ghost predicate Stocked(p: Pool) {
    && |p.content| == MAX_MSG_NUM
    && |p.recv + p.active| == MAX_MSG_NUM && NoDup(p.recv + p.active)
    && (forall n :: 0 <= n < MAX_MSG_NUM ==> Shaped(p.content[n]))
    && (forall i :: 0 <= i < |p.recv| ==> p.content[p.recv[i]] == NewMsg(0))
  }

  function Contents(content: seq<Msg>, nodes: seq<Node>): (r: seq<Msg>)
    requires |content| == MAX_MSG_NUM
    ensures |r| == |nodes| && forall i :: 0 <= i < |r| ==> r[i] == content[nodes[i]]
  {
    if nodes == [] then [] else [content[nodes[0]]] + Contents(content, nodes[1..])
  }

  /** The messages that wait, oldest first. */
  ghost function Queue(p: Pool): (r: seq<Msg>)
    requires Stocked(p)
    ensures |r| == |p.active| && forall m :: m in r ==> Shaped(m)
  {
    hide Shaped;
    Contents(p.content, p.active)
  }

  function Blanked(content: seq<Msg>, nodes: seq<Node>): (r: seq<Msg>)
    requires |content| == MAX_MSG_NUM
    ensures |r| == |content|
    ensures forall n :: 0 <= n < |r| ==> r[n] == content[n] || r[n] == NewMsg(0)
    ensures forall i :: 0 <= i < |nodes| ==> r[nodes[i]] == NewMsg(0)
    ensures forall n :: 0 <= n < |r| && content[n] == NewMsg(0) ==> r[n] == NewMsg(0)
    decreases |nodes|
  {
    if nodes == [] then content else Blanked(content[nodes[0] := NewMsg(0)], nodes[1..])
  }

  function UpTo(n: nat): (r: seq<Node>)
    requires n <= MAX_MSG_NUM
    ensures |r| == n && forall i :: 0 <= i < n ==> r[i] == i
  {
    if n == 0 then [] else UpTo(n - 1) + [n - 1]
  }

  ghost function NewPool(): Pool {
    Pool(UpTo(MAX_MSG_NUM), [], seq(MAX_MSG_NUM, _ => NewMsg(0)), [])
  }

  /** snsd_post_one_msg: what a client announces is taken without being queued. */
  ghost function Posted(p: Pool, m: Msg): (r: (Pool, int))
    requires Stocked(p) && Shaped(m)
  {
    if m.ad[0] == CLIENT then (p, 0)
    else if p.recv == [] then (p, -1)
    else (p.(recv := p.recv[1..], active := p.active + [p.recv[0]], content := p.content[p.recv[0] := m]), 0)
  }

  /** snsd_msg_dispatch: everything queued is acted on, and all nodes go back. */
  ghost function Dispatched(p: Pool): Pool
    requires Stocked(p)
  {
    p.(recv := p.recv + p.active, active := [], content := Blanked(p.content, p.active),
       issued := p.issued + Calls(Queue(p)))
  }

  // ---------- Conservation ----------

  lemma NewPoolStocked()
    ensures Stocked(NewPool())
  {
    hide UpTo;
    var p := NewPool();
    assert p.recv + p.active == p.recv;
  }

  lemma Rotated(s: seq<Node>)
    requires NoDup(s) && s != []
    ensures NoDup(s[1..] + [s[0]])
  {
  }

  lemma PostContents(content: seq<Msg>, active: seq<Node>, k: Node, m: Msg)
    requires |content| == MAX_MSG_NUM && k !in active
    ensures Contents(content[k := m], active + [k]) == Contents(content, active) + [m]
  {
    hide Contents;
    forall i | 0 <= i < |active|
      ensures active[i] != k
    {
      assert active[i] in active;
    }
  }

  /** Posting takes one node, fills it, and leaves the queue before it as it was. */
  lemma PostKeeps(p: Pool, m: Msg)
    requires Stocked(p) && Shaped(m)
    ensures var (q, result) := Posted(p, m);
      && Stocked(q)
      && Queue(q) == Queue(p) + (if result == 0 && m.ad[0] != CLIENT then [m] else [])
      && q.issued == p.issued
  {
    var queued := m.ad[0] != CLIENT && p.recv != [];
    hide Shaped, Contents;
    if queued {
      var k, q := p.recv[0], Posted(p, m).0;
      var all := p.recv + p.active;
      assert all[1..] + [all[0]] == q.recv + q.active;
      Rotated(all);
      forall i | 0 <= i < |p.active|
        ensures p.active[i] != k
      {
        assert all[|p.recv| + i] != all[0];
      }
      forall i | 0 <= i < |q.recv|
        ensures q.content[q.recv[i]] == NewMsg(0)
      {
        assert q.recv[i] == all[i + 1] != all[0];
      }
      PostContents(p.content, p.active, k, m);
    }
  }

  /** Dispatching empties the queue; every node is free and blank again. */
  lemma DispatchKeeps(p: Pool)
    requires Stocked(p)
    ensures Stocked(Dispatched(p)) && Queue(Dispatched(p)) == [] && |Dispatched(p).recv| == MAX_MSG_NUM
  {
    hide Contents, Blanked, CallOf;
    var q := Dispatched(p);
    assert q.recv + q.active == p.recv + p.active;
    NewMsgShaped();
    hide Shaped;
  }

  lemma NewMsgShaped()
    ensures Shaped(NewMsg(0))
  {
  }

  /** Distinct numbers below n, n of them, are all of them. */
  lemma {:induction false} Pigeonhole(s: seq<Node>, n: nat, k: Node)
    requires NoDup(s) && |s| == n && k < n && forall i :: 0 <= i < n ==> s[i] < n
    ensures k in s
    decreases n
  {
    if n - 1 in s {
      var j :| 0 <= j < n && s[j] == n - 1;
      if k != n - 1 {
        Pigeonhole(s[..j] + s[j + 1..], n - 1, k);
      }
    } else {
      // n numbers below n - 1: the first n - 1 of them already hold the last one.
      forall i | 0 <= i < n - 1
        ensures s[i] < n - 1
      {
        assert s[i] in s;
      }
      assert s[n - 1] in s;
      Pigeonhole(s[..n - 1], n - 1, s[n - 1]);
      assert false;
    }
  }

  /** No node is ever lost or doubled: each of the thousand is free or active, and not both. */
  lemma EveryNode(p: Pool, k: Node)
    requires Stocked(p)
    ensures k in p.recv <==> k !in p.active
  {
    hide Shaped;
    var all := p.recv + p.active;
    Pigeonhole(all, MAX_MSG_NUM, k);
    forall i, j | 0 <= i < |p.recv| && 0 <= j < |p.active|
      ensures p.recv[i] != p.active[j]
    {
      assert all[i] != all[|p.recv| + j];
    }
  }

  /** A post is refused only for want of a node, that is, when a thousand messages wait. */
  lemma RefusedOnlyWhenFull(p: Pool, m: Msg)
    requires Stocked(p) && Shaped(m)
    ensures Posted(p, m).1 == 0 || Posted(p, m).1 == -1
    ensures Posted(p, m).1 == -1 <==> m.ad[0] != CLIENT && |p.active| == MAX_MSG_NUM
  {
    hide Shaped;
  }

  // ---------- Every interleaving ----------

  datatype Turn = Post(msg: Msg) | Dispatch

  ghost predicate TurnsShaped(turns: seq<Turn>) {
    forall i :: 0 <= i < |turns| && turns[i].Post? ==> Shaped(turns[i].msg)
  }

  ghost function Next(p: Pool, t: Turn): (r: Pool)
    requires Stocked(p) && (t.Post? ==> Shaped(t.msg))
    ensures Stocked(r)
  {
    match t
    case Post(m) => PostKeeps(p, m); Posted(p, m).0
    case Dispatch => DispatchKeeps(p); Dispatched(p)
  }

  /** The pool after turns of the two threads, in whatever order they get the lock. */
  ghost function RunFrom(p: Pool, turns: seq<Turn>): (r: Pool)
    requires Stocked(p) && TurnsShaped(turns)
    ensures Stocked(r)
  {
    if turns == [] then p else Next(RunFrom(p, turns[..|turns| - 1]), turns[|turns| - 1])
  }

  /** The results of the posts, in their order. */
  ghost function Results(p: Pool, turns: seq<Turn>): seq<bool>
    requires Stocked(p) && TurnsShaped(turns)
  {
    if turns == [] then []
    else
      var init, t := turns[..|turns| - 1], turns[|turns| - 1];
      Results(p, init) + (if t.Post? then [Posted(RunFrom(p, init), t.msg).1 == 0] else [])
  }

  /** The messages posted, taken or not. */
  ghost function Posts(turns: seq<Turn>): seq<Msg> {
    if turns == [] then []
    else Posts(turns[..|turns| - 1]) + (if turns[|turns| - 1].Post? then [turns[|turns| - 1].msg] else [])
  }

  /** The messages that were taken into the queue, in the order of their posts. */
  ghost function Taken(p: Pool, turns: seq<Turn>): (r: seq<Msg>)
    requires Stocked(p) && TurnsShaped(turns)
    ensures forall m :: m in r ==> Shaped(m)
  {
    if turns == [] then []
    else
      var init, t := turns[..|turns| - 1], turns[|turns| - 1];
      Taken(p, init)
      + (if t.Post? && t.msg.ad[0] != CLIENT && Posted(RunFrom(p, init), t.msg).1 == 0 then [t.msg] else [])
  }

  lemma {:induction false} FirstInFirstOutFrom(p: Pool, turns: seq<Turn>)
    requires Stocked(p) && TurnsShaped(turns)
    ensures var r := RunFrom(p, turns);
      r.issued + Calls(Queue(r)) == p.issued + Calls(Queue(p)) + Calls(Taken(p, turns))
    decreases |turns|
  {
    hide CallOf, Queue, Posted, Stocked, Calls;
    if turns == [] {
      NothingTaken(p);
      assert p.issued + Calls(Queue(p)) + [] == p.issued + Calls(Queue(p));
    } else {
      var init, t := turns[..|turns| - 1], turns[|turns| - 1];
      FirstInFirstOutFrom(p, init);
      var q, was := RunFrom(p, init), p.issued + Calls(Queue(p));
      if t.Post? {
        var more := if t.msg.ad[0] != CLIENT && Posted(q, t.msg).1 == 0 then [t.msg] else [];
        PostCalls(q, t.msg);
        CallsAppend(Taken(p, init), more);
        assert Taken(p, turns) == Taken(p, init) + more;
        Assoc(q.issued, Calls(Queue(q)), Calls(more));
        Assoc(was, Calls(Taken(p, init)), Calls(more));
      } else {
        DispatchCalls(q);
        assert Taken(p, turns) == Taken(p, init) + [] == Taken(p, init);
      }
    }
  }

  lemma Assoc<T>(a: seq<T>, b: seq<T>, c: seq<T>)
    ensures (a + b) + c == a + (b + c)
  {
  }

  lemma PostCalls(q: Pool, m: Msg)
    requires Stocked(q) && Shaped(m)
    ensures var r := Posted(q, m).0;
      var more := if m.ad[0] != CLIENT && Posted(q, m).1 == 0 then [m] else [];
      Stocked(r) && r.issued == q.issued && Calls(Queue(r)) == Calls(Queue(q)) + Calls(more)
  {
    PostKeeps(q, m);
    var more := if m.ad[0] != CLIENT && Posted(q, m).1 == 0 then [m] else [];
    hide CallOf, Queue, Posted, Stocked, Calls;
    CallsAppend(Queue(q), more);
  }

  lemma DispatchCalls(q: Pool)
    requires Stocked(q)
    ensures var r := Dispatched(q); Stocked(r) && r.issued + Calls(Queue(r)) == q.issued + Calls(Queue(q))
  {
    DispatchKeeps(q);
    hide CallOf, Queue, Stocked;
  }

  lemma NothingTaken(p: Pool)
    requires Stocked(p)
    ensures RunFrom(p, []) == p && Taken(p, []) == [] && Calls([]) == []
  {
    hide CallOf, Stocked;
  }

  /**
  Whatever the interleaving of posts and dispatches, the calls issued so far followed by
  those still queued are the calls of the messages taken, in the order they were taken.
  */
  lemma FirstInFirstOut(turns: seq<Turn>)
    requires TurnsShaped(turns)
    ensures Stocked(NewPool())
    ensures var p := RunFrom(NewPool(), turns); p.issued + Calls(Queue(p)) == Calls(Taken(NewPool(), turns))
  {
    hide CallOf, Stocked, RunFrom, Taken;
    NewPoolStocked();
    FirstInFirstOutFrom(NewPool(), turns);
  }

  /** After a dispatch every message taken so far has been acted on, once, in order. */
  lemma DispatchCatchesUp(turns: seq<Turn>)
    requires TurnsShaped(turns)
    ensures Stocked(NewPool()) && TurnsShaped(turns + [Dispatch])
    ensures RunFrom(NewPool(), turns + [Dispatch]).issued == Calls(Taken(NewPool(), turns))
  {
    hide CallOf, Queue, Posted, Stocked;
    FirstInFirstOut(turns);
    var all := turns + [Dispatch];
    assert all[..|all| - 1] == turns;
  }

  // ---------- The pool in place ----------

  class MessageQueue {
    var recv: seq<Node>
    var active: seq<Node>
    var content: seq<Msg>
    var issued: seq<Call>

    ghost function Abs(): Pool
      reads this
    {
      Pool(recv, active, content, issued)
    }

    ghost predicate Valid()
      reads this
    {
      Stocked(Abs())
    }

    /** snsd_init_msg_resource */
    constructor ()
      ensures Valid() && Abs() == NewPool()
    {
      var nodes: seq<Node> := [];
      for i := 0 to MAX_MSG_NUM
        invariant nodes == UpTo(i)
      {
        nodes := nodes + [i];
      }
      recv, active, issued := nodes, [], [];
      content := seq(MAX_MSG_NUM, _ => NewMsg(0));
      new;
      assert content == NewPool().content;
      NewPoolStocked();
      hide Stocked, UpTo;
    }

    method PostOneMsg(msg: Msg) returns (result: int)
      requires Valid() && Shaped(msg)
      modifies this
      ensures Valid() && (Abs(), result) == Posted(old(Abs()), msg)
    {
      hide Contents;
      PostKeeps(Abs(), msg);
      hide NoDup;
      if msg.ad[0] == CLIENT {
        return 0;
      }
      if recv != [] {
        var node := recv[0];
        recv := recv[1..];
        content := content[node := msg];
        active := active + [node];
        result := 0;
      } else {
        result := -1;
      }
    }

    method Dispatch()
      requires Valid()
      modifies this
      ensures Valid() && Abs() == Dispatched(old(Abs()))
    {
      hide CallOf, Contents, NoDup, Blanked, Calls, Queue, Shaped, Asks;
      ghost var p := Abs();
      DispatchKeeps(p);
      QueueIs(p);
      ghost var done: nat := 0;
      assert p.active[0..] == p.active && Queue(p)[0..] == Queue(p);
      while active != []
        invariant done <= |p.active| && active == p.active[done..]
        invariant recv == p.recv + p.active[..done]
        invariant |content| == MAX_MSG_NUM
        invariant Blanked(content, active) == Blanked(p.content, p.active)
        invariant Contents(content, active) == Queue(p)[done..]
        invariant issued + Calls(Queue(p)[done..]) == p.issued + Calls(Queue(p))
        decreases |active|
      {
        var node := active[0];
        DispatchStep(p, content, done);
        BlankedStep(content, active);
        CallsStep(Queue(p)[done..]);
        if Asks(content[node]) {
          issued := issued + [CallOf(content[node])];
        }
        active := active[1..];
        content := content[node := NewMsg(0)];
        recv := recv + [node];
        done := done + 1;
      }
      assert p.active[..done] == p.active;
      DispatchEnd(p, content, Queue(p)[done..]);
    }
  }

  lemma DispatchEnd(p: Pool, content: seq<Msg>, rest: seq<Msg>)
    requires Stocked(p) && |content| == MAX_MSG_NUM && rest == []
    ensures Blanked(content, []) == content && Calls(rest) == []
  {
  }

  lemma QueueIs(p: Pool)
    requires Stocked(p)
    ensures Queue(p) == Contents(p.content, p.active)
  {
  }

  lemma ContentsElsewhere(content: seq<Msg>, nodes: seq<Node>, k: Node, m: Msg)
    requires |content| == MAX_MSG_NUM && forall i :: 0 <= i < |nodes| ==> nodes[i] != k
    ensures Contents(content[k := m], nodes) == Contents(content, nodes)
  {
    hide Contents;
  }

  lemma HeadOnce(p: Pool, done: nat)
    requires Stocked(p) && done < |p.active|
    ensures var rest := p.active[done..][1..]; forall i :: 0 <= i < |rest| ==> rest[i] != p.active[done]
  {
    hide Shaped;
    var node, rest := p.active[done], p.active[done..][1..];
    var all := p.recv + p.active;
    forall i | 0 <= i < |rest|
      ensures rest[i] != node
    {
      assert all[|p.recv| + done + 1 + i] != all[|p.recv| + done];
    }
  }

  /** Blanking the node at the head leaves the rest of the queue as it is. */
  lemma DispatchStep(p: Pool, content: seq<Msg>, done: nat)
    requires Stocked(p) && done < |p.active| && |content| == MAX_MSG_NUM
    requires Contents(content, p.active[done..]) == Queue(p)[done..]
    ensures content[p.active[done]] == Queue(p)[done] && Shaped(Queue(p)[done])
    ensures Contents(content[p.active[done] := NewMsg(0)], p.active[done..][1..]) == Queue(p)[done + 1..]
    ensures Queue(p)[done..][1..] == Queue(p)[done + 1..]
  {
    var node, rest := p.active[done], p.active[done..][1..];
    HeadOnce(p, done);
    ContentsElsewhere(content, rest, node, NewMsg(0));
    ContentsHead(content, p.active[done..]);
    hide Shaped, Contents, Queue, Stocked;
    assert Queue(p)[done] in Queue(p);
  }

  lemma ContentsHead(content: seq<Msg>, nodes: seq<Node>)
    requires |content| == MAX_MSG_NUM && nodes != []
    ensures Contents(content, nodes) == [content[nodes[0]]] + Contents(content, nodes[1..])
  {
  }

  lemma BlankedStep(content: seq<Msg>, active: seq<Node>)
    requires |content| == MAX_MSG_NUM && active != []
    ensures Blanked(content[active[0] := NewMsg(0)], active[1..]) == Blanked(content, active)
  {
  }

  lemma CallsStep(ms: seq<Msg>)
    requires ms != [] && forall m :: m in ms ==> Shaped(m)
    ensures Shaped(ms[0]) && Calls(ms) == (if Asks(ms[0]) then [CallOf(ms[0])] else []) + Calls(ms[1..])
  {
    hide CallOf;
  }
}

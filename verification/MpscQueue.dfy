/** The multi-producer single-consumer queue: producers exchange the head and link
    afterwards, the consumer keeps a stub node in the chain. One atomic operation a step. */
module MpscQueue {
  import opened Options

  datatype Node = Stub | User(id: nat)

  type Tid = nat

  /** Between the atomic operations of _M_push_back. */
  datatype Producer =
    | Idle
    | Cleared(node: Node)             // its next is null, the exchange comes
    | Linking(node: Node, prev: Node) // exchanged, the link prev -> node is still to be written

  /** Between the atomic operations of _M_pop_front; `tail` is its local variable. */
  datatype Consumer =
    | Ready
    | SkipStub(next: Node)            // tail was the stub, its next is loaded
    | CheckHead(tail: Node)           // the next of tail was null, the head comes
    | NeedStub(tail: Node)            // tail was the head, the stub must be pushed
    | StubCleared(tail: Node)
    | StubLinking(tail: Node, prev: Node)
    | Relinked(tail: Node)            // the stub is pushed, the next of tail is loaded again

  datatype Outcome = NoPop | Null | Got(node: Node)

  datatype State = State(
    head: Node,
    tail: Node,
    next: map<Node, Node>,            // absent: null
    producers: map<Tid, Producer>,    // absent: Idle
    consumer: Consumer,
    outcome: Outcome,                 // of the last pop that returned
    // history
    chain: seq<Node>,                 // from tail to head, in the order of the exchanges
    order: seq<Node>,                 // all user nodes, in the order of their exchanges
    returned: seq<Node>,              // all nodes that pops have returned
    excused: bool)                    // since the running pop began, Excuse held once

  function Next(s: State, n: Node): Option<Node> {
    if n in s.next then Some(s.next[n]) else None
  }

  function Pc(s: State, t: Tid): Producer {
    if t in s.producers then s.producers[t] else Idle
  }

  function Users(chain: seq<Node>): seq<Node> {
    if chain == [] then []
    else if chain[0] == Stub then Users(chain[1..])
    else [chain[0]] + Users(chain[1..])
  }

  predicate Between(s: State) {
    exists t :: t in s.producers && s.producers[t].Linking?
  }

  /** No user node is queued, or some push is between its exchange and its link. */
  predicate Excuse(s: State) {
    Users(s.chain) == [] || Between(s)
  }

  ghost predicate Init(s: State) {
    s == State(Stub, Stub, map[], map[], Ready, NoPop, [Stub], [], [], false)
  }

  datatype Step = PushClear(t: Tid, node: Node) | PushExchange(t: Tid) | PushLink(t: Tid) | Pop

  predicate Holds(p: Producer, n: Node) {
    (p.Cleared? || p.Linking?) && p.node == n
  }

  /** A caller may push a node that is neither queued nor being pushed. */
  predicate Enabled(s: State, step: Step) {
    match step
    case PushClear(t, node) =>
      && Pc(s, t).Idle? && node.User? && node !in s.chain
      && forall u :: u in s.producers ==> !Holds(s.producers[u], node)
    case PushExchange(t) => Pc(s, t).Cleared?
    case PushLink(t) => Pc(s, t).Linking?
    case Pop => true
  }

  function Noted(s: State): State {
    s.(excused := s.excused || Excuse(s))
  }

  function Do(s: State, step: Step): State
    requires Enabled(s, step)
  {
    match step
    case PushClear(t, node) =>
      Noted(s.(next := s.next - {node}, producers := s.producers[t := Cleared(node)]))
    case PushExchange(t) =>
      var node := s.producers[t].node;
      Noted(s.(head := node, producers := s.producers[t := Linking(node, s.head)],
               chain := s.chain + [node], order := s.order + [node]))
    case PushLink(t) =>
      var Linking(node, prev) := s.producers[t];
      Noted(s.(next := s.next[prev := node], producers := s.producers[t := Idle]))
    case Pop => DoPop(s)
  }

  function Return(s: State, outcome: Outcome): State {
    s.(consumer := Ready, outcome := outcome)
  }

  /** The tail moves on to its loaded successor; if it was a user node, it is returned. */
  function Advance(s: State, next: Node): State {
    s.(tail := next, chain := if s.chain == [] then [] else s.chain[1..])
  }

  function ReturnTail(s: State, next: Node): State {
    Return(Advance(s, next), Got(s.tail)).(returned := s.returned + [s.tail])
  }

  /** The next of the tail is loaded. */
  function BeginPop(s: State): State {
    match Next(s, s.tail)
    case None => if s.tail == Stub then Return(s, Null) else s.(consumer := CheckHead(s.tail))
    case Some(n) => if s.tail == Stub then s.(consumer := SkipStub(n)) else ReturnTail(s, n)
  }

  /** The tail has moved on from the stub to n, and the next of n is loaded. */
  function SkipPop(s: State, n: Node): State {
    match Next(s, n)
    case None => Noted(s.(consumer := CheckHead(n)))
    case Some(m) => Noted(ReturnTail(s, m))
  }

  function DoPop(s: State): State {
    match s.consumer
    case Ready => BeginPop(s.(excused := Excuse(s)))
    case SkipStub(n) => SkipPop(Advance(s, n), n)
    case CheckHead(tail) =>
      if tail != s.head then Noted(Return(s, Null)) else Noted(s.(consumer := NeedStub(tail)))
    case NeedStub(tail) =>
      Noted(s.(next := s.next - {Stub}, consumer := StubCleared(tail)))
    case StubCleared(tail) =>
      Noted(s.(head := Stub, chain := s.chain + [Stub], consumer := StubLinking(tail, s.head)))
    case StubLinking(tail, prev) =>
      Noted(s.(next := s.next[prev := Stub], consumer := Relinked(tail)))
    case Relinked(tail) =>
      (match Next(s, tail)
       case None => Noted(Return(s, Null))
       case Some(n) => Noted(ReturnTail(s, n)))
  }

  // ----- the invariant -----

  /** The link from a to b is exchanged but not yet written. */
  ghost predicate Pending(s: State, a: Node, b: Node) {
    || (s.consumer.StubLinking? && s.consumer.prev == a && b == Stub)
    || exists t :: t in s.producers && s.producers[t] == Linking(b, a)
  }

  ghost predicate LinkAt(s: State, i: int)
    requires 0 <= i < |s.chain| - 1
  {
    Next(s, s.chain[i]) == Some(s.chain[i + 1]) ||
    (Next(s, s.chain[i]) == None && Pending(s, s.chain[i], s.chain[i + 1]))
  }

  ghost predicate Follows(chain: seq<Node>, a: Node, b: Node) {
    exists i :: 0 <= i < |chain| - 1 && chain[i] == a && chain[i + 1] == b
  }

  ghost predicate ChainOk(s: State) {
    && |s.chain| >= 1 && s.chain[0] == s.tail && s.chain[|s.chain| - 1] == s.head
    && (forall i, j :: 0 <= i < j < |s.chain| ==> s.chain[i] != s.chain[j])
    && (forall i :: 0 <= i < |s.chain| - 1 ==> LinkAt(s, i))
    && Next(s, s.head) == None
  }

  ghost predicate ProducerOk(s: State, t: Tid) {
    match Pc(s, t)
    case Idle => true
    case Cleared(n) => n.User? && n !in s.chain && Next(s, n) == None
    case Linking(n, p) => n.User? && Follows(s.chain, p, n) && Next(s, p) == None
  }

  ghost predicate ProducersOk(s: State) {
    && (forall t :: t in s.producers ==> ProducerOk(s, t))
    && (forall t, u :: t in s.producers && u in s.producers && t != u && !s.producers[t].Idle? ==>
          !Holds(s.producers[u], s.producers[t].node))
  }

  ghost predicate ConsumerOk(s: State) {
    match s.consumer
    case Ready => s.outcome == Null ==> s.excused
    case SkipStub(n) => s.tail == Stub && Next(s, Stub) == Some(n)
    case CheckHead(t) => t == s.tail && t != Stub && (|s.chain| == 1 || s.excused)
    case NeedStub(t) => t == s.tail && t != Stub && Stub !in s.chain
    case StubCleared(t) => t == s.tail && t != Stub && Stub !in s.chain && Next(s, Stub) == None
    case StubLinking(t, p) => t == s.tail && t != Stub && Follows(s.chain, p, Stub) && Next(s, p) == None
    case Relinked(t) => t == s.tail && t != Stub && |s.chain| >= 2
  }

  ghost predicate Inv(s: State) {
    && ChainOk(s) && ProducersOk(s) && ConsumerOk(s)
    && s.order == s.returned + Users(s.chain)
  }

  lemma {:induction false} UsersAppend(chain: seq<Node>, n: Node)
    ensures Users(chain + [n]) == Users(chain) + if n == Stub then [] else [n]
  {
    if chain != [] {
      assert (chain + [n])[1..] == chain[1..] + [n];
      UsersAppend(chain[1..], n);
    }
  }

  lemma ClearKeepsInv(s: State, t: Tid, node: Node)
    requires Inv(s) && Enabled(s, PushClear(t, node))
    ensures Inv(Do(s, PushClear(t, node)))
  {
    var s' := Do(s, PushClear(t, node));
    forall i | 0 <= i < |s'.chain| - 1
      ensures LinkAt(s', i)
    {
      assert LinkAt(s, i);
      PendingKept(s, s', t, s.chain[i], s.chain[i + 1]);
    }
    forall u | u in s'.producers
      ensures ProducerOk(s', u)
    {
      if u != t {
        assert ProducerOk(s, u);
      }
    }
  }

  /** A pending link stays pending as long as its own pusher does not take a step. */
  lemma PendingKept(s: State, s': State, t: Tid, a: Node, b: Node)
    requires s.consumer.StubLinking? ==> s'.consumer == s.consumer
    requires forall u :: u in s.producers && u != t ==> u in s'.producers && s'.producers[u] == s.producers[u]
    requires Pc(s, t).Linking? ==> Pc(s', t) == Pc(s, t) || Pc(s, t) != Linking(b, a)
    ensures Pending(s, a, b) ==> Pending(s', a, b)
  {
    if Pending(s, a, b) && !(s.consumer.StubLinking? && s.consumer.prev == a && b == Stub) {
      var u :| u in s.producers && s.producers[u] == Linking(b, a);
      assert u in s'.producers && s'.producers[u] == Linking(b, a);
    }
  }

  lemma ExchangeKeepsChain(s: State, t: Tid)
    requires Inv(s) && Enabled(s, PushExchange(t))
    ensures ChainOk(Do(s, PushExchange(t)))
  {
    var s' := Do(s, PushExchange(t));
    var node := s.producers[t].node;
    assert ProducerOk(s, t);
    var n := |s.chain|;
    assert Linking(node, s.head) == s'.producers[t];
    forall i | 0 <= i < |s'.chain| - 1
      ensures LinkAt(s', i)
    {
      if i < n - 1 {
        assert LinkAt(s, i);
        PendingKept(s, s', t, s.chain[i], s.chain[i + 1]);
      }
    }
  }

  lemma ExchangeKeepsConsumer(s: State, t: Tid)
    requires Inv(s) && Enabled(s, PushExchange(t))
    ensures ConsumerOk(Do(s, PushExchange(t)))
  {
    assert ProducerOk(s, t);
    FollowsAppend(s.chain, s.producers[t].node);
    assert Linking(s.producers[t].node, s.head) == Do(s, PushExchange(t)).producers[t];
  }

  lemma ExchangeKeepsInv(s: State, t: Tid)
    requires Inv(s) && Enabled(s, PushExchange(t))
    ensures Inv(Do(s, PushExchange(t)))
  {
    var s' := Do(s, PushExchange(t));
    assert ProducerOk(s, t);
    ExchangeKeepsChain(s, t);
    ExchangeKeepsConsumer(s, t);
    UsersAppend(s.chain, s.producers[t].node);
    forall u | u in s'.producers
      ensures ProducerOk(s', u)
    {
      ExchangeKeepsProducer(s, t, u);
    }
  }

  lemma ExchangeKeepsProducer(s: State, t: Tid, u: Tid)
    requires Inv(s) && Enabled(s, PushExchange(t)) && u in s.producers
    ensures ProducerOk(Do(s, PushExchange(t)), u)
  {
    var s' := Do(s, PushExchange(t));
    var node := s.producers[t].node;
    assert ProducerOk(s, t) && ProducerOk(s, u);
    FollowsAppend(s.chain, node);
    if u != t {
      assert !Holds(s.producers[u], node);
    } else {
      var n := |s.chain|;
      assert s'.chain[n - 1] == s.head && s'.chain[n] == node;
    }
  }

  lemma FollowsAppend(chain: seq<Node>, n: Node)
    ensures forall a, b :: Follows(chain, a, b) ==> Follows(chain + [n], a, b)
  {
    forall a, b | Follows(chain, a, b)
      ensures Follows(chain + [n], a, b)
    {
      var i :| 0 <= i < |chain| - 1 && chain[i] == a && chain[i + 1] == b;
      assert (chain + [n])[i] == a && (chain + [n])[i + 1] == b;
    }
  }

  /** In a chain without repetitions a node is followed by one node only. */
  lemma FollowsOnce(s: State, a: Node, b: Node, i: int)
    requires ChainOk(s) && Follows(s.chain, a, b) && 0 <= i < |s.chain| - 1
    ensures s.chain[i] == a <==> s.chain[i + 1] == b
  {
  }

  lemma LinkKeepsChain(s: State, t: Tid)
    requires ChainOk(s) && Enabled(s, PushLink(t)) && ProducerOk(s, t)
    ensures ChainOk(Do(s, PushLink(t)))
  {
    var s' := Do(s, PushLink(t));
    var Linking(node, prev) := s.producers[t];
    forall i | 0 <= i < |s'.chain| - 1
      ensures LinkAt(s', i)
    {
      assert LinkAt(s, i);
      FollowsOnce(s, prev, node, i);
      if s.chain[i] != prev {
        PendingKept(s, s', t, s.chain[i], s.chain[i + 1]);
      }
    }
    assert s.head != prev;
  }

  lemma LinkKeepsProducer(s: State, t: Tid, u: Tid)
    requires Inv(s) && Enabled(s, PushLink(t)) && u in s.producers
    ensures ProducerOk(Do(s, PushLink(t)), u)
  {
    if u != t {
      assert ProducerOk(s, u);
      OthersPrev(s, t, u);
    }
  }

  lemma LinkKeepsConsumer(s: State, t: Tid)
    requires ChainOk(s) && ConsumerOk(s) && Enabled(s, PushLink(t)) && ProducerOk(s, t)
    ensures ConsumerOk(Do(s, PushLink(t)))
  {
    var Linking(node, prev) := s.producers[t];
    if s.consumer.StubLinking? && s.consumer.prev == prev {
      var i :| 0 <= i < |s.chain| - 1 && s.chain[i] == prev && s.chain[i + 1] == node;
      FollowsOnce(s, prev, Stub, i);
    }
  }

  lemma LinkKeepsInv(s: State, t: Tid)
    requires Inv(s) && Enabled(s, PushLink(t))
    ensures Inv(Do(s, PushLink(t)))
  {
    var s' := Do(s, PushLink(t));
    assert ProducerOk(s, t);
    LinkKeepsChain(s, t);
    LinkKeepsConsumer(s, t);
    forall u | u in s'.producers
      ensures ProducerOk(s', u)
    {
      LinkKeepsProducer(s, t, u);
    }
  }

  /** Two producers never link from the same node. */
  lemma OthersPrev(s: State, t: Tid, u: Tid)
    requires Inv(s) && t in s.producers && u in s.producers && t != u && s.producers[t].Linking?
    ensures s.producers[u].Linking? ==> s.producers[u].prev != s.producers[t].prev
    ensures s.producers[u].Cleared? ==> s.producers[u].node != s.producers[t].prev
  {
    assert ProducerOk(s, t);
    assert ProducerOk(s, u);
    var Linking(node, prev) := s.producers[t];
    var i :| 0 <= i < |s.chain| - 1 && s.chain[i] == prev && s.chain[i + 1] == node;
    assert !Holds(s.producers[u], node);
    if s.producers[u].Linking? {
      FollowsOnce(s, s.producers[u].prev, s.producers[u].node, i);
    }
  }

  /** A consumer step that leaves links, chain and producers alone. */
  lemma OnlyConsumer(s: State, s': State)
    requires ChainOk(s) && ProducersOk(s)
    requires s' == s.(consumer := s'.consumer, outcome := s'.outcome, excused := s'.excused, returned := s'.returned)
    requires s.consumer.StubLinking? ==> s'.consumer == s.consumer
    ensures ChainOk(s') && ProducersOk(s')
  {
    forall i | 0 <= i < |s'.chain| - 1
      ensures LinkAt(s', i)
    {
      assert LinkAt(s, i);
      PendingKept(s, s', 0, s.chain[i], s.chain[i + 1]);
    }
    forall t | t in s'.producers
      ensures ProducerOk(s', t)
    {
      assert ProducerOk(s, t);
    }
  }

  /** The tail moves on to its linked successor. */
  lemma AdvanceKeepsProducer(s: State, n: Node, t: Tid)
    requires ChainOk(s) && ProducersOk(s) && Next(s, s.tail) == Some(n) && |s.chain| >= 2 && s.chain[1] == n
    requires t in s.producers
    ensures ProducerOk(Advance(s, n), t)
  {
    var s' := Advance(s, n);
    assert ProducerOk(s, t);
    if s.producers[t].Linking? {
      var Linking(m, p) := s.producers[t];
      var i :| 0 <= i < |s.chain| - 1 && s.chain[i] == p && s.chain[i + 1] == m;
      assert i != 0;
      assert s'.chain[i - 1] == p && s'.chain[i] == m;
    }
  }

  lemma AdvanceOk(s: State, n: Node)
    requires ChainOk(s) && ProducersOk(s) && Next(s, s.tail) == Some(n) && !s.consumer.StubLinking?
    ensures |s.chain| >= 2 && s.chain[1] == n
    ensures ChainOk(Advance(s, n)) && ProducersOk(Advance(s, n))
    ensures Users(s.chain) == (if s.tail == Stub then [] else [s.tail]) + Users(Advance(s, n).chain)
    ensures s.tail !in Advance(s, n).chain
  {
    var s' := Advance(s, n);
    assert |s.chain| >= 2;
    assert LinkAt(s, 0);
    forall i | 0 <= i < |s'.chain| - 1
      ensures LinkAt(s', i)
    {
      assert LinkAt(s, i + 1);
      PendingKept(s, s', 0, s.chain[i + 1], s.chain[i + 2]);
    }
    forall t | t in s'.producers
      ensures ProducerOk(s', t)
    {
      AdvanceKeepsProducer(s, n, t);
    }
  }

  /** When the next of the tail is still null, the tail is the head or some link is pending. */
  lemma NullNext(s: State)
    requires ChainOk(s) && Next(s, s.tail) == None && !s.consumer.StubLinking?
    ensures |s.chain| == 1 || Between(s)
  {
    if |s.chain| >= 2 {
      assert LinkAt(s, 0);
      var t :| t in s.producers && s.producers[t] == Linking(s.chain[1], s.chain[0]);
    }
  }

  lemma EmptyIsExcused(s: State)
    requires ChainOk(s) && Next(s, s.tail) == None && s.tail == Stub && !s.consumer.StubLinking?
    ensures Excuse(s)
  {
    NullNext(s);
    if |s.chain| == 1 {
      assert Users(s.chain) == Users(s.chain[1..]);
      assert s.chain[1..] == [];
    }
  }

  lemma PopNullKeepsInv(s: State)
    requires Inv(s) && s.consumer.Ready? && Next(s, s.tail) == None
    ensures Inv(DoPop(s))
  {
    if s.tail == Stub {
      EmptyIsExcused(s);
    } else {
      NullNext(s);
    }
    OnlyConsumer(s, DoPop(s));
  }

  lemma PopSkipsStub(s: State, n: Node)
    requires Inv(s) && s.consumer.Ready? && Next(s, s.tail) == Some(n) && s.tail == Stub
    ensures Inv(DoPop(s))
  {
    OnlyConsumer(s, DoPop(s));
  }

  lemma PopTakesTail(s: State, n: Node)
    requires Inv(s) && s.consumer.Ready? && Next(s, s.tail) == Some(n) && s.tail != Stub
    ensures Inv(DoPop(s))
  {
    AdvanceOk(s, n);
    OnlyConsumer(Advance(s, n), DoPop(s));
  }

  lemma PopReadyKeepsInv(s: State)
    requires Inv(s) && s.consumer.Ready?
    ensures Inv(DoPop(s))
  {
    match Next(s, s.tail) {
      case None => PopNullKeepsInv(s);
      case Some(n) =>
        if s.tail == Stub {
          PopSkipsStub(s, n);
        } else {
          PopTakesTail(s, n);
        }
    }
  }

  /** What the consumer does with the next of a tail that is not the stub. */
  lemma NextOfUserTail(s: State, s': State)
    requires ChainOk(s) && ProducersOk(s) && !s.consumer.StubLinking? && s.tail != Stub
    requires s.order == s.returned + Users(s.chain)
    requires
      match Next(s, s.tail)
      case None => s' == Noted(s.(consumer := CheckHead(s.tail)))
      case Some(m) => s' == Noted(ReturnTail(s, m))
    ensures Inv(s')
  {
    match Next(s, s.tail) {
      case None =>
        NullNext(s);
        OnlyConsumer(s, s');
      case Some(m) =>
        AdvanceOk(s, m);
        OnlyConsumer(Advance(s, m), s');
    }
  }

  lemma PopSkipKeepsInv(s: State, n: Node)
    requires Inv(s) && s.consumer == SkipStub(n)
    ensures Inv(DoPop(s))
  {
    AdvanceOk(s, n);
    NextOfUserTail(Advance(s, n), DoPop(s));
  }

  lemma PopCheckKeepsInv(s: State)
    requires Inv(s) && s.consumer.CheckHead?
    ensures Inv(DoPop(s))
  {
    OnlyConsumer(s, DoPop(s));
    assert |s.chain| > 1 ==> s.chain[0] != s.chain[|s.chain| - 1];
  }

  lemma PopClearKeepsInv(s: State)
    requires Inv(s) && s.consumer.NeedStub?
    ensures Inv(DoPop(s))
  {
    var s' := DoPop(s);
    forall i | 0 <= i < |s'.chain| - 1
      ensures LinkAt(s', i)
    {
      assert LinkAt(s, i);
      PendingKept(s, s', 0, s.chain[i], s.chain[i + 1]);
    }
    forall t | t in s'.producers
      ensures ProducerOk(s', t)
    {
      assert ProducerOk(s, t);
    }
  }

  lemma PopExchangeKeepsInv(s: State)
    requires Inv(s) && s.consumer.StubCleared?
    ensures Inv(DoPop(s))
  {
    var s' := DoPop(s);
    UsersAppend(s.chain, Stub);
    FollowsAppend(s.chain, Stub);
    var n := |s.chain|;
    assert s'.chain[n - 1] == s.head && s'.chain[n] == Stub;
    assert Follows(s'.chain, s.head, Stub);
    forall i | 0 <= i < |s'.chain| - 1
      ensures LinkAt(s', i)
    {
      if i < n - 1 {
        assert LinkAt(s, i);
        PendingKept(s, s', 0, s.chain[i], s.chain[i + 1]);
      }
    }
    forall t | t in s'.producers
      ensures ProducerOk(s', t)
    {
      assert ProducerOk(s, t);
    }
  }

  lemma PopReloadKeepsInv(s: State)
    requires Inv(s) && s.consumer.Relinked?
    ensures Inv(DoPop(s))
  {
    match Next(s, s.tail) {
      case None =>
        NullNext(s);
        OnlyConsumer(s, DoPop(s));
      case Some(n) =>
        AdvanceOk(s, n);
        OnlyConsumer(Advance(s, n), DoPop(s));
    }
  }

  lemma PopLinkKeepsChain(s: State, k: nat)
    requires Inv(s) && s.consumer.StubLinking?
    requires k < |s.chain| - 1 && s.chain[k] == s.consumer.prev && s.chain[k + 1] == Stub
    ensures ChainOk(DoPop(s))
  {
    var s' := DoPop(s);
    forall i | 0 <= i < |s'.chain| - 1
      ensures LinkAt(s', i)
    {
      assert LinkAt(s, i);
      FollowsOnce(s, s.consumer.prev, Stub, i);
      if i != k && Pending(s, s.chain[i], s.chain[i + 1]) {
        var t :| t in s.producers && s.producers[t] == Linking(s.chain[i + 1], s.chain[i]);
        assert t in s'.producers && s'.producers[t] == Linking(s.chain[i + 1], s.chain[i]);
      }
    }
  }

  lemma PopLinkKeepsProducer(s: State, k: nat, t: Tid)
    requires Inv(s) && s.consumer.StubLinking? && t in s.producers
    requires k < |s.chain| - 1 && s.chain[k] == s.consumer.prev && s.chain[k + 1] == Stub
    ensures ProducerOk(DoPop(s), t)
  {
    assert ProducerOk(s, t);
    if s.producers[t].Linking? {
      FollowsOnce(s, s.producers[t].prev, s.producers[t].node, k);
    }
  }

  lemma PopLinkKeepsInv(s: State)
    requires Inv(s) && s.consumer.StubLinking?
    ensures Inv(DoPop(s))
  {
    var s' := DoPop(s);
    var k :| 0 <= k < |s.chain| - 1 && s.chain[k] == s.consumer.prev && s.chain[k + 1] == Stub;
    PopLinkKeepsChain(s, k);
    forall t | t in s'.producers
      ensures ProducerOk(s', t)
    {
      PopLinkKeepsProducer(s, k, t);
    }
  }

  /** Every step of every producer and of the consumer keeps the invariant. */
  lemma StepKeepsInv(s: State, step: Step)
    requires Inv(s) && Enabled(s, step)
    ensures Inv(Do(s, step))
  {
    match step {
      case PushClear(t, node) => ClearKeepsInv(s, t, node);
      case PushExchange(t) => ExchangeKeepsInv(s, t);
      case PushLink(t) => LinkKeepsInv(s, t);
      case Pop =>
        match s.consumer {
          case Ready => PopReadyKeepsInv(s);
          case SkipStub(n) => PopSkipKeepsInv(s, n);
          case CheckHead(_) => PopCheckKeepsInv(s);
          case NeedStub(_) => PopClearKeepsInv(s);
          case StubCleared(_) => PopExchangeKeepsInv(s);
          case StubLinking(_, _) => PopLinkKeepsInv(s);
          case Relinked(_) => PopReloadKeepsInv(s);
        }
    }
  }

  // ----- runs -----

  ghost predicate StepOf(s: State, s': State) {
    exists step :: Enabled(s, step) && s' == Do(s, step)
  }

  ghost predicate StepAt(run: seq<State>, i: nat)
    requires i + 1 < |run|
  {
    StepOf(run[i], run[i + 1])
  }

  /** Any interleaving of any number of producers and the consumer. */
  ghost predicate Run(run: seq<State>) {
    |run| >= 1 && Init(run[0]) && forall i :: 0 <= i < |run| - 1 ==> StepAt(run, i)
  }

  lemma InitHolds(s: State)
    requires Init(s)
    ensures Inv(s)
  {
    assert Users([Stub]) == Users([Stub][1..]);
  }

  lemma StepAtKeepsInv(run: seq<State>, i: nat)
    requires Run(run) && i + 1 < |run| && Inv(run[i])
    ensures Inv(run[i + 1])
  {
    assert StepAt(run, i);
    var step :| Enabled(run[i], step) && run[i + 1] == Do(run[i], step);
    StepKeepsInv(run[i], step);
  }

  lemma {:induction false} RunKeepsInv(run: seq<State>, i: nat)
    requires Run(run) && i < |run|
    ensures Inv(run[i])
  {
    if i == 0 {
      InitHolds(run[0]);
    } else {
      RunKeepsInv(run, i - 1);
      StepAtKeepsInv(run, i - 1);
    }
  }

  /** The pops have returned a prefix of the pushes, in the order of the head exchanges,
      and what is not returned is still in the chain. */
  lemma ReturnedInExchangeOrder(run: seq<State>, i: nat)
    requires Run(run) && i < |run|
    ensures run[i].returned <= run[i].order
    ensures run[i].order[|run[i].returned|..] == Users(run[i].chain)
  {
    RunKeepsInv(run, i);
  }

  lemma {:induction false} UsersCount(chain: seq<Node>, n: Node)
    requires n.User? && n in chain
    ensures n in Users(chain)
  {
    if chain[0] != n {
      assert n in chain[1..];
      UsersCount(chain[1..], n);
    }
  }

  /** A link is only ever written into a node that has been pushed more often than returned,
      or into the stub while the stub is queued; and it is queued at most once. */
  lemma PendingLinksAreLive(run: seq<State>, i: nat, t: Tid)
    requires Run(run) && i < |run|
    requires t in run[i].producers && run[i].producers[t].Linking?
    ensures
      var s := run[i];
      var prev := s.producers[t].prev;
      && prev in s.chain && Next(s, prev) == None
      && (prev.User? ==> multiset(s.returned)[prev] < multiset(s.order)[prev])
  {
    var s := run[i];
    RunKeepsInv(run, i);
    assert ProducerOk(s, t);
    var prev := s.producers[t].prev;
    if prev.User? {
      UsersCount(s.chain, prev);
      assert multiset(s.order) == multiset(s.returned) + multiset(Users(s.chain));
      assert prev in multiset(Users(s.chain));
    }
  }

  /** What _M_push_back returns, once its link is written. */
  predicate PushReturns(s: State, t: Tid)
    requires Pc(s, t).Linking?
  {
    Pc(s, t).prev == Stub
  }

  /** A push returns true if and only if its node directly follows the stub in the order of the exchanges. */
  lemma PushTellsStub(run: seq<State>, i: nat, t: Tid)
    requires Run(run) && i < |run| && Pc(run[i], t).Linking?
    ensures PushReturns(run[i], t) <==> Follows(run[i].chain, Stub, Pc(run[i], t).node)
  {
    RunKeepsInv(run, i);
    var s := run[i];
    assert ProducerOk(s, t);
    var Linking(node, prev) := s.producers[t];
    if Follows(s.chain, Stub, node) {
      var k :| 0 <= k < |s.chain| - 1 && s.chain[k] == Stub && s.chain[k + 1] == node;
      FollowsOnce(s, prev, node, k);
    }
  }

  /** A push whose exchange finds no user node queued is one that returns true. */
  lemma EmptyQueueIsTold(run: seq<State>, i: nat, t: Tid)
    requires Run(run) && i < |run| && Enabled(run[i], PushExchange(t)) && Users(run[i].chain) == []
    ensures Pc(Do(run[i], PushExchange(t)), t).Linking? && PushReturns(Do(run[i], PushExchange(t)), t)
  {
    RunKeepsInv(run, i);
    EmptyChain(run[i]);
  }

  lemma StubQueuedOnce(run: seq<State>, i: nat)
    requires Run(run) && i < |run|
    ensures forall a, b :: 0 <= a < b < |run[i].chain| ==> !(run[i].chain[a] == Stub && run[i].chain[b] == Stub)
    ensures run[i].consumer.NeedStub? || run[i].consumer.StubCleared? ==> Stub !in run[i].chain
  {
    RunKeepsInv(run, i);
  }

  /** States first..last belong to one pop, which begins with the step from `first`. */
  ghost predicate OnePop(run: seq<State>, first: nat, last: nat) {
    && Run(run) && first < last < |run|
    && run[first].consumer.Ready? && run[first + 1] == Do(run[first], Pop)
    && forall m :: first < m < last ==> !run[m].consumer.Ready?
  }

  lemma ExcusedStep(s: State, s': State)
    requires StepOf(s, s') && !s.consumer.Ready?
    ensures s'.excused ==> s.excused || Excuse(s')
  {
    var step :| Enabled(s, step) && s' == Do(s, step);
    match step {
      case PushClear(t, node) =>
      case PushExchange(t) =>
      case PushLink(t) =>
      case Pop => PopExcused(s);
    }
  }

  lemma {:induction false} ExcusedInPop(run: seq<State>, first: nat, m: nat, last: nat)
    requires OnePop(run, first, last) && first < m <= last && run[m].excused
    ensures exists k :: first <= k <= m && Excuse(run[k])
  {
    if m > first + 1 && !Excuse(run[m]) {
      assert StepAt(run, m - 1);
      ExcusedStep(run[m - 1], run[m]);
      ExcusedInPop(run, first, m - 1, last);
    } else if m == first + 1 {
      PopStartExcuse(run[first]);
    }
  }

  lemma PopStartExcuse(s: State)
    requires s.consumer.Ready?
    ensures DoPop(s).excused == Excuse(s)
  {
  }

  /** A pop returns null only if at some moment during it no user node was queued
      or some push was between its exchange and its link. */
  lemma NullNeedsExcuse(run: seq<State>, first: nat, last: nat)
    requires OnePop(run, first, last) && run[last].consumer.Ready? && run[last].outcome == Null
    ensures exists k :: first <= k <= last && Excuse(run[k])
  {
    RunKeepsInv(run, last);
    ExcusedInPop(run, first, last, last);
  }

  /** A pop that returns a node returns the user node whose exchange came first among the queued ones. */
  lemma GotIsNext(s: State, n: Node)
    requires Inv(s) && DoPop(s).consumer.Ready? && DoPop(s).outcome == Got(n)
    ensures Users(s.chain) != [] && n == Users(s.chain)[0]
    ensures DoPop(s).returned == s.returned + [n]
  {
    match s.consumer {
      case Ready => GotAtOnce(s, n);
      case SkipStub(_) => GotBehindStub(s, n);
      case CheckHead(_) => GotAfterAll(s, n);
      case Relinked(_) => GotAfterAll(s, n);
    }
  }

  lemma GotAtOnce(s: State, n: Node)
    requires Inv(s) && s.consumer.Ready? && DoPop(s).consumer.Ready? && DoPop(s).outcome == Got(n)
    ensures Users(s.chain) != [] && n == Users(s.chain)[0] && DoPop(s).returned == s.returned + [n]
  {
    UserTailFirst(s);
  }

  lemma GotBehindStub(s: State, n: Node)
    requires Inv(s) && s.consumer.SkipStub? && DoPop(s).consumer.Ready? && DoPop(s).outcome == Got(n)
    ensures Users(s.chain) != [] && n == Users(s.chain)[0] && DoPop(s).returned == s.returned + [n]
  {
    AdvanceOk(s, s.consumer.next);
    UserTailFirst(Advance(s, s.consumer.next));
  }

  lemma GotAfterAll(s: State, n: Node)
    requires Inv(s) && (s.consumer.CheckHead? || s.consumer.Relinked?)
    requires DoPop(s).consumer.Ready? && DoPop(s).outcome == Got(n)
    ensures Users(s.chain) != [] && n == Users(s.chain)[0] && DoPop(s).returned == s.returned + [n]
  {
    UserTailFirst(s);
  }

  lemma UserTailFirst(s: State)
    requires ChainOk(s) && s.tail != Stub
    ensures Users(s.chain) != [] && Users(s.chain)[0] == s.tail
  {
  }

  // ----- one pop without interference -----

  function StepsLeft(c: Consumer): nat {
    match c
    case Ready => 0
    case SkipStub(_) => 6
    case CheckHead(_) => 5
    case NeedStub(_) => 4
    case StubCleared(_) => 3
    case StubLinking(_, _) => 2
    case Relinked(_) => 1
  }

  /** Runs the started pop to its end while no producer moves. */
  function Finish(s: State): State
    decreases StepsLeft(s.consumer)
  {
    if s.consumer.Ready? then s else Finish(DoPop(s))
  }

  lemma SkipKeepsUsers(s: State, n: Node)
    requires Inv(s) && s.consumer == SkipStub(n)
    ensures Users(Advance(s, n).chain) == Users(s.chain)
  {
    AdvanceOk(s, n);
  }

  lemma PopKeepsChain(s: State)
    requires !s.consumer.Ready? && !s.consumer.SkipStub? && !s.consumer.StubCleared?
    ensures DoPop(s).consumer.Ready? || DoPop(s).chain == s.chain
  {
  }

  /** The steps of a pop change the queue of users only when they return. */
  lemma PopKeepsUsers(s: State)
    requires Inv(s) && !s.consumer.Ready?
    ensures DoPop(s).consumer.Ready? || Users(DoPop(s).chain) == Users(s.chain)
  {
    if s.consumer.SkipStub? {
      SkipKeepsUsers(s, s.consumer.next);
    } else if s.consumer.StubCleared? {
      UsersAppend(s.chain, Stub);
    } else {
      PopKeepsChain(s);
    }
  }

  lemma PopKeepsProducers(s: State)
    ensures DoPop(s).producers == s.producers
  {
  }

  lemma PopProgress(s: State)
    requires !s.consumer.Ready?
    ensures DoPop(s).consumer.Ready? || StepsLeft(DoPop(s).consumer) < StepsLeft(s.consumer)
  {
  }

  /** One step of a pop on a queue that is not empty, while no push is half done. */
  lemma QuietStep(s: State)
    requires Inv(s) && !Between(s) && !s.consumer.Ready? && Users(s.chain) != [] && !s.excused
    ensures
      var s' := DoPop(s);
      && Inv(s') && !Between(s')
      && if s'.consumer.Ready? then s'.outcome == Got(Users(s.chain)[0])
         else StepsLeft(s'.consumer) < StepsLeft(s.consumer) && Users(s'.chain) == Users(s.chain) && !s'.excused
  {
    var s' := DoPop(s);
    StepKeepsInv(s, Pop);
    PopKeepsUsers(s);
    PopKeepsProducers(s);
    PopProgress(s);
    PopExcused(s);
    if s'.consumer.Ready? {
      OutcomeOfReturn(s);
      if s'.outcome.Got? {
        GotIsNext(s, s'.outcome.node);
      } else {
        NullChain(s);
      }
    }
  }

  lemma OutcomeOfReturn(s: State)
    requires Inv(s) && !s.consumer.Ready? && DoPop(s).consumer.Ready?
    ensures !DoPop(s).outcome.NoPop?
    ensures DoPop(s).outcome == Null ==> DoPop(s).chain == s.chain
  {
    match s.consumer {
      case SkipStub(n) => assert DoPop(s) == SkipPop(Advance(s, n), n);
      case CheckHead(_) => assert DoPop(s) == Noted(Return(s, Null));
      case Relinked(_) => RelinkedOutcome(s);
    }
  }

  lemma RelinkedOutcome(s: State)
    requires s.consumer.Relinked?
    ensures !DoPop(s).outcome.NoPop? && (DoPop(s).outcome == Null ==> DoPop(s).chain == s.chain)
  {
  }

  lemma PopExcused(s: State)
    requires !s.consumer.Ready?
    ensures DoPop(s).excused ==> s.excused || Excuse(DoPop(s))
  {
  }

  lemma NullChain(s: State)
    requires Inv(s) && Inv(DoPop(s)) && !s.consumer.Ready? && DoPop(s).consumer.Ready? && DoPop(s).outcome == Null
    requires DoPop(s).producers == s.producers && DoPop(s).chain == s.chain
    requires DoPop(s).excused ==> s.excused || Excuse(DoPop(s))
    ensures s.excused || Excuse(s)
  {
  }

  lemma {:induction false} QuietFinish(s: State)
    requires Inv(s) && !Between(s) && !s.consumer.Ready? && Users(s.chain) != [] && !s.excused
    ensures Finish(s).outcome == Got(Users(s.chain)[0])
    decreases StepsLeft(s.consumer)
  {
    QuietStep(s);
    if !DoPop(s).consumer.Ready? {
      QuietFinish(DoPop(s));
    }
  }

  /** When no push is half done, a pop takes the first queued user node, or returns null from an empty queue. */
  lemma QuietPop(s: State)
    requires Inv(s) && !Between(s) && s.consumer.Ready?
    ensures Finish(DoPop(s)).outcome == if Users(s.chain) == [] then Null else Got(Users(s.chain)[0])
  {
    var s' := DoPop(s);
    StepKeepsInv(s, Pop);
    if Users(s.chain) == [] {
      EmptyChain(s);
    } else if s'.consumer.Ready? {
      if s'.outcome.Got? {
        GotIsNext(s, s'.outcome.node);
      }
    } else {
      QuietFinish(s');
    }
  }

  lemma {:induction false} OnlyStubs(chain: seq<Node>, i: nat)
    requires Users(chain) == [] && i < |chain|
    ensures chain[i] == Stub
  {
    if i > 0 {
      OnlyStubs(chain[1..], i - 1);
    }
  }

  lemma EmptyChain(s: State)
    requires Inv(s) && Users(s.chain) == []
    ensures s.chain == [Stub]
  {
    OnlyStubs(s.chain, 0);
    if |s.chain| >= 2 {
      OnlyStubs(s.chain, 1);
    }
  }

  // ----- one push without interference -----

  lemma ClearStep(s: State, t: Tid, node: Node)
    requires Enabled(s, PushClear(t, node))
    ensures
      var s' := Do(s, PushClear(t, node));
      Pc(s', t) == Cleared(node) && s'.chain == s.chain && s'.head == s.head && Next(s', node) == None
  {
  }

  lemma ExchangeStep(s: State, t: Tid, node: Node)
    requires Pc(s, t) == Cleared(node)
    ensures
      var s' := Do(s, PushExchange(t));
      Pc(s', t) == Linking(node, s.head) && s'.chain == s.chain + [node] && s'.head == node
  {
  }

  lemma LinkStep(s: State, t: Tid, node: Node, prev: Node)
    requires Pc(s, t) == Linking(node, prev)
    ensures
      var s' := Do(s, PushLink(t));
      Pc(s', t).Idle? && s'.chain == s.chain && s'.head == s.head && Next(s', prev) == Some(node)
  {
  }

  /** A push that nobody disturbs returns after two more steps: its node is the head, linked behind the old one. */
  lemma QuietPush(s: State, t: Tid, node: Node) returns (s': State)
    requires Inv(s) && Enabled(s, PushClear(t, node))
    ensures
      var s1 := Do(s, PushClear(t, node));
      && Enabled(s1, PushExchange(t)) && Enabled(Do(s1, PushExchange(t)), PushLink(t))
      && s' == Do(Do(s1, PushExchange(t)), PushLink(t))
    ensures Inv(s') && Pc(s', t).Idle? && Users(s'.chain) == Users(s.chain) + [node]
    ensures s'.head == node && Next(s', s.head) == Some(node) && Next(s', node) == None
  {
    var s1 := Do(s, PushClear(t, node));
    ClearStep(s, t, node);
    StepKeepsInv(s, PushClear(t, node));
    var s2 := Do(s1, PushExchange(t));
    ExchangeStep(s1, t, node);
    StepKeepsInv(s1, PushExchange(t));
    s' := Do(s2, PushLink(t));
    LinkStep(s2, t, node, s.head);
    StepKeepsInv(s2, PushLink(t));
    UsersAppend(s.chain, node);
  }
}

/** Remote requests of the scheduler: submitters on any threads count themselves in and out
    and push to request queues; the loop collects the queues and at shutdown switches the
    counter from 0 to -1. One atomic operation a step. */
module RemoteRequests {
  import opened Sequences

  type Tid = nat
  type Op = nat
  type Queue = nat

  const NO_NEW_SUBMIT := -1

  /** Whether a queue feeds the pending ring operations or the pending timers. */
  datatype Kind = Ring | Timer

  datatype Submitter =
    | Idle
    | Trying(queue: Queue, op: Op, n: int)
    | Inside(queue: Queue, op: Op)   // counted in, the push comes
    | Leaving                        // pushed, counts itself out next

  datatype Loop =
    | Running
    | Folding(kind: Kind, i: nat, r: nat, acc: seq<Op>, last: bool)
    | Closing
    | Stopped

  datatype State = State(
    counter: int,                       // __n_submit_in_flight_
    submitters: map<Tid, Submitter>,    // absent: Idle
    ringQueues: seq<Queue>,             // in the order of registration
    timerQueues: seq<Queue>,
    stacks: map<Queue, seq<Op>>,        // newest first; absent: empty
    loop: Loop,
    ringPending: seq<Op>,
    timerPending: seq<Op>,
    // history
    home: map<Op, Queue>,               // every operation submitted so far, and its queue
    holder: map<Op, Tid>,
    stopped: set<Op>,                   // stopped by their own submitter
    pushed: map<Queue, seq<Op>>,        // in the order of the pushes; absent: empty
    taken: map<Queue, seq<Op>>,         // in the order of collection; absent: empty
    inside: set<Tid>)

  function Sub(s: State, t: Tid): Submitter {
    if t in s.submitters then s.submitters[t] else Idle
  }

  function Of<T>(m: map<Queue, seq<T>>, q: Queue): seq<T> {
    if q in m then m[q] else []
  }

  function Queues(s: State, kind: Kind): seq<Queue> {
    if kind.Ring? then s.ringQueues else s.timerQueues
  }

  ghost predicate Init(s: State) {
    s == State(0, map[], [], [], map[], Running, [], [], map[], map[], {}, map[], map[], {})
  }

  datatype Step =
    | Register(q: Queue, kind: Kind)
    | Submit(t: Tid, q: Queue, op: Op)
    | Continue(t: Tid, spurious: bool)
    | Collect
    | Close
    | Turn(spurious: bool)              // the loop goes on with its collection or its closing

  predicate Enabled(s: State, step: Step) {
    match step
    case Register(q, _) => q !in s.ringQueues && q !in s.timerQueues
    case Submit(t, q, op) => Sub(s, t).Idle? && op !in s.home && (q in s.ringQueues || q in s.timerQueues)
    case Continue(t, _) => !Sub(s, t).Idle?
    case Collect => s.loop.Running?
    case Close => s.loop.Running?
    case Turn(_) => s.loop.Folding? || s.loop.Closing?
  }

  function Go(s: State, t: Tid, sub: Submitter): State {
    s.(submitters := s.submitters[t := sub])
  }

  function Do(s: State, step: Step): State
    requires Enabled(s, step)
  {
    match step
    case Register(q, kind) =>
      if kind.Ring? then s.(ringQueues := s.ringQueues + [q]) else s.(timerQueues := s.timerQueues + [q])
    case Submit(t, q, op) =>
      Go(s, t, Trying(q, op, 0)).(home := s.home[op := q], holder := s.holder[op := t])
    case Continue(t, spurious) => DoSubmit(s, t, Sub(s, t), spurious)
    case Collect => s.(loop := Folding(Ring, 0, |s.ringQueues|, [], false))
    case Close => s.(loop := Closing)
    case Turn(spurious) => if s.loop.Closing? then DoClose(s, spurious) else DoFold(s)
  }

  function DoSubmit(s: State, t: Tid, sub: Submitter, spurious: bool): State
    requires !sub.Idle?
  {
    match sub
    case Trying(q, op, n) =>
      if n == NO_NEW_SUBMIT then Go(s, t, Idle).(stopped := s.stopped + {op})
      else if s.counter == n && !spurious then
        Go(s, t, Inside(q, op)).(counter := n + 1, inside := s.inside + {t})
      else Go(s, t, Trying(q, op, s.counter))
    case Inside(q, op) =>
      Go(s, t, Leaving)
      .(stacks := s.stacks[q := [op] + Of(s.stacks, q)], pushed := s.pushed[q := Of(s.pushed, q) + [op]])
    case Leaving => Go(s, t, Idle).(counter := s.counter - 1, inside := s.inside - {t})
  }

  /** compare-exchange from 0 to -1, with the expected value reset to 0 on failure. */
  function DoClose(s: State, spurious: bool): State {
    if s.counter == 0 && !spurious then
      s.(counter := NO_NEW_SUBMIT, loop := Folding(Ring, 0, |s.ringQueues|, [], true))
    else if s.counter == NO_NEW_SUBMIT then
      s.(loop := Folding(Ring, 0, |s.ringQueues|, [], true))
    else s
  }

  /** One queue is reset and reversed; after the last one the result joins the pending list. */
  function DoFold(s: State): State
    requires s.loop.Folding?
  {
    if s.loop.i < s.loop.r && s.loop.i < |Queues(s, s.loop.kind)| then TakeQueue(s, Queues(s, s.loop.kind)[s.loop.i])
    else EndFold(s)
  }

  function TakeQueue(s: State, q: Queue): State
    requires s.loop.Folding?
  {
    var batch := Reversed(Of(s.stacks, q));
    s.(stacks := s.stacks[q := []], taken := s.taken[q := Of(s.taken, q) + batch],
       loop := s.loop.(i := s.loop.i + 1, acc := s.loop.acc + batch))
  }

  function EndFold(s: State): State
    requires s.loop.Folding?
  {
    if s.loop.kind.Ring? then
      s.(ringPending := s.ringPending + s.loop.acc, loop := Folding(Timer, 0, |s.timerQueues|, [], s.loop.last))
    else
      s.(timerPending := s.timerPending + s.loop.acc, loop := if s.loop.last then Stopped else Running)
  }

  // ----- the invariant -----

  predicate IsInside(sub: Submitter) {
    sub.Inside? || sub.Leaving?
  }

  predicate HoldsOp(sub: Submitter, op: Op) {
    (sub.Trying? || sub.Inside?) && sub.op == op
  }

  predicate Closed(s: State) {
    s.counter == NO_NEW_SUBMIT
  }

  ghost predicate SubmitterOk(s: State, t: Tid) {
    var sub := Sub(s, t);
    && (t in s.inside <==> IsInside(sub))
    && (sub.Trying? || sub.Inside? ==>
          && sub.op in s.home && s.home[sub.op] == sub.queue && sub.op in s.holder && s.holder[sub.op] == t
          && sub.op !in s.stopped && sub.op !in Of(s.pushed, sub.queue)
          && (sub.queue in s.ringQueues || sub.queue in s.timerQueues))
    && (sub.Trying? ==> sub.n >= -1 && (sub.n == NO_NEW_SUBMIT ==> Closed(s)))
  }

  /** Where a submitted operation is: stopped, pushed, or still in the hands of its submitter. */
  ghost predicate OpOk(s: State, op: Op) {
    && (op in s.stopped ==> op in s.home)
    && (op in s.home ==>
      && op in s.holder
      && (op in s.stopped || op in Of(s.pushed, s.home[op]) || HoldsOp(Sub(s, s.holder[op]), op))
      && (op in s.stopped ==> op !in Of(s.pushed, s.home[op]) && Closed(s)))
  }

  ghost predicate QueueOk(s: State, q: Queue) {
    && Of(s.pushed, q) == Of(s.taken, q) + Reversed(Of(s.stacks, q))
    && (forall op :: op in Of(s.pushed, q) ==> op in s.home && s.home[op] == q)
    && (forall i, j :: 0 <= i < j < |Of(s.pushed, q)| ==> Of(s.pushed, q)[i] != Of(s.pushed, q)[j])
    && (Of(s.pushed, q) != [] ==> q in s.ringQueues || q in s.timerQueues)
  }

  /** The operations of queue q in a list of collected operations. */
  function From(home: map<Op, Queue>, list: seq<Op>, q: Queue): seq<Op> {
    if list == [] then []
    else (if list[0] in home && home[list[0]] == q then [list[0]] else []) + From(home, list[1..], q)
  }

  function PendingOf(s: State, kind: Kind): seq<Op> {
    if kind.Ring? then s.ringPending else s.timerPending
  }

  /** Everything collected so far for one kind, including the running collection. */
  function Collected(s: State, kind: Kind): seq<Op> {
    PendingOf(s, kind) + if s.loop.Folding? && s.loop.kind == kind then s.loop.acc else []
  }

  ghost predicate FlowOk(s: State, q: Queue) {
    && (q in s.ringQueues ==> From(s.home, Collected(s, Ring), q) == Of(s.taken, q))
    && (q in s.timerQueues ==> From(s.home, Collected(s, Timer), q) == Of(s.taken, q))
    && !(q in s.ringQueues && q in s.timerQueues)
  }

  ghost predicate CollectedOk(s: State, kind: Kind) {
    forall op :: op in Collected(s, kind) ==> op in s.home && s.home[op] in Queues(s, kind)
  }

  /** In the last collection, only queues that are still to be folded can hold something. */
  ghost predicate LeftToFold(s: State, q: Queue) {
    Of(s.stacks, q) != [] ==>
      match s.loop
      case Folding(Ring, i, r, _, _) =>
        q in s.timerQueues || exists k :: i <= k < r && k < |s.ringQueues| && s.ringQueues[k] == q
      case Folding(Timer, i, r, _, _) => exists k :: i <= k < r && k < |s.timerQueues| && s.timerQueues[k] == q
      case _ => false
  }

  ghost predicate LoopOk(s: State) {
    && (s.loop.Folding? ==> s.loop.r <= |Queues(s, s.loop.kind)|)
    && ((s.loop.Folding? && s.loop.last) || s.loop.Stopped? ==> Closed(s) && forall q :: LeftToFold(s, q))
  }

  ghost predicate CounterOk(s: State) {
    s.counter == |s.inside| || (Closed(s) && s.inside == {})
  }

  ghost predicate Inv(s: State) {
    && CounterOk(s) && LoopOk(s)
    && CollectedOk(s, Ring) && CollectedOk(s, Timer)
    && (forall t :: SubmitterOk(s, t))
    && (forall op :: OpOk(s, op))
    && (forall q :: QueueOk(s, q) && FlowOk(s, q))
  }

  // ----- lists -----

  lemma {:induction false} FromAppend(home: map<Op, Queue>, a: seq<Op>, b: seq<Op>, q: Queue)
    ensures From(home, a + b, q) == From(home, a, q) + From(home, b, q)
  {
    if a == [] {
      assert a + b == b;
    } else {
      FromAppend(home, a[1..], b, q);
      assert (a + b)[1..] == a[1..] + b;
      var first := if a[0] in home && home[a[0]] == q then [a[0]] else [];
      Associative(first, From(home, a[1..], q), From(home, b, q));
    }
  }

  /** A batch comes from one queue only. */
  lemma {:induction false} FromBatch(home: map<Op, Queue>, list: seq<Op>, q: Queue, p: Queue)
    requires forall op :: op in list ==> op in home && home[op] == q
    ensures From(home, list, p) == if p == q then list else []
  {
    if list != [] {
      assert list[0] in list;
      forall op | op in list[1..]
        ensures op in list
      {
      }
      FromBatch(home, list[1..], q, p);
    }
  }

  lemma {:induction false} FromExtended(home: map<Op, Queue>, op0: Op, q0: Queue, list: seq<Op>, q: Queue)
    requires op0 !in list
    ensures From(home[op0 := q0], list, q) == From(home, list, q)
  {
    if list != [] {
      assert list[0] in list;
      forall op | op in list[1..]
        ensures op in list
      {
      }
      FromExtended(home, op0, q0, list[1..], q);
    }
  }

  // ----- every step keeps the invariant -----

  lemma {:induction false} NoneFrom(home: map<Op, Queue>, list: seq<Op>, q: Queue)
    requires forall op :: op in list ==> op in home && home[op] != q
    ensures From(home, list, q) == []
  {
    if list != [] {
      assert list[0] in list;
      forall op | op in list[1..] ensures op in list { }
      NoneFrom(home, list[1..], q);
    }
  }

  lemma RegisterKeepsQueue(s: State, q: Queue, kind: Kind, p: Queue)
    requires QueueOk(s, p) && Enabled(s, Register(q, kind))
    ensures QueueOk(Do(s, Register(q, kind)), p)
  {
    var s' := Do(s, Register(q, kind));
    assert s'.pushed == s.pushed && s'.taken == s.taken && s'.stacks == s.stacks && s'.home == s.home;
  }

  lemma RegisterKeepsFlow(s: State, q: Queue, kind: Kind, p: Queue)
    requires QueueOk(s, p) && FlowOk(s, p) && Enabled(s, Register(q, kind))
    requires CollectedOk(s, kind)
    ensures FlowOk(Do(s, Register(q, kind)), p)
  {
    if p == q {
      assert Of(s.pushed, p) == [] && Of(s.taken, p) == [];
      NoneFrom(s.home, Collected(s, kind), p);
    }
  }

  lemma RegisterKeepsLeft(s: State, q: Queue, kind: Kind, p: Queue)
    requires Enabled(s, Register(q, kind)) && LeftToFold(s, p)
    ensures LeftToFold(Do(s, Register(q, kind)), p)
  {
    var s' := Do(s, Register(q, kind));
    match s.loop {
      case Folding(Ring, i, r, _, _) =>
        if exists k :: i <= k < r && k < |s.ringQueues| && s.ringQueues[k] == p {
          var k :| i <= k < r && k < |s.ringQueues| && s.ringQueues[k] == p;
          assert s'.ringQueues[k] == p;
        }
      case Folding(Timer, i, r, _, _) =>
        if exists k :: i <= k < r && k < |s.timerQueues| && s.timerQueues[k] == p {
          var k :| i <= k < r && k < |s.timerQueues| && s.timerQueues[k] == p;
          assert s'.timerQueues[k] == p;
        }
      case _ =>
    }
  }

  lemma RegisterKeepsInv(s: State, q: Queue, kind: Kind)
    requires Inv(s) && Enabled(s, Register(q, kind))
    ensures Inv(Do(s, Register(q, kind)))
  {
    var s' := Do(s, Register(q, kind));
    forall t
      ensures SubmitterOk(s', t)
    {
      assert SubmitterOk(s, t);
    }
    forall op
      ensures OpOk(s', op)
    {
      assert OpOk(s, op);
    }
    forall p
      ensures QueueOk(s', p) && FlowOk(s', p)
    {
      assert QueueOk(s, p) && FlowOk(s, p);
      RegisterKeepsQueue(s, q, kind, p);
      RegisterKeepsFlow(s, q, kind, p);
    }
    forall p
      ensures LeftToFold(s, p) ==> LeftToFold(s', p)
    {
      if LeftToFold(s, p) {
        RegisterKeepsLeft(s, q, kind, p);
      }
    }
  }

  lemma SubmitKeepsFlow(s: State, t: Tid, q: Queue, op: Op, p: Queue)
    requires Inv(s) && Enabled(s, Submit(t, q, op))
    ensures QueueOk(Do(s, Submit(t, q, op)), p) && FlowOk(Do(s, Submit(t, q, op)), p)
  {
    assert QueueOk(s, p) && FlowOk(s, p);
    FromExtended(s.home, op, q, Collected(s, Ring), p);
    FromExtended(s.home, op, q, Collected(s, Timer), p);
  }

  lemma SubmitKeepsThread(s: State, t: Tid, q: Queue, op: Op, u: Tid)
    requires Enabled(s, Submit(t, q, op)) && SubmitterOk(s, u) && OpOk(s, op) && QueueOk(s, q)
    ensures SubmitterOk(Do(s, Submit(t, q, op)), u)
  {
  }

  lemma SubmitKeepsOp(s: State, t: Tid, q: Queue, op: Op, o: Op)
    requires Enabled(s, Submit(t, q, op)) && OpOk(s, o) && OpOk(s, op)
    ensures OpOk(Do(s, Submit(t, q, op)), o)
  {
  }

  lemma SubmitKeepsInv(s: State, t: Tid, q: Queue, op: Op)
    requires Inv(s) && Enabled(s, Submit(t, q, op))
    ensures Inv(Do(s, Submit(t, q, op)))
  {
    var s' := Do(s, Submit(t, q, op));
    assert OpOk(s, op) && QueueOk(s, q);
    forall u
      ensures SubmitterOk(s', u)
    {
      assert SubmitterOk(s, u);
      SubmitKeepsThread(s, t, q, op, u);
    }
    forall o
      ensures OpOk(s', o)
    {
      assert OpOk(s, o);
      SubmitKeepsOp(s, t, q, op, o);
    }
    forall p
      ensures QueueOk(s', p) && FlowOk(s', p)
    {
      SubmitKeepsFlow(s, t, q, op, p);
    }
    forall p
      ensures LeftToFold(s, p) ==> LeftToFold(s', p)
    {
    }
  }

  /** A step of a submitter that leaves queues and collections alone. */
  ghost predicate SameQueues(s: State, s': State) {
    s' == s.(counter := s'.counter, submitters := s'.submitters, stopped := s'.stopped, inside := s'.inside)
  }

  lemma SameQueuesKept(s: State, s': State)
    requires Inv(s) && SameQueues(s, s') && (Closed(s) ==> Closed(s'))
    ensures LoopOk(s') && CollectedOk(s', Ring) && CollectedOk(s', Timer)
    ensures forall q :: QueueOk(s', q) && FlowOk(s', q)
  {
    forall q
      ensures QueueOk(s', q) && FlowOk(s', q)
    {
      assert QueueOk(s, q) && FlowOk(s, q);
    }
    forall q
      ensures LeftToFold(s, q) ==> LeftToFold(s', q)
    {
    }
  }

  lemma TryKeepsThread(s: State, t: Tid, spurious: bool, u: Tid)
    requires Sub(s, t).Trying? && s.counter >= -1 && SubmitterOk(s, t) && SubmitterOk(s, u)
    ensures SubmitterOk(DoSubmit(s, t, Sub(s, t), spurious), u)
  {
    var s' := DoSubmit(s, t, Sub(s, t), spurious);
    if u == t {
      TryKeepsSelf(s, t, spurious);
    } else {
      assert Sub(s', u) == Sub(s, u);
    }
  }

  lemma TryKeepsSelf(s: State, t: Tid, spurious: bool)
    requires Sub(s, t).Trying? && s.counter >= -1 && SubmitterOk(s, t)
    ensures SubmitterOk(DoSubmit(s, t, Sub(s, t), spurious), t)
  {
    var Trying(q, op, n) := Sub(s, t);
    var s' := DoSubmit(s, t, Sub(s, t), spurious);
    if n == NO_NEW_SUBMIT {
      assert Sub(s', t) == Idle;
    } else if s.counter == n && !spurious {
      assert Sub(s', t) == Inside(q, op);
    } else {
      assert Sub(s', t) == Trying(q, op, s.counter);
    }
  }

  lemma TryKeepsOp(s: State, t: Tid, spurious: bool, op: Op)
    requires Sub(s, t).Trying? && SubmitterOk(s, t) && OpOk(s, op)
    ensures OpOk(DoSubmit(s, t, Sub(s, t), spurious), op)
  {
  }

  lemma TryKeepsInv(s: State, t: Tid, spurious: bool)
    requires Inv(s) && Sub(s, t).Trying?
    ensures Inv(DoSubmit(s, t, Sub(s, t), spurious))
  {
    var s' := DoSubmit(s, t, Sub(s, t), spurious);
    assert SubmitterOk(s, t);
    forall u
      ensures SubmitterOk(s', u)
    {
      assert SubmitterOk(s, u);
      TryKeepsThread(s, t, spurious, u);
    }
    forall o
      ensures OpOk(s', o)
    {
      assert OpOk(s, o);
      TryKeepsOp(s, t, spurious, o);
    }
    assert s'.inside == s.inside + {t} ==> |s'.inside| == |s.inside| + 1;
    SameQueuesKept(s, s');
  }

  lemma LeaveKeepsInv(s: State, t: Tid)
    requires Inv(s) && Sub(s, t).Leaving?
    ensures Inv(DoSubmit(s, t, Leaving, false))
  {
    var s' := DoSubmit(s, t, Leaving, false);
    assert SubmitterOk(s, t);
    assert |s'.inside| == |s.inside| - 1;
    SameQueuesKept(s, s');
    forall u
      ensures SubmitterOk(s', u)
    {
      assert SubmitterOk(s, u);
    }
    forall o
      ensures OpOk(s', o)
    {
      assert OpOk(s, o);
    }
  }

  lemma PushKeepsQueues(s: State, t: Tid, q: Queue, op: Op, p: Queue)
    requires SubmitterOk(s, t) && Sub(s, t) == Inside(q, op) && QueueOk(s, p) && FlowOk(s, p)
    ensures QueueOk(DoSubmit(s, t, Inside(q, op), false), p) && FlowOk(DoSubmit(s, t, Inside(q, op), false), p)
  {
    if p == q {
      assert ([op] + Of(s.stacks, q))[1..] == Of(s.stacks, q);
    }
  }

  lemma PushKeepsInv(s: State, t: Tid, q: Queue, op: Op)
    requires Inv(s) && Sub(s, t) == Inside(q, op)
    ensures Inv(DoSubmit(s, t, Inside(q, op), false))
  {
    var s' := DoSubmit(s, t, Inside(q, op), false);
    assert SubmitterOk(s, t) && OpOk(s, op);
    assert t in s.inside;
    assert !Closed(s);
    forall p
      ensures QueueOk(s', p) && FlowOk(s', p)
    {
      assert QueueOk(s, p) && FlowOk(s, p);
      PushKeepsQueues(s, t, q, op, p);
    }
    forall u
      ensures SubmitterOk(s', u)
    {
      assert SubmitterOk(s, u);
    }
    forall o
      ensures OpOk(s', o)
    {
      assert OpOk(s, o);
    }
  }

  // ----- the steps of the loop -----

  lemma LoopMoveKeepsThreads(s: State, s': State)
    requires Inv(s)
    requires s' == s.(counter := s'.counter, loop := s'.loop, stacks := s'.stacks, taken := s'.taken,
                      ringPending := s'.ringPending, timerPending := s'.timerPending)
    requires Closed(s) ==> Closed(s')
    ensures forall t :: SubmitterOk(s', t)
    ensures forall op :: OpOk(s', op)
  {
    forall t
      ensures SubmitterOk(s', t)
    {
      assert SubmitterOk(s, t);
    }
    forall op
      ensures OpOk(s', op)
    {
      assert OpOk(s, op);
    }
  }

  lemma CollectKeepsInv(s: State)
    requires Inv(s) && s.loop.Running?
    ensures Inv(Do(s, Collect))
    ensures Inv(Do(s, Close))
  {
    LoopMoveKeepsThreads(s, Do(s, Collect));
    LoopMoveKeepsThreads(s, Do(s, Close));
    forall q
      ensures QueueOk(Do(s, Collect), q) && FlowOk(Do(s, Collect), q)
      ensures QueueOk(Do(s, Close), q) && FlowOk(Do(s, Close), q)
    {
      assert QueueOk(s, q) && FlowOk(s, q);
    }
  }

  /** Whatever waits when the last collection begins waits in a registered queue. */
  lemma AllLeftToFold(s: State, q: Queue)
    requires QueueOk(s, q) && s.loop.Folding? && s.loop.kind.Ring? && s.loop.i == 0 && s.loop.r == |s.ringQueues|
    ensures LeftToFold(s, q)
  {
    if Of(s.stacks, q) != [] && q !in s.timerQueues {
      ReversedElements(Of(s.stacks, q));
      assert Of(s.pushed, q) != [];
      var k :| 0 <= k < |s.ringQueues| && s.ringQueues[k] == q;
    }
  }

  lemma CloseKeepsQueue(s: State, spurious: bool, q: Queue)
    requires s.loop.Closing? && QueueOk(s, q) && FlowOk(s, q) && DoClose(s, spurious) != s
    ensures QueueOk(DoClose(s, spurious), q) && FlowOk(DoClose(s, spurious), q) && LeftToFold(DoClose(s, spurious), q)
  {
    AllLeftToFold(DoClose(s, spurious), q);
  }

  lemma CloseKeepsInv(s: State, spurious: bool)
    requires Inv(s) && s.loop.Closing?
    ensures Inv(DoClose(s, spurious))
  {
    var s' := DoClose(s, spurious);
    if s' != s {
      LoopMoveKeepsThreads(s, s');
      forall q
        ensures QueueOk(s', q) && FlowOk(s', q) && LeftToFold(s', q)
      {
        assert QueueOk(s, q) && FlowOk(s, q);
        CloseKeepsQueue(s, spurious, q);
      }
    }
  }

  lemma BatchHome(s: State, q: Queue)
    requires QueueOk(s, q)
    ensures forall op :: op in Reversed(Of(s.stacks, q)) ==> op in s.home && s.home[op] == q
  {
    forall op | op in Reversed(Of(s.stacks, q))
      ensures op in s.home && s.home[op] == q
    {
      assert op in Of(s.pushed, q);
    }
  }

  /** The queue about to be folded. */
  ghost predicate NextQueue(s: State, q: Queue) {
    && s.loop.Folding? && s.loop.i < s.loop.r <= |Queues(s, s.loop.kind)|
    && q == Queues(s, s.loop.kind)[s.loop.i]
  }

  lemma TakeCollects(s: State, q: Queue, kind: Kind)
    requires s.loop.Folding?
    ensures Collected(TakeQueue(s, q), kind) ==
      Collected(s, kind) + if kind == s.loop.kind then Reversed(Of(s.stacks, q)) else []
  {
  }

  lemma TakeKeepsQueue(s: State, q: Queue, p: Queue)
    requires s.loop.Folding? && QueueOk(s, p)
    ensures QueueOk(TakeQueue(s, q), p)
  {
  }

  lemma BatchFlows(home: map<Op, Queue>, list: seq<Op>, batch: seq<Op>, q: Queue, p: Queue)
    requires forall op :: op in batch ==> op in home && home[op] == q
    ensures From(home, list + batch, p) == From(home, list, p) + if p == q then batch else []
  {
    FromAppend(home, list, batch, p);
    FromBatch(home, batch, q, p);
  }

  lemma TakeKeepsFlowOf(s: State, q: Queue, p: Queue, kind: Kind)
    requires NextQueue(s, q) && QueueOk(s, q) && FlowOk(s, q) && FlowOk(s, p) && p in Queues(s, kind)
    ensures From(s.home, Collected(TakeQueue(s, q), kind), p) == Of(TakeQueue(s, q).taken, p)
  {
    var batch := Reversed(Of(s.stacks, q));
    BatchHome(s, q);
    TakeCollects(s, q, kind);
    BatchFlows(s.home, Collected(s, kind), batch, q, p);
    assert From(s.home, Collected(s, kind), p) == Of(s.taken, p);
    if kind != s.loop.kind {
      assert q in Queues(s, s.loop.kind);
      assert p != q;
      assert Collected(s, kind) + [] == Collected(s, kind);
    }
  }

  lemma TakeKeepsFlow(s: State, q: Queue, p: Queue)
    requires NextQueue(s, q) && QueueOk(s, q) && FlowOk(s, q) && FlowOk(s, p)
    ensures FlowOk(TakeQueue(s, q), p)
  {
    if p in Queues(s, Ring) {
      TakeKeepsFlowOf(s, q, p, Ring);
    }
    if p in Queues(s, Timer) {
      TakeKeepsFlowOf(s, q, p, Timer);
    }
  }

  lemma TakeKeepsCollected(s: State, q: Queue, kind: Kind)
    requires NextQueue(s, q) && QueueOk(s, q) && CollectedOk(s, kind)
    ensures CollectedOk(TakeQueue(s, q), kind)
  {
    TakeCollects(s, q, kind);
    BatchHome(s, q);
  }

  lemma TakeKeepsLeft(s: State, q: Queue, p: Queue)
    requires NextQueue(s, q) && LeftToFold(s, p)
    ensures LeftToFold(TakeQueue(s, q), p)
  {
    var s', queues := TakeQueue(s, q), Queues(s, s.loop.kind);
    assert Of(s'.stacks, q) == [];
    if p != q && Of(s.stacks, p) != [] {
      assert Of(s'.stacks, p) == Of(s.stacks, p);
      if p in queues[s.loop.i..s.loop.r] {
        var k :| s.loop.i <= k < s.loop.r && queues[k] == p;
        assert k != s.loop.i;
      }
    }
  }

  lemma TakeKeepsInv(s: State, q: Queue)
    requires Inv(s) && NextQueue(s, q)
    ensures Inv(TakeQueue(s, q))
  {
    var s' := TakeQueue(s, q);
    assert QueueOk(s, q) && FlowOk(s, q);
    LoopMoveKeepsThreads(s, s');
    TakeKeepsCollected(s, q, Ring);
    TakeKeepsCollected(s, q, Timer);
    forall p
      ensures QueueOk(s', p) && FlowOk(s', p)
    {
      assert QueueOk(s, p) && FlowOk(s, p);
      TakeKeepsQueue(s, q, p);
      TakeKeepsFlow(s, q, p);
    }
    forall p | s.loop.last
      ensures LeftToFold(s', p)
    {
      assert LeftToFold(s, p);
      TakeKeepsLeft(s, q, p);
    }
  }

  lemma EndCollects(s: State, kind: Kind)
    requires s.loop.Folding?
    ensures Collected(EndFold(s), kind) == Collected(s, kind)
  {
  }

  lemma EndKeepsQueue(s: State, p: Queue)
    requires s.loop.Folding? && QueueOk(s, p) && FlowOk(s, p)
    ensures QueueOk(EndFold(s), p) && FlowOk(EndFold(s), p)
  {
    EndCollects(s, Ring);
    EndCollects(s, Timer);
  }

  lemma EndKeepsLeft(s: State, p: Queue)
    requires s.loop.Folding? && s.loop.i >= s.loop.r && LeftToFold(s, p)
    ensures LeftToFold(EndFold(s), p)
  {
    if s.loop.kind.Ring? && p in s.timerQueues {
      var k :| 0 <= k < |s.timerQueues| && s.timerQueues[k] == p;
    }
  }

  lemma EndKeepsInv(s: State)
    requires Inv(s) && s.loop.Folding? && s.loop.i >= s.loop.r
    ensures Inv(EndFold(s))
  {
    var s' := EndFold(s);
    LoopMoveKeepsThreads(s, s');
    EndCollects(s, Ring);
    EndCollects(s, Timer);
    forall p
      ensures QueueOk(s', p) && FlowOk(s', p)
    {
      assert QueueOk(s, p) && FlowOk(s, p);
      EndKeepsQueue(s, p);
    }
    forall p | s.loop.last
      ensures LeftToFold(s', p)
    {
      assert LeftToFold(s, p);
      EndKeepsLeft(s, p);
    }
  }

  /** Every step of every submitter and of the loop keeps the invariant. */
  lemma StepKeepsInv(s: State, step: Step)
    requires Inv(s) && Enabled(s, step)
    ensures Inv(Do(s, step))
  {
    match step {
      case Register(q, kind) => RegisterKeepsInv(s, q, kind);
      case Submit(t, q, op) => SubmitKeepsInv(s, t, q, op);
      case Continue(t, spurious) =>
        match Sub(s, t) {
          case Trying(_, _, _) => TryKeepsInv(s, t, spurious);
          case Inside(q, op) => PushKeepsInv(s, t, q, op);
          case Leaving => LeaveKeepsInv(s, t);
        }
      case Collect => CollectKeepsInv(s);
      case Close => CollectKeepsInv(s);
      case Turn(spurious) =>
        if s.loop.Closing? {
          CloseKeepsInv(s, spurious);
        } else if s.loop.i < s.loop.r {
          TakeKeepsInv(s, Queues(s, s.loop.kind)[s.loop.i]);
        } else {
          EndKeepsInv(s);
        }
    }
  }

  // ----- runs -----

  ghost predicate StepAt(run: seq<State>, i: nat)
    requires i + 1 < |run|
  {
    exists step :: Enabled(run[i], step) && run[i + 1] == Do(run[i], step)
  }

  /** Any interleaving of any number of submitters, registrations and collections. */
  ghost predicate Run(run: seq<State>) {
    |run| >= 1 && Init(run[0]) && forall i :: 0 <= i < |run| - 1 ==> StepAt(run, i)
  }

  lemma InitHolds(s: State)
    requires Init(s)
    ensures Inv(s)
  {
    forall q
      ensures QueueOk(s, q) && FlowOk(s, q)
    {
    }
  }

  lemma StepAtKeepsInv(run: seq<State>, i: nat)
    requires i + 1 < |run| && StepAt(run, i) && Inv(run[i])
    ensures Inv(run[i + 1])
  {
    var step :| Enabled(run[i], step) && run[i + 1] == Do(run[i], step);
    StepKeepsInv(run[i], step);
  }

  lemma {:induction false} RunKeepsInv(run: seq<State>, i: nat)
    requires Run(run) && i < |run|
    ensures Inv(run[i])
  {
    if i == 0 {
      InitHolds(run[0]);
    } else {
      RunKeepsInv(run, i - 1);
      StepAtKeepsInv(run, i - 1);
    }
  }

  /** The counter is the number of submitters between their increment and their decrement,
      or it is -1 and there is none. */
  lemma CounterCountsSubmitters(run: seq<State>, i: nat)
    requires Run(run) && i < |run|
    ensures
      var s := run[i];
      && (forall t :: t in s.inside <==> IsInside(Sub(s, t)))
      && (s.counter == |s.inside| || (s.counter == NO_NEW_SUBMIT && s.inside == {}))
  {
    RunKeepsInv(run, i);
    var s := run[i];
    forall t
      ensures t in s.inside <==> IsInside(Sub(s, t))
    {
      assert SubmitterOk(s, t);
    }
  }

  /** Within each queue, collection keeps the order of the pushes: over all rounds nothing is lost,
      duplicated or reordered, and what is not collected waits in the stack, newest first. */
  lemma CollectedInPushOrder(run: seq<State>, i: nat, q: Queue, kind: Kind)
    requires Run(run) && i < |run| && q in Queues(run[i], kind)
    ensures
      var s := run[i];
      Of(s.pushed, q) == From(s.home, Collected(s, kind), q) + Reversed(Of(s.stacks, q))
  {
    RunKeepsInv(run, i);
    assert QueueOk(run[i], q) && FlowOk(run[i], q);
  }

  lemma {:induction false} FromCounts(home: map<Op, Queue>, list: seq<Op>, op: Op)
    requires op in home
    ensures multiset(From(home, list, home[op]))[op] == multiset(list)[op]
  {
    if list != [] {
      FromCounts(home, list[1..], op);
      assert list == [list[0]] + list[1..];
    }
  }

  /** How often an operation has been collected. */
  function TimesCollected(s: State, op: Op): nat {
    multiset(Collected(s, Ring))[op] + multiset(Collected(s, Timer))[op]
  }

  lemma NotInKind(s: State, kind: Kind, op: Op)
    requires CollectedOk(s, kind) && op in s.home && s.home[op] !in Queues(s, kind)
    ensures multiset(Collected(s, kind))[op] == 0
  {
    assert op !in Collected(s, kind);
  }

  lemma CountInKind(s: State, kind: Kind, op: Op)
    requires op in s.home && FlowOk(s, s.home[op]) && QueueOk(s, s.home[op]) && s.home[op] in Queues(s, kind)
    ensures multiset(Collected(s, kind))[op] == if op in Of(s.taken, s.home[op]) then 1 else 0
  {
    var q := s.home[op];
    FromCounts(s.home, Collected(s, kind), op);
    var taken := Of(s.taken, q);
    assert taken == Of(s.pushed, q)[..|taken|];
    forall i, j | 0 <= i < |taken| && 0 <= j < |taken| && i != j
      ensures Differ(taken, i, j)
    {
    }
    DistinctCounts(Of(s.taken, q), op);
  }

  /** Shutdown loses no request: when the loop has stopped, every operation that its submitter has let
      go of was either stopped by that submitter or collected, and collected exactly once. */
  lemma NothingLostAtShutdown(run: seq<State>, i: nat, op: Op)
    requires Run(run) && i < |run| && run[i].loop.Stopped?
    requires op in run[i].home && forall t :: !HoldsOp(Sub(run[i], t), op)
    ensures op in run[i].stopped <==> TimesCollected(run[i], op) == 0
    ensures op !in run[i].stopped <==> TimesCollected(run[i], op) == 1
  {
    RunKeepsInv(run, i);
    var s := run[i];
    var q := s.home[op];
    assert OpOk(s, op) && QueueOk(s, q) && FlowOk(s, q) && LeftToFold(s, q);
    assert Of(s.stacks, q) == [];
    assert Of(s.taken, q) == Of(s.pushed, q);
    assert op in Of(s.taken, q) <==> op !in s.stopped;
    forall kind: Kind
      ensures multiset(Collected(s, kind))[op] ==
        if q in Queues(s, kind) && op in Of(s.taken, q) then 1 else 0
    {
      if q in Queues(s, kind) {
        CountInKind(s, kind, op);
      } else {
        NotInKind(s, kind, op);
      }
    }
    assert multiset(Collected(s, Ring))[op] == if q in Queues(s, Ring) && op in Of(s.taken, q) then 1 else 0;
    assert multiset(Collected(s, Timer))[op] == if q in Queues(s, Timer) && op in Of(s.taken, q) then 1 else 0;
    assert Of(s.pushed, q) != [] ==> q in s.ringQueues || q in s.timerQueues;
  }

  /** Before the loop closes the counter, no submitter stops its own operation. */
  lemma StoppedOnlyAfterClose(run: seq<State>, i: nat, op: Op)
    requires Run(run) && i < |run| && op in run[i].stopped
    ensures run[i].counter == NO_NEW_SUBMIT
    ensures op !in Collected(run[i], Ring) && op !in Collected(run[i], Timer)
  {
    RunKeepsInv(run, i);
    var s := run[i];
    assert OpOk(s, op);
    var q := s.home[op];
    assert QueueOk(s, q) && FlowOk(s, q);
    forall kind: Kind
      ensures op !in Collected(s, kind)
    {
      if q in Queues(s, kind) {
        CountInKind(s, kind, op);
        assert op in multiset(Collected(s, kind)) <==> op in Of(s.taken, q);
        assert op in Of(s.taken, q) ==> op in Of(s.pushed, q);
      }
    }
  }

  // ----- one collection without interference -----

  /** The pending operations of the queues from index i on: the queues in the order of registration,
      each in the order of its pushes. */
  function PendingFrom(s: State, queues: seq<Queue>): seq<Op> {
    if queues == [] then [] else Reversed(Of(s.stacks, queues[0])) + PendingFrom(s, queues[1..])
  }

  /** Runs the collection of one kind to its end. */
  function FoldAlone(s: State): State
    requires s.loop.Folding?
    decreases if s.loop.r <= |Queues(s, s.loop.kind)| then s.loop.r - s.loop.i else 0
  {
    if s.loop.i < s.loop.r <= |Queues(s, s.loop.kind)| then FoldAlone(DoFold(s)) else DoFold(s)
  }

  lemma {:induction false} PendingUnchanged(s: State, s': State, queues: seq<Queue>)
    requires forall q :: q in queues ==> Of(s'.stacks, q) == Of(s.stacks, q)
    ensures PendingFrom(s', queues) == PendingFrom(s, queues)
  {
    if queues != [] {
      assert queues[0] in queues;
      forall q | q in queues[1..] ensures q in queues { }
      PendingUnchanged(s, s', queues[1..]);
    }
  }

  lemma TakePending(s: State, queues: seq<Queue>, i: nat, r: nat)
    requires s.loop.Folding? && i < r <= |queues|
    requires forall j :: i < j < r ==> queues[j] != queues[i]
    ensures
      var s' := TakeQueue(s, queues[i]);
      s'.loop.acc + PendingFrom(s', queues[i + 1..r]) == s.loop.acc + PendingFrom(s, queues[i..r])
  {
    var s' := TakeQueue(s, queues[i]);
    assert queues[i..r][1..] == queues[i + 1..r];
    PendingUnchanged(s, s', queues[i + 1..r]);
  }

  lemma Associative(a: seq<Op>, b: seq<Op>, c: seq<Op>)
    ensures a + b + c == a + (b + c)
  {
  }

  lemma FoldAloneNext(s: State)
    requires s.loop.Folding? && s.loop.i <= s.loop.r <= |Queues(s, s.loop.kind)|
    ensures FoldAlone(s) ==
      if s.loop.i < s.loop.r then FoldAlone(TakeQueue(s, Queues(s, s.loop.kind)[s.loop.i])) else EndFold(s)
  {
  }

  /** A collection that nobody disturbs appends exactly what is pending, queue by queue in the order of registration. */
  lemma {:induction false} FoldAloneCollects(s: State)
    requires s.loop.Folding? && s.loop.i <= s.loop.r <= |Queues(s, s.loop.kind)| && Distinct(Queues(s, s.loop.kind))
    ensures PendingOf(FoldAlone(s), s.loop.kind) == PendingOf(s, s.loop.kind) + s.loop.acc +
      PendingFrom(s, Queues(s, s.loop.kind)[s.loop.i..s.loop.r])
    decreases s.loop.r - s.loop.i
  {
    var queues, i, r := Queues(s, s.loop.kind), s.loop.i, s.loop.r;
    FoldAloneNext(s);
    if i < r {
      forall j | i < j < r
        ensures queues[j] != queues[i]
      {
        assert Differ(queues, i, j);
      }
      var s' := TakeQueue(s, queues[i]);
      TakePending(s, queues, i, r);
      FoldAloneCollects(s');
      Associative(PendingOf(s, s.loop.kind), s'.loop.acc, PendingFrom(s', queues[i + 1..r]));
      Associative(PendingOf(s, s.loop.kind), s.loop.acc, PendingFrom(s, queues[i..r]));
    }
  }
}

/** Runs of the scheduler against the kernel over the submission and completion rings, without cancellation: operations
    are queued, placed, consumed, completed any number of times with more to come, and completed for the last time. */
module RingRuns {
  import opened SubmissionRing

  /** A completion; `more` says that another one of the same operation follows. */
  datatype Cqe = Cqe(op: Op, more: bool)

  datatype CqRing = CqRing(head: nat, tail: nat, cqes: seq<Cqe>)

  datatype Pc =
    | Idle
    | Submitting(tail: nat, r: nat, max: nat, stop: bool)
    | Entering(consumed: nat)
    | Completing(head: nat, tail: nat, n: nat)

  /** Where an operation is between its placement and its last completion: at a position of the submission ring, with
      the kernel, or in the last completion, at a position of the completion ring. */
  datatype Place = Ringed(k: nat) | Kernel | Ending(k: nat)

  datatype State = State(
    pending: seq<Op>,
    sq: Ring,
    cq: CqRing,
    pc: Pc,
    total: int,                // __n_total_submit_
    newly: int,                // __n_newly_submit_
    ops: map<Op, int>,         // __n_ops_ of every operation
    // history
    place: map<Op, Place>,
    submitted: seq<Op>,        // every operation placed in the ring, by absolute position
    consumed: nat,             // how many the kernel has consumed
    posted: seq<Cqe>,          // every completion, by absolute position
    handled: nat,              // how many the scheduler has handled
    released: nat,             // how many it has told the kernel that it has handled
    seen: nat,                 // how many it knows to be posted
    called: seq<Cqe>,          // completions that reached their operation
    stopped: seq<Op>,          // operations stopped instead of submitted
    forgotten: nat)            // placements that a timed-out enter call has dropped from the count

  function Slots(s: State): nat {
    |s.sq.sqes|
  }

  function Entries(s: State): nat {
    |s.cq.cqes|
  }

  ghost predicate Init(s: State) {
    && Shape(s.sq) && Size(Entries(s)) && s.sq.head == s.sq.tail == s.cq.head == s.cq.tail == 0
    && s.pending == [] && s.pc.Idle? && s.total == s.newly == 0 && s.place == map[]
    && s.submitted == [] && s.posted == [] && s.called == [] && s.stopped == []
    && s.consumed == s.handled == s.released == s.seen == s.forgotten == 0
  }

  datatype Step =
    | Enqueue(op: Op, front: bool)
    | BeginSubmit(stop: bool)
    | Place
    | EndSubmit
    | BeginEnter
    | Consume
    | EndEnter
    | TimeOut
    | Post(op: Op, more: bool)
    | BeginComplete
    | Handle
    | EndComplete

  predicate Placeable(s: State) {
    s.pc.Submitting? && s.pending != [] && s.pc.r < s.pc.max
  }

  predicate Enabled(s: State, step: Step) {
    && Shape(s.sq) && Entries(s) > 0
    && match step
       case Enqueue(op, _) => op !in s.pending && op !in s.place
       case BeginSubmit(_) => s.pc.Idle?
       case Place => Placeable(s)
       case EndSubmit => s.pc.Submitting? && !Placeable(s)
       case BeginEnter => s.pc.Idle?
       case Consume => s.pc.Entering? && s.pc.consumed < s.newly && s.sq.head != s.sq.tail
       case EndEnter => s.pc.Entering?
       case TimeOut => s.pc.Entering? && s.pc.consumed == 0
       case Post(op, _) => op in s.place && s.place[op].Kernel? && Minus(s.cq.tail, s.cq.head) < Entries(s)
       case BeginComplete => s.pc.Idle?
       case Handle => s.pc.Completing? && s.pc.head != s.pc.tail
       case EndComplete => s.pc.Completing? && s.pc.head == s.pc.tail
  }

  function Do(s: State, step: Step): State
    requires Enabled(s, step)
  {
    match step
    case Enqueue(op, front) => s.(pending := if front then [op] + s.pending else s.pending + [op])
    case BeginSubmit(stop) =>
      s.(pc := Submitting(s.sq.tail, 0, Room(s.sq, (Entries(s) - s.total) % U32), stop))
    case Place => DoPlace(s)
    case EndSubmit =>
      s.(pc := Idle, sq := s.sq.(tail := s.pc.tail), total := s.total + s.pc.r, newly := s.newly + s.pc.r)
    case BeginEnter => s.(pc := Entering(0))
    case Consume => DoConsume(s)
    case EndEnter => s.(pc := Idle, newly := s.newly - s.pc.consumed)
    case TimeOut => s.(pc := Idle, newly := 0, forgotten := s.forgotten + if s.newly > 0 then s.newly else 0)
    case Post(op, more) => DoPost(s, op, more)
    case BeginComplete => s.(pc := Completing(s.cq.head, s.cq.tail, 0), seen := |s.posted|)
    case Handle => DoHandle(s)
    case EndComplete =>
      s.(pc := Idle, cq := s.cq.(head := s.pc.head), total := s.total - s.pc.n, released := s.handled)
  }

  /** One round of the submission loop. */
  function DoPlace(s: State): State
    requires Shape(s.sq) && Placeable(s)
  {
    var op := s.pending[0];
    var s1 := s.(pending := s.pending[1..], ops := s.ops[op := 1]);
    if s.pc.stop then
      s1.(sq := Prepared(s.sq, s.pc.tail, op), ops := s.ops[op := 0], stopped := s.stopped + [op])
    else
      s1.(sq := Placed(s.sq, s.pc.tail, op), pc := s.pc.(tail := (s.pc.tail + 1) % U32, r := s.pc.r + 1),
          place := s.place[op := Ringed(|s.submitted|)], submitted := s.submitted + [op])
  }

  /** The entry at the kernel's head. */
  function HeadEntry(s: State): Sqe
    requires Shape(s.sq)
  {
    var i := s.sq.indices[s.sq.head % Slots(s)];
    s.sq.sqes[i % Slots(s)]
  }

  function DoConsume(s: State): State
    requires Shape(s.sq) && s.pc.Entering?
  {
    s.(sq := s.sq.(head := (s.sq.head + 1) % U32), pc := Entering(s.pc.consumed + 1),
       place := s.place[HeadEntry(s).userData := Kernel], consumed := s.consumed + 1)
  }

  function DoPost(s: State, op: Op, more: bool): State
    requires Entries(s) > 0
  {
    var i := s.cq.tail % Entries(s);
    s.(cq := s.cq.(cqes := s.cq.cqes[i := Cqe(op, more)], tail := (s.cq.tail + 1) % U32),
       place := s.place[op := if more then Kernel else Ending(|s.posted|)],
       posted := s.posted + [Cqe(op, more)])
  }

  function OpsOf(s: State, op: Op): int {
    if op in s.ops then s.ops[op] else 0
  }

  /** One round of the completion loop: the operation is called if more is to come while its count is 1, or if it is the
      one to bring its count to 0. */
  function DoHandle(s: State): State
    requires s.pc.Completing? && Entries(s) > 0
  {
    var cqe := s.cq.cqes[s.pc.head % Entries(s)];
    var count := OpsOf(s, cqe.op);
    var stays := cqe.more && count == 1;
    s.(ops := if stays then s.ops else s.ops[cqe.op := count - 1],
       called := if stays || count == 1 then s.called + [cqe] else s.called,
       pc := Completing((s.pc.head + 1) % U32, s.cq.tail, s.pc.n + if cqe.more then 0 else 1),
       place := if cqe.more then s.place else s.place - {cqe.op},
       handled := s.handled + 1, seen := |s.posted|)
  }

  // ----- the invariant -----

  /** Placements not yet counted, and last completions not yet counted. */
  function Uncounted(s: State): nat {
    if s.pc.Submitting? then s.pc.r else 0
  }

  function Ended(s: State): nat {
    if s.pc.Completing? then s.pc.n else 0
  }

  function Published(s: State): int {
    |s.submitted| - Uncounted(s)
  }

  /** Position k of the submission ring. */
  ghost predicate SlotOk(s: State, k: nat)
    requires Shape(s.sq) && k < |s.submitted|
  {
    var m := k % Slots(s);
    && s.sq.indices[m] == m && s.sq.sqes[m] == Sqe(s.submitted[k], s.submitted[k])
    && s.submitted[k] in s.place && s.place[s.submitted[k]] == Ringed(k)
  }

  ghost predicate SqOk(s: State) {
    && Shape(s.sq)
    && s.consumed <= Published(s) && |s.submitted| <= s.consumed + Slots(s)
    && s.sq.head == s.consumed % U32 && s.sq.tail == Published(s) % U32
    && forall k: nat :: s.consumed <= k < |s.submitted| ==> SlotOk(s, k)
  }

  /** Position k of the completion ring. */
  ghost predicate CqeOk(s: State, k: nat)
    requires 0 < Entries(s) && k < |s.posted|
  {
    var cqe := s.posted[k];
    && s.cq.cqes[k % Entries(s)] == cqe && cqe.op in s.place
    && (if cqe.more then s.place[cqe.op].Kernel? || (s.place[cqe.op].Ending? && s.place[cqe.op].k > k)
        else s.place[cqe.op] == Ending(k))
  }

  ghost predicate CqOk(s: State) {
    && Size(Entries(s))
    && s.released <= s.handled <= s.seen <= |s.posted| <= s.released + Entries(s)
    && s.cq.head == s.released % U32 && s.cq.tail == |s.posted| % U32
    && forall k: nat :: s.handled <= k < |s.posted| ==> CqeOk(s, k)
  }

  ghost predicate PcOk(s: State) {
    match s.pc
    case Idle => s.released == s.handled
    case Submitting(tail, r, max, stop) =>
      && s.released == s.handled && tail == |s.submitted| % U32 && r <= max && (stop ==> r == 0)
      && max + Published(s) <= s.consumed + Slots(s) && max + s.total <= Entries(s)
    case Entering(consumed) => s.released == s.handled && consumed <= s.newly
    case Completing(head, tail, n) =>
      && head == s.handled % U32 && tail == s.seen % U32 && s.released + n <= s.handled
      && s.handled <= |s.posted|
      && ((forall k :: s.released <= k < s.handled ==> !s.posted[k].more) ==> s.released + n == s.handled)
  }

  ghost predicate OpOk(s: State, op: Op) {
    && (op in s.place ==> op !in s.pending && OpsOf(s, op) == 1)
    && (op in s.place ==>
      match s.place[op]
      case Ringed(k) => s.consumed <= k < |s.submitted| && s.submitted[k] == op
      case Kernel => true
      case Ending(k) => s.handled <= k < |s.posted| && s.posted[k] == Cqe(op, false))
  }

  ghost predicate PendingOnce(s: State) {
    forall i, j :: 0 <= i < j < |s.pending| ==> s.pending[i] != s.pending[j]
  }

  ghost predicate CountsOk(s: State) {
    && s.total + Uncounted(s) == |s.place| + Ended(s)
    && s.total + Uncounted(s) <= Entries(s) && s.total >= 0
    && s.newly + s.forgotten + (if s.pc.Entering? then s.consumed - s.pc.consumed else s.consumed) == Published(s)
    && s.newly >= 0
  }

  ghost predicate CalledOk(s: State) {
    s.handled <= |s.posted| && s.called == s.posted[..s.handled]
  }

  ghost predicate Inv(s: State) {
    && SqOk(s) && CqOk(s) && PcOk(s) && PendingOnce(s) && CountsOk(s) && CalledOk(s)
    && forall op :: OpOk(s, op)
  }

  // ----- arithmetic of positions -----

  lemma Distance(a: nat, b: nat)
    requires a <= b < a + U32
    ensures Minus(b % U32, a % U32) == b - a
  {
  }

  lemma SmallMinus(a: nat, b: nat)
    requires b <= a < U32
    ensures Minus(a, b) == a - b
  {
  }

  /** Positions less than one turn apart use different places. */
  lemma DifferentPlaces(a: nat, b: nat, n: nat)
    requires a < b < a + n
    ensures a % n != b % n
  {
    OtherSlots(a, 0, b - a, n);
  }

  // ----- what a step leaves alone -----

  lemma SqKept(s: State, s': State)
    requires SqOk(s) && s'.sq == s.sq && s'.submitted == s.submitted && s'.consumed == s.consumed && s'.place == s.place
    requires Uncounted(s') == Uncounted(s)
    ensures SqOk(s')
  {
    forall k: nat | s.consumed <= k < |s.submitted|
      ensures SlotOk(s', k)
    {
      assert SlotOk(s, k);
    }
  }

  lemma CqKept(s: State, s': State)
    requires CqOk(s) && s'.cq == s.cq && s'.posted == s.posted && s'.place == s.place
    requires s'.released == s.released && s'.handled == s.handled && s.seen <= s'.seen <= |s.posted|
    ensures CqOk(s')
  {
    forall k: nat | s.handled <= k < |s.posted|
      ensures CqeOk(s', k)
    {
      assert CqeOk(s, k);
    }
  }

  lemma OpsKept(s: State, s': State)
    requires (forall op :: OpOk(s, op)) && s'.pending == s.pending && s'.ops == s.ops && s'.place == s.place
    requires s'.submitted == s.submitted && s'.consumed == s.consumed && s'.posted == s.posted
      && s'.handled == s.handled
    ensures forall op :: OpOk(s', op)
  {
    forall op
      ensures OpOk(s', op)
    {
      assert OpOk(s, op);
    }
  }

  // ----- the beginnings and ends of loops -----

  lemma RoomIs(s: State)
    requires SqOk(s) && Uncounted(s) == 0 && 0 <= s.total <= Entries(s) < U32
    ensures Room(s.sq, (Entries(s) - s.total) % U32) == Min(Entries(s) - s.total,
      Slots(s) - (|s.submitted| - s.consumed))
  {
    Distance(s.consumed, |s.submitted|);
    SmallMinus(Slots(s), |s.submitted| - s.consumed);
    SmallMinus(Entries(s), s.total);
  }

  lemma BeginSubmitKeepsInv(s: State, stop: bool)
    requires Inv(s) && s.pc.Idle?
    ensures Inv(Do(s, BeginSubmit(stop)))
  {
    var s' := Do(s, BeginSubmit(stop));
    RoomIs(s);
    SqKept(s, s');
    CqKept(s, s');
    OpsKept(s, s');
  }

  lemma EndSubmitKeepsInv(s: State)
    requires Inv(s) && Enabled(s, EndSubmit)
    ensures Inv(Do(s, EndSubmit))
  {
    var s' := Do(s, EndSubmit);
    CqKept(s, s');
    OpsKept(s, s');
    forall k: nat | s.consumed <= k < |s.submitted|
      ensures SlotOk(s', k)
    {
      assert SlotOk(s, k);
    }
  }

  lemma EnterKeepsInv(s: State, step: Step)
    requires Inv(s) && Enabled(s, step) && (step.BeginEnter? || step.EndEnter? || step.TimeOut?)
    ensures Inv(Do(s, step))
  {
    var s' := Do(s, step);
    SqKept(s, s');
    CqKept(s, s');
    OpsKept(s, s');
  }

  lemma BeginCompleteKeepsInv(s: State)
    requires Inv(s) && Enabled(s, BeginComplete)
    ensures Inv(Do(s, BeginComplete))
  {
    var s' := Do(s, BeginComplete);
    SqKept(s, s');
    CqKept(s, s');
    OpsKept(s, s');
  }

  lemma EndCompleteKeepsInv(s: State)
    requires Inv(s) && Enabled(s, EndComplete)
    ensures Inv(Do(s, EndComplete))
  {
    var s' := Do(s, EndComplete);
    SqKept(s, s');
    OpsKept(s, s');
    forall k: nat | s.handled <= k < |s.posted|
      ensures CqeOk(s', k)
    {
      assert CqeOk(s, k);
    }
  }

  lemma EnqueueKeepsInv(s: State, op: Op, front: bool)
    requires Inv(s) && Enabled(s, Enqueue(op, front))
    ensures Inv(Do(s, Enqueue(op, front)))
  {
    var s' := Do(s, Enqueue(op, front));
    SqKept(s, s');
    CqKept(s, s');
    forall o
      ensures OpOk(s', o)
    {
      assert OpOk(s, o);
    }
  }

  // ----- placing -----

  /** There is room for the next entry: no entry that the kernel has yet to consume is at its place. */
  lemma NothingOverwritten(s: State, k: nat)
    requires SqOk(s) && PcOk(s) && Placeable(s) && s.consumed <= k < |s.submitted|
    ensures s.pc.tail % Slots(s) != k % Slots(s)
  {
    MaskOfWrapped(|s.submitted|, Slots(s));
    DifferentPlaces(k, |s.submitted|, Slots(s));
  }

  lemma PlaceKeepsSq(s: State)
    requires SqOk(s) && PcOk(s) && Placeable(s) && s.pending[0] !in s.place
    ensures SqOk(DoPlace(s))
  {
    var s' := DoPlace(s);
    MaskOfWrapped(|s.submitted|, Slots(s));
    forall k: nat | s.consumed <= k < |s'.submitted|
      ensures SlotOk(s', k)
    {
      if k < |s.submitted| {
        assert SlotOk(s, k);
        NothingOverwritten(s, k);
      }
    }
  }

  lemma PlaceKeepsCq(s: State)
    requires CqOk(s) && Shape(s.sq) && Placeable(s) && s.pending[0] !in s.place
    ensures CqOk(DoPlace(s))
  {
    var s' := DoPlace(s);
    forall k: nat | s.handled <= k < |s.posted|
      ensures CqeOk(s', k)
    {
      assert CqeOk(s, k);
    }
  }

  lemma PlaceKeepsOp(s: State, op: Op)
    requires Shape(s.sq) && Placeable(s) && s.pending[0] !in s.place && OpOk(s, op) && PendingOnce(s)
    requires s.consumed <= |s.submitted|
    ensures OpOk(DoPlace(s), op)
  {
  }

  lemma PlaceKeepsPc(s: State)
    requires Shape(s.sq) && PcOk(s) && Placeable(s)
    ensures PcOk(DoPlace(s))
  {
    if !s.pc.stop {
      NextPosition(|s.submitted|);
    }
  }

  lemma PlaceKeepsCounts(s: State)
    requires Shape(s.sq) && PcOk(s) && CountsOk(s) && Placeable(s) && s.pending[0] !in s.place
    ensures CountsOk(DoPlace(s))
  {
    if !s.pc.stop {
      var place' := DoPlace(s).place;
      assert place'.Keys == s.place.Keys + {s.pending[0]};
      KeysCount(place');
      KeysCount(s.place);
    }
  }

  lemma PlaceKeepsInv(s: State)
    requires Inv(s) && Placeable(s)
    ensures Inv(DoPlace(s))
  {
    var s' := DoPlace(s);
    assert OpOk(s, s.pending[0]);
    PlaceKeepsSq(s);
    PlaceKeepsCq(s);
    PlaceKeepsPc(s);
    PlaceKeepsCounts(s);
    forall op
      ensures OpOk(s', op)
    {
      assert OpOk(s, op);
      PlaceKeepsOp(s, op);
    }
  }

  lemma KeysCount<K, V>(m: map<K, V>)
    ensures |m.Keys| == |m|
  {
  }

  // ----- the kernel -----

  /** The kernel finds the operations in the order in which they were placed, each as it was prepared. */
  lemma HeadIsNext(s: State)
    requires SqOk(s) && s.sq.head != s.sq.tail
    ensures s.consumed < Published(s) && HeadEntry(s) == Sqe(s.submitted[s.consumed], s.submitted[s.consumed])
  {
    MaskOfWrapped(s.consumed, Slots(s));
    SmallMask(s.consumed % Slots(s), Slots(s));
    assert SlotOk(s, s.consumed);
  }

  lemma SmallMask(m: nat, n: nat)
    requires m < n
    ensures m % n == m
  {
  }

  lemma ConsumeKeepsSq(s: State)
    requires SqOk(s) && s.pc.Entering? && s.sq.head != s.sq.tail
    ensures SqOk(DoConsume(s))
  {
    var s' := DoConsume(s);
    HeadIsNext(s);
    NextPosition(s.consumed);
    assert SlotOk(s, s.consumed);
    forall k: nat | s'.consumed <= k < |s.submitted|
      ensures SlotOk(s', k)
    {
      assert SlotOk(s, k);
    }
  }

  lemma ConsumeKeepsInv(s: State)
    requires Inv(s) && Enabled(s, Consume)
    ensures Inv(Do(s, Consume))
  {
    var s' := DoConsume(s);
    HeadIsNext(s);
    ConsumeKeepsSq(s);
    assert SlotOk(s, s.consumed);
    assert s'.place.Keys == s.place.Keys;
    KeysCount(s'.place);
    KeysCount(s.place);
    forall k: nat | s.handled <= k < |s.posted|
      ensures CqeOk(s', k)
    {
      assert CqeOk(s, k);
    }
    forall op
      ensures OpOk(s', op)
    {
      assert OpOk(s, op);
    }
  }

  lemma PostKeepsCq(s: State, op: Op, more: bool)
    requires CqOk(s) && op in s.place && s.place[op].Kernel? && Minus(s.cq.tail, s.cq.head) < Entries(s)
    ensures CqOk(DoPost(s, op, more))
  {
    var s' := DoPost(s, op, more);
    Distance(s.released, |s.posted|);
    NextPosition(|s.posted|);
    MaskOfWrapped(|s.posted|, Entries(s));
    forall k: nat | s.handled <= k < |s'.posted|
      ensures CqeOk(s', k)
    {
      if k < |s.posted| {
        assert CqeOk(s, k);
        DifferentPlaces(k, |s.posted|, Entries(s));
      }
    }
  }

  lemma PostKeepsPc(s: State, op: Op, more: bool)
    requires PcOk(s) && CqOk(s) && CalledOk(s) && op in s.place
    ensures PcOk(DoPost(s, op, more)) && CalledOk(DoPost(s, op, more))
  {
    var s' := DoPost(s, op, more);
    assert s'.posted[..s.handled] == s.posted[..s.handled];
    assert forall k :: 0 <= k < |s.posted| ==> s'.posted[k] == s.posted[k];
  }

  lemma PostKeepsOp(s: State, op: Op, more: bool, o: Op)
    requires CqOk(s) && OpOk(s, o) && op in s.place && s.place[op].Kernel?
    ensures OpOk(DoPost(s, op, more), o)
  {
  }

  lemma PostKeepsInv(s: State, op: Op, more: bool)
    requires Inv(s) && Enabled(s, Post(op, more))
    ensures Inv(Do(s, Post(op, more)))
  {
    var s' := DoPost(s, op, more);
    PostKeepsCq(s, op, more);
    PostKeepsPc(s, op, more);
    assert s'.place.Keys == s.place.Keys;
    KeysCount(s'.place);
    KeysCount(s.place);
    forall k: nat | s.consumed <= k < |s.submitted|
      ensures SlotOk(s', k)
    {
      assert SlotOk(s, k);
    }
    forall o
      ensures OpOk(s', o)
    {
      assert OpOk(s, o);
      PostKeepsOp(s, op, more, o);
    }
  }

  // ----- handling completions -----

  /** The scheduler finds the completions in the order in which they were posted. */
  lemma HandledIsNext(s: State)
    requires CqOk(s) && PcOk(s) && s.pc.Completing? && s.pc.head != s.pc.tail
    ensures s.handled < |s.posted| && s.cq.cqes[s.pc.head % Entries(s)] == s.posted[s.handled]
    ensures CqeOk(s, s.handled)
  {
    assert s.handled < s.seen;
    MaskOfWrapped(s.handled, Entries(s));
    assert CqeOk(s, s.handled);
  }

  /** Only the last completion of an operation ends it. */
  lemma OthersLive(s: State, k: nat)
    requires CqOk(s) && s.handled < k < |s.posted| && !s.posted[s.handled].more
    ensures s.posted[k].op != s.posted[s.handled].op
  {
    assert CqeOk(s, s.handled) && CqeOk(s, k);
  }

  lemma HandleKeepsCq(s: State)
    requires CqOk(s) && PcOk(s) && s.pc.Completing? && s.pc.head != s.pc.tail
    ensures CqOk(DoHandle(s))
  {
    var s' := DoHandle(s);
    HandledIsNext(s);
    forall k: nat | s'.handled <= k < |s.posted|
      ensures CqeOk(s', k)
    {
      assert CqeOk(s, k);
      if !s.posted[s.handled].more {
        OthersLive(s, k);
      }
    }
  }

  lemma HandleKeepsSq(s: State)
    requires SqOk(s) && CqOk(s) && PcOk(s) && s.pc.Completing? && s.pc.head != s.pc.tail
    ensures SqOk(DoHandle(s))
  {
    var s' := DoHandle(s);
    HandledIsNext(s);
    forall k: nat | s.consumed <= k < |s.submitted|
      ensures SlotOk(s', k)
    {
      assert SlotOk(s, k);
    }
  }

  lemma HandleKeepsPc(s: State)
    requires CqOk(s) && PcOk(s) && s.pc.Completing? && s.pc.head != s.pc.tail
    ensures PcOk(DoHandle(s))
  {
    HandledIsNext(s);
    NextPosition(s.handled);
  }

  lemma HandleKeepsOp(s: State, op: Op)
    requires CqOk(s) && PcOk(s) && s.pc.Completing? && s.pc.head != s.pc.tail
    requires OpOk(s, op) && OpOk(s, s.posted[s.handled].op)
    ensures OpOk(DoHandle(s), op)
  {
    HandledIsNext(s);
  }

  lemma HandleKeepsCounts(s: State)
    requires CqOk(s) && PcOk(s) && CountsOk(s) && s.pc.Completing? && s.pc.head != s.pc.tail
    ensures CountsOk(DoHandle(s))
  {
    HandledIsNext(s);
    var cqe, place' := s.posted[s.handled], DoHandle(s).place;
    assert place'.Keys == if cqe.more then s.place.Keys else s.place.Keys - {cqe.op};
    KeysCount(place');
    KeysCount(s.place);
  }

  lemma HandleCalls(s: State)
    requires CqOk(s) && PcOk(s) && CalledOk(s) && s.pc.Completing? && s.pc.head != s.pc.tail
    requires OpOk(s, s.posted[s.handled].op)
    ensures CalledOk(DoHandle(s))
  {
    HandledIsNext(s);
  }

  lemma HandleKeepsInv(s: State)
    requires Inv(s) && Enabled(s, Handle)
    ensures Inv(Do(s, Handle))
  {
    var s' := DoHandle(s);
    HandledIsNext(s);
    var cqe := s.posted[s.handled];
    assert OpOk(s, cqe.op);
    HandleKeepsCq(s);
    HandleKeepsSq(s);
    HandleKeepsPc(s);
    HandleKeepsCounts(s);
    HandleCalls(s);
    forall op
      ensures OpOk(s', op)
    {
      assert OpOk(s, op);
      HandleKeepsOp(s, op);
    }
  }

  /** Every step of the scheduler and the kernel keeps the invariant. */
  lemma StepKeepsInv(s: State, step: Step)
    requires Inv(s) && Enabled(s, step)
    ensures Inv(Do(s, step))
  {
    match step {
      case Enqueue(op, front) => EnqueueKeepsInv(s, op, front);
      case BeginSubmit(stop) => BeginSubmitKeepsInv(s, stop);
      case Place => PlaceKeepsInv(s);
      case EndSubmit => EndSubmitKeepsInv(s);
      case BeginEnter => EnterKeepsInv(s, step);
      case Consume => ConsumeKeepsInv(s);
      case EndEnter => EnterKeepsInv(s, step);
      case TimeOut => EnterKeepsInv(s, step);
      case Post(op, more) => PostKeepsInv(s, op, more);
      case BeginComplete => BeginCompleteKeepsInv(s);
      case Handle => HandleKeepsInv(s);
      case EndComplete => EndCompleteKeepsInv(s);
    }
  }

  // ----- a whole call to submit -----

  ghost predicate Leads(s: State, steps: seq<Step>, s': State)
    decreases steps
  {
    if steps == [] then s' == s
    else Enabled(s, steps[0]) && Leads(Do(s, steps[0]), steps[1..], s')
  }

  lemma {:induction false} LeadsOn(s: State, steps: seq<Step>, s': State, step: Step)
    requires Leads(s, steps, s') && Enabled(s', step)
    ensures Leads(s, steps + [step], Do(s', step))
    decreases steps
  {
    if steps == [] {
      assert (steps + [step])[1..] == [];
    } else {
      LeadsOn(Do(s, steps[0]), steps[1..], s', step);
      assert (steps + [step])[1..] == steps[1..] + [step];
    }
  }

  /** The placing loop of a call that does not stop, up to its r-th round. */
  ghost predicate PlacedRounds(begin: State, s: State, r: nat) {
    && Shape(begin.sq) && r <= |begin.pending| && s.pc.Submitting? && begin.pc.Submitting?
    && s.pc == begin.pc.(r := r, tail := (begin.pc.tail + r) % U32)
    && s.pending == begin.pending[r..] && s.sq == PlacedAll(begin.sq, begin.pc.tail, begin.pending[..r])
    && s.cq == begin.cq && s.stopped == begin.stopped
  }

  lemma PlacedRound(begin: State, s: State, r: nat)
    requires PlacedRounds(begin, s, r) && !s.pc.stop && Enabled(s, Step.Place)
    ensures PlacedRounds(begin, Do(s, Step.Place), r + 1)
  {
    PlacedAllNext(begin.sq, begin.pc.tail, begin.pending, r);
    NextPosition(begin.pc.tail + r);
  }

  /** The same loop of a call that stops, after r operations. */
  ghost predicate StoppedRounds(begin: State, s: State, r: nat) {
    && Shape(begin.sq) && r <= |begin.pending| && s.pc.Submitting? && s.pc == begin.pc
    && s.pending == begin.pending[r..] && s.sq == PreparedLast(begin.sq, begin.pc.tail, begin.pending[..r])
    && s.cq == begin.cq && s.stopped == begin.stopped + begin.pending[..r]
  }

  lemma StoppedRound(begin: State, s: State, r: nat)
    requires StoppedRounds(begin, s, r) && s.pc.stop && Enabled(s, Step.Place)
    ensures StoppedRounds(begin, Do(s, Step.Place), r + 1)
  {
    PreparedNext(begin.sq, begin.pc.tail, begin.pending[..r], begin.pending[r]);
    assert begin.pending[..r + 1] == begin.pending[..r] + [begin.pending[r]];
  }

  /** What a call to submit leaves behind: the ring and the rest of the queue are those that the contract of
      SubmissionQueue.Submit promises, and the steps of the loop lead there. */
  lemma SubmitIsSteps(s: State) returns (steps: seq<Step>, s': State)
    requires Inv(s) && s.pc.Idle?
    ensures Leads(s, steps, s') && s'.pc.Idle? && Shape(s.sq)
    ensures
      var r := Min(|s.pending|, Room(s.sq, (Entries(s) - s.total) % U32));
      && s'.pending == s.pending[r..] && s'.stopped == s.stopped && s'.total == s.total + r
      && s'.sq == PlacedAll(s.sq, s.sq.tail, s.pending[..r]).(tail := (s.sq.tail + r) % U32)
  {
    var begin, r;
    steps, begin := BeginIsStep(s, false);
    steps, s', r := PlaceRounds(s, steps, begin);
    LeadsOn(s, steps, s', EndSubmit);
    PlacedEnd(begin, s', r);
    steps, s' := steps + [EndSubmit], Do(s', EndSubmit);
  }

  lemma BeginIsStep(s: State, stop: bool) returns (steps: seq<Step>, begin: State)
    requires Inv(s) && s.pc.Idle?
    ensures Leads(s, steps, begin) && begin == s.(pc := begin.pc) && Shape(s.sq) && Entries(s) > 0
    ensures begin.pc == Submitting(s.sq.tail, 0, Room(s.sq, (Entries(s) - s.total) % U32), stop) && begin.pc.tail < U32
  {
    begin := Do(s, BeginSubmit(stop));
    steps := [BeginSubmit(stop)];
    assert steps[1..] == [];
  }

  lemma PlacedEnd(begin: State, s: State, r: nat)
    requires PlacedRounds(begin, s, r) && !Placeable(s) && Entries(s) > 0 && r <= begin.pc.max && s.total == begin.total
    ensures
      var s' := Do(s, EndSubmit);
      && r == Min(|begin.pending|, begin.pc.max) && s'.pc.Idle? && s'.pending == begin.pending[r..]
      && s'.stopped == begin.stopped && s'.total == begin.total + r
      && s'.sq == PlacedAll(begin.sq, begin.pc.tail, begin.pending[..r]).(tail := (begin.pc.tail + r) % U32)
  {
  }

  lemma PlaceRounds(s: State, first: seq<Step>, begin: State) returns (steps: seq<Step>, s': State, r: nat)
    requires Leads(s, first, begin) && Shape(begin.sq) && Entries(begin) > 0
    requires begin.pc.Submitting? && begin.pc.r == 0 && !begin.pc.stop && begin.pc.tail < U32
    ensures Leads(s, steps, s') && !Placeable(s') && Entries(s') > 0 && s'.total == begin.total
    ensures PlacedRounds(begin, s', r) && r <= begin.pc.max
  {
    steps, s', r := first, begin, 0;
    assert begin.pending[0..] == begin.pending;
    while Placeable(s')
      invariant Leads(s, steps, s') && s'.total == begin.total && PlacedRounds(begin, s', r) && r <= begin.pc.max
      decreases |begin.pending| - r
    {
      LeadsOn(s, steps, s', Step.Place);
      PlacedRound(begin, s', r);
      steps, s' := steps + [Step.Place], Do(s', Step.Place);
      r := r + 1;
    }
  }

  /** The same of a call that finds the stop requested: if there is room, every operation is stopped. */
  lemma StopIsSteps(s: State) returns (steps: seq<Step>, s': State)
    requires Inv(s) && s.pc.Idle?
    ensures Leads(s, steps, s') && s'.pc.Idle? && Shape(s.sq) && s'.total == s.total
    ensures
      var stopped := if Room(s.sq, (Entries(s) - s.total) % U32) > 0 then s.pending else [];
      && s'.pending == s.pending[|stopped|..] && s'.stopped == s.stopped + stopped
      && s'.sq == PreparedLast(s.sq, s.sq.tail, stopped)
  {
    var begin, r;
    steps, begin := BeginIsStep(s, true);
    steps, s', r := StopRounds(s, steps, begin);
    LeadsOn(s, steps, s', EndSubmit);
    StoppedEnd(begin, s', r);
    steps, s' := steps + [EndSubmit], Do(s', EndSubmit);
    assert s.pending[..|s.pending|] == s.pending;
  }

  lemma StoppedEnd(begin: State, s: State, r: nat)
    requires StoppedRounds(begin, s, r) && !Placeable(s) && Entries(s) > 0 && s.total == begin.total
    requires begin.pc.r == 0 && (begin.pc.max == 0 ==> r == 0)
    ensures
      var s' := Do(s, EndSubmit);
      && r == (if begin.pc.max > 0 then |begin.pending| else 0) && s'.pc.Idle? && s'.pending == begin.pending[r..]
      && s'.stopped == begin.stopped + begin.pending[..r] && s'.total == begin.total
      && s'.sq == PreparedLast(begin.sq, begin.pc.tail, begin.pending[..r]).(tail := begin.pc.tail)
  {
  }

  lemma StopRounds(s: State, first: seq<Step>, begin: State) returns (steps: seq<Step>, s': State, r: nat)
    requires Leads(s, first, begin) && Shape(begin.sq) && Entries(begin) > 0
    requires begin.pc.Submitting? && begin.pc.r == 0 && begin.pc.stop
    ensures Leads(s, steps, s') && !Placeable(s') && Entries(s') > 0 && s'.total == begin.total
    ensures StoppedRounds(begin, s', r) && (begin.pc.max == 0 ==> r == 0)
  {
    steps, s', r := first, begin, 0;
    assert begin.pending[0..] == begin.pending;
    while Placeable(s')
      invariant Leads(s, steps, s') && s'.total == begin.total && (begin.pc.max == 0 ==> r == 0)
      invariant StoppedRounds(begin, s', r)
      decreases |begin.pending| - r
    {
      LeadsOn(s, steps, s', Step.Place);
      StoppedRound(begin, s', r);
      steps, s' := steps + [Step.Place], Do(s', Step.Place);
      r := r + 1;
    }
  }

  // ----- runs -----

  ghost predicate StepOf(s: State, s': State) {
    exists step :: Enabled(s, step) && s' == Do(s, step)
  }

  ghost predicate StepAt(run: seq<State>, i: nat)
    requires i + 1 < |run|
  {
    StepOf(run[i], run[i + 1])
  }

  /** A run of the scheduler against any kernel that ends each submitted entry once. */
  ghost predicate Run(run: seq<State>) {
    |run| >= 1 && Init(run[0]) && forall i :: 0 <= i < |run| - 1 ==> StepAt(run, i)
  }

  lemma InitHolds(s: State)
    requires Init(s)
    ensures Inv(s)
  {
  }

  lemma StepAtKeepsInv(run: seq<State>, i: nat)
    requires i + 1 < |run| && StepAt(run, i) && Inv(run[i])
    ensures Inv(run[i + 1])
  {
    var step :| Enabled(run[i], step) && run[i + 1] == Do(run[i], step);
    StepKeepsInv(run[i], step);
  }

  lemma {:induction false} RunKeepsInv(run: seq<State>, i: nat)
    requires Run(run) && i < |run|
    ensures Inv(run[i])
  {
    if i == 0 {
      InitHolds(run[0]);
    } else {
      RunKeepsInv(run, i - 1);
      StepAtKeepsInv(run, i - 1);
    }
  }

  /** Placing an operation never overwrites an entry that the kernel has yet to consume, whatever the positions have
      wrapped around to. */
  lemma NeverOverwrites(run: seq<State>, i: nat, k: nat)
    requires Run(run) && i < |run| && Placeable(run[i]) && run[i].consumed <= k < |run[i].submitted|
    ensures Shape(run[i].sq) && run[i].pc.tail % Slots(run[i]) != k % Slots(run[i])
  {
    RunKeepsInv(run, i);
    NothingOverwritten(run[i], k);
  }

  /** The kernel sees the operations in the order in which they left the pending queue, each named by the entry that it
      prepared itself. */
  lemma ConsumedInOrder(run: seq<State>, i: nat)
    requires Run(run) && i < |run| && run[i].sq.head != run[i].sq.tail
    ensures
      var s := run[i];
      Shape(s.sq) && s.consumed < |s.submitted| && HeadEntry(s) == Sqe(s.submitted[s.consumed], s.submitted[s.consumed])
  {
    RunKeepsInv(run, i);
    HeadIsNext(run[i]);
  }

  /** Every completion reaches its operation exactly once, in the order of posting. */
  lemma CompletionsReachOperations(run: seq<State>, i: nat)
    requires Run(run) && i < |run|
    ensures run[i].handled <= |run[i].posted| && run[i].called == run[i].posted[..run[i].handled]
    ensures forall j, k :: run[i].handled <= j < k < |run[i].posted| && !run[i].posted[j].more ==>
      run[i].posted[j].op != run[i].posted[k].op
  {
    RunKeepsInv(run, i);
    var s := run[i];
    forall j, k | s.handled <= j < k < |s.posted| && !s.posted[j].more
      ensures s.posted[j].op != s.posted[k].op
    {
      assert CqeOk(s, j) && CqeOk(s, k);
    }
  }

  /** The total counts the operations that are in either ring or with the kernel, and stays within the completion ring.
      The run loop leaves on 0 only if there is none. */
  lemma TotalCountsOutstanding(run: seq<State>, i: nat)
    requires Run(run) && i < |run|
    ensures 0 <= run[i].total <= Entries(run[i])
    ensures run[i].pc.Idle? ==> run[i].total == |run[i].place| && (run[i].total == 0 <==> run[i].place == map[])
  {
    RunKeepsInv(run, i);
  }

  /** From state j on, an enter call that has consumed nothing times out although there was something to submit. */
  ghost predicate TimesOutEarly(run: seq<State>, j: nat) {
    && j + 1 < |run| && run[j].pc == Entering(0) && run[j].newly > 0
    && Enabled(run[j], TimeOut) && run[j + 1] == Do(run[j], TimeOut)
  }

  lemma ForgottenStep(run: seq<State>, j: nat)
    requires Run(run) && j + 1 < |run|
    ensures run[j + 1].forgotten >= run[j].forgotten
    ensures run[j + 1].forgotten > run[j].forgotten <==> TimesOutEarly(run, j)
  {
    assert StepAt(run, j);
    var step :| Enabled(run[j], step) && run[j + 1] == Do(run[j], step);
    if step.TimeOut? {
      assert run[j].pc == Entering(0);
    }
  }

  lemma {:induction false} ForgottenOnlyEarly(run: seq<State>, i: nat)
    requires Run(run) && i < |run|
    ensures run[i].forgotten == 0 <==> forall j: nat :: j < i ==> !TimesOutEarly(run, j)
  {
    if i > 0 {
      ForgottenOnlyEarly(run, i - 1);
      ForgottenStep(run, i - 1);
    }
  }

  /** Between calls, the second counter is what the kernel has yet to consume, if and only if no enter call so far has
      timed out before the kernel consumed what it was asked to submit. */
  lemma NewlyCountsUnconsumed(run: seq<State>, i: nat)
    requires Run(run) && i < |run| && run[i].pc.Idle?
    ensures
      run[i].newly == Minus(run[i].sq.tail, run[i].sq.head) <==> forall j: nat :: j < i ==> !TimesOutEarly(run, j)
  {
    RunKeepsInv(run, i);
    Distance(run[i].consumed, Published(run[i]));
    ForgottenOnlyEarly(run, i);
  }

  /** A scheduler over rings of one entry. */
  function Small(): State {
    State([], Ring(0, 0, [0], [Sqe(0, 0)]), CqRing(0, 0, [Cqe(0, false)]), Idle, 0, 0, map[],
          map[], [], 0, [], 0, 0, 0, [], [], 0)
  }

  lemma RunGoesOn(run: seq<State>, step: Step)
    requires Run(run) && Enabled(run[|run| - 1], step)
    ensures Run(run + [Do(run[|run| - 1], step)])
  {
    var more := run + [Do(run[|run| - 1], step)];
    forall i | 0 <= i < |more| - 1
      ensures StepAt(more, i)
    {
      if i < |run| - 1 {
        assert StepAt(run, i);
      } else {
        assert StepOf(run[i], more[i + 1]);
      }
    }
  }

  /** The same scheduler with its one entry placed and published. */
  ghost predicate OnePlaced(s: State) {
    && s.sq == Ring(0, 1, [0], [Sqe(7, 7)]) && Entries(s) == 1 && s.pc.Idle? && s.pending == [] && s.stopped == []
    && s.total == s.newly == 1 && s.place == map[7 := Ringed(0)]
  }

  lemma PlaceSmall(s: State)
    requires s == Do(Do(Small(), Enqueue(7, false)), BeginSubmit(false))
    ensures Enabled(s, Step.Place) && Enabled(Do(s, Step.Place), EndSubmit)
    ensures OnePlaced(Do(Do(s, Step.Place), EndSubmit))
  {
    assert s.pc == Submitting(0, 0, 1, false);
  }

  lemma PlaceOne() returns (run: seq<State>)
    ensures Run(run) && |run| == 5 && OnePlaced(run[4])
  {
    var s0 := Small();
    assert Shape(s0.sq) && Entries(s0) == 1;
    run := [s0];
    RunGoesOn(run, Enqueue(7, false));
    run := run + [Do(s0, Enqueue(7, false))];
    RunGoesOn(run, BeginSubmit(false));
    var s2 := Do(run[1], BeginSubmit(false));
    run := run + [s2];
    PlaceSmall(s2);
    RunGoesOn(run, Step.Place);
    run := run + [Do(s2, Step.Place)];
    RunGoesOn(run, EndSubmit);
    run := run + [Do(run[3], EndSubmit)];
  }

  /** An example: one operation is placed, the enter call times out, and the counter says that there is nothing left to
      submit while the entry is still in the ring. */
  lemma TimeOutForgets() returns (run: seq<State>)
    ensures Run(run) && |run| == 7 && TimesOutEarly(run, 5) && run[6].pc.Idle?
    ensures run[6].newly == 0 && Minus(run[6].sq.tail, run[6].sq.head) == 1
  {
    run := PlaceOne();
    RunGoesOn(run, BeginEnter);
    run := run + [Do(run[4], BeginEnter)];
    RunGoesOn(run, TimeOut);
    run := run + [Do(run[5], TimeOut)];
  }

  lemma StopSmall(s: State)
    requires OnePlaced(s)
    ensures Enabled(s, Enqueue(8, false)) && Enabled(Do(s, Enqueue(8, false)), BeginSubmit(true))
    ensures
      var s' := Do(Do(s, Enqueue(8, false)), BeginSubmit(true));
      s'.pc == Submitting(1, 0, 0, true) && s'.pending == [8] && s'.stopped == [] && Enabled(s', EndSubmit)
  {
  }

  /** An example: the submission ring is full when the stop is requested, and the waiting operation is not stopped. */
  lemma FullRingStopsNothing() returns (run: seq<State>)
    ensures Run(run) && |run| == 8 && run[5].pending == [8] && run[6].pc.Submitting? && run[6].pc.stop
    ensures run[7].pc.Idle? && run[7].pending == [8] && run[7].stopped == []
  {
    run := PlaceOne();
    StopSmall(run[4]);
    RunGoesOn(run, Enqueue(8, false));
    run := run + [Do(run[4], Enqueue(8, false))];
    RunGoesOn(run, BeginSubmit(true));
    run := run + [Do(run[5], BeginSubmit(true))];
    RunGoesOn(run, EndSubmit);
    run := run + [Do(run[6], EndSubmit)];
  }

  /** The operations of the completions from the first unhandled one up to j. */
  ghost function EndedUpTo(s: State, j: nat): set<Op>
    requires j <= |s.posted|
    decreases j
  {
    if j <= s.handled then {} else EndedUpTo(s, j - 1) + {s.posted[j - 1].op}
  }

  lemma {:induction false} EndedCount(s: State, j: nat)
    requires CqOk(s) && s.handled <= j <= |s.posted| && forall k :: s.handled <= k < j ==> !s.posted[k].more
    ensures |EndedUpTo(s, j)| == j - s.handled && EndedUpTo(s, j) <= s.place.Keys
    ensures forall op :: op in EndedUpTo(s, j) ==> s.place[op].Ending? && s.place[op].k < j
    decreases j
  {
    if j > s.handled {
      EndedCount(s, j - 1);
      assert CqeOk(s, j - 1);
    }
  }

  lemma SmallerSet<T>(a: set<T>, b: set<T>)
    requires a <= b
    ensures |a| <= |b|
  {
    assert a + (b - a) == b;
  }

  /** The completion ring never overflows: if each completion since the scheduler last released the ring is a last one,
      there is room for the completion of every operation with the kernel. */
  lemma RoomForCompletions(run: seq<State>, i: nat, op: Op)
    requires Run(run) && i < |run| && op in run[i].place && run[i].place[op].Kernel?
    requires forall k :: run[i].released <= k < |run[i].posted| ==> !run[i].posted[k].more
    ensures Minus(run[i].cq.tail, run[i].cq.head) < Entries(run[i])
  {
    RunKeepsInv(run, i);
    var s := run[i];
    EndedCount(s, |s.posted|);
    SmallerSet(EndedUpTo(s, |s.posted|) + {op}, s.place.Keys);
    KeysCount(s.place);
    Distance(s.released, |s.posted|);
  }
}

/** Runs of a receiver against a kernel: the kernel fills the entry at its head piece by piece and queues a completion a
    piece, the scheduler hands completions to the receiver, and the coroutine reads each slice out of the shared memory
    before it awaits the next. */
module ReceiveStream {
  import opened ProvidedBuffers

  datatype Phase = Starting | Waiting | Reading

  datatype State = State(
    r: Receiver,
    pool: seq<Byte>,        // the buffer memory
    head: nat,              // the kernel's own 16-bit head
    armed: bool,            // the kernel holds a receive request
    cqes: seq<Cqe>,         // completions that the receiver has not handled, oldest first
    queued: bool,           // the receiver is in the scheduler's pending queue
    phase: Phase,
    // history
    received: seq<Byte>,    // every byte the kernel has put into a buffer
    delivered: seq<Byte>)   // every byte the coroutine has read

  ghost predicate Init(s: State) {
    && s.r == Created() && |s.pool| == POOL_SIZE && s.head == 0 && !s.armed && s.cqes == [] && !s.queued
    && s.phase.Starting? && s.received == [] && s.delivered == []
  }

  datatype Step =
    | Submit
    | Fill(data: seq<Byte>, more: bool)
    | NoBuffers
    | End(res: int)
    | Complete
    | Suspend

  predicate Enabled(s: State, step: Step) {
    match step
    case Submit => s.queued
    case Fill(data, _) => Fillable(s, data)
    case NoBuffers => s.armed && s.head == s.r.tail
    case End(res) => s.armed && res <= 0 && res != -ENOBUFS
    case Complete => s.phase.Waiting? && s.cqes != []
    case Suspend => !s.phase.Waiting? && |s.r.bufs| == NR_BUFS
  }

  /** The kernel compares 16-bit positions, and puts at most what the entry has room for. */
  predicate Fillable(s: State, data: seq<Byte>) {
    && s.armed && s.head != s.r.tail && |s.r.bufs| == NR_BUFS
    && 1 <= |data| <= s.r.bufs[s.head % NR_BUFS].len
  }

  function Written(pool: seq<Byte>, at: nat, data: seq<Byte>): (r: seq<Byte>)
    ensures |r| == |pool|
  {
    seq(|pool|, i requires 0 <= i < |pool| => if at <= i < at + |data| then data[i - at] else pool[i])
  }

  /** The slice that the resumed coroutine is given, as it stands in the memory. */
  function Slice(s: State): seq<Byte> {
    var from := Slot(s.r.bid) + s.r.offset;
    if from + s.r.len <= |s.pool| then s.pool[from..from + s.r.len] else []
  }

  function Do(s: State, step: Step): State
    requires Enabled(s, step)
  {
    match step
    case Submit => s.(queued := false, armed := true, r := s.r.(multishotLive := true))
    case Fill(data, more) => DoFill(s, data, more)
    case NoBuffers => s.(armed := false, cqes := s.cqes + [Cqe(-ENOBUFS, false, false, 0)])
    case End(res) => s.(armed := false, cqes := s.cqes + [Cqe(res, false, false, 0)])
    case Complete => DoComplete(s)
    case Suspend =>
      s.(r := Suspended(s.r), phase := Waiting, queued := s.queued || !s.r.multishotLive,
         delivered := if s.phase.Reading? then s.delivered + Slice(s) else s.delivered)
  }

  function DoFill(s: State, data: seq<Byte>, more: bool): State
    requires Fillable(s, data)
  {
    var i := s.head % NR_BUFS;
    var e := s.r.bufs[i];
    var left := e.len - |data|;
    s.(pool := Written(s.pool, e.addr, data),
       r := s.r.(bufs := s.r.bufs[i := Entry(e.bid, e.addr + |data|, left)]),
       head := if left == 0 then (s.head + 1) % TAIL_WRAP else s.head,
       armed := more,
       cqes := s.cqes + [Cqe(|data|, more, left != 0, e.bid)],
       received := s.received + data)
  }

  function DoComplete(s: State): State
    requires s.cqes != []
  {
    var cqe := s.cqes[0];
    s.(r := Completed(s.r, cqe), cqes := s.cqes[1..],
       queued := s.queued || cqe.res == -ENOBUFS,
       phase := if cqe.res > 0 then Reading else s.phase)
  }

  // ----- the invariant -----

  function PieceLen(s: State): nat {
    if s.phase.Reading? then s.r.len else 0
  }

  /** How much of the stream the receiver has been told of. */
  function Taken(s: State): nat {
    |s.delivered| + PieceLen(s)
  }

  /** Slots that the kernel has filled up, and slots that have come back. */
  function Filled(s: State): nat {
    |s.received| / BUF_SIZE
  }

  function Returned(s: State): nat {
    |s.delivered| / BUF_SIZE
  }

  /** A piece of the stream that starts at p lies in one slot, and the completion says where the slot ends. */
  predicate PieceOk(p: nat, len: nat, bid: nat, bufMore: bool) {
    len > 0 && p % BUF_SIZE + len <= BUF_SIZE && bid == p / BUF_SIZE % NR_BUFS && bufMore == ((p + len) % BUF_SIZE != 0)
  }

  /** The queued completions cover the stream from p to n. */
  predicate CqesOk(cqes: seq<Cqe>, p: nat, n: nat) {
    if cqes == [] then p == n
    else if cqes[0].res > 0 then
      PieceOk(p, cqes[0].res, cqes[0].bid, cqes[0].bufMore) && CqesOk(cqes[1..], p + cqes[0].res, n)
    else
      CqesOk(cqes[1..], p, n) && (cqes[0].res == -ENOBUFS ==> p % BUF_SIZE == 0)
  }

  /** Entry k, counted from the first ever published, while the kernel has not come to it. */
  predicate EntryOk(bufs: seq<Entry>, k: nat)
    requires |bufs| == NR_BUFS
  {
    bufs[k % NR_BUFS] == FreshEntry(k % NR_BUFS)
  }

  ghost predicate RingOk(s: State) {
    && |s.r.bufs| == NR_BUFS
    && s.r.tail == (Returned(s) + NR_BUFS) % TAIL_WRAP
    && s.head == Filled(s) % TAIL_WRAP
    && |s.received| <= (Returned(s) + NR_BUFS) * BUF_SIZE
    && (forall k: nat :: Filled(s) < k < Returned(s) + NR_BUFS ==> EntryOk(s.r.bufs, k))
    && (Filled(s) < Returned(s) + NR_BUFS ==>
          s.r.bufs[Filled(s) % NR_BUFS] ==
            Entry(Filled(s) % NR_BUFS, |s.received| % POOL_SIZE, BUF_SIZE - |s.received| % BUF_SIZE))
  }

  ghost predicate PoolAt(pool: seq<Byte>, received: seq<Byte>, p: nat)
    requires |pool| == POOL_SIZE && p < |received|
  {
    pool[p % POOL_SIZE] == received[p]
  }

  /** What was received and not yet read is still in the memory. */
  ghost predicate PoolOk(s: State) {
    && |s.pool| == POOL_SIZE && s.delivered <= s.received
    && forall p: nat :: |s.delivered| <= p < |s.received| ==> PoolAt(s.pool, s.received, p)
  }

  ghost predicate ReaderOk(s: State) {
    && s.r.curOffset == Taken(s) % BUF_SIZE
    && (s.phase.Reading? ==>
          && PieceOk(|s.delivered|, s.r.len, s.r.bid, s.r.bufMore) && s.r.offset == |s.delivered| % BUF_SIZE
          && s.r.replenishPending == !s.r.bufMore && (s.r.replenishPending ==> s.r.replenishBid == s.r.bid))
    && (!s.phase.Reading? ==> !s.r.replenishPending)
  }

  /** One request at a time: its last completion says that there is no more, and only then it is queued again. */
  ghost predicate RequestOk(s: State) {
    && (s.armed ==> s.r.multishotLive && !s.queued && forall i :: 0 <= i < |s.cqes| ==> s.cqes[i].more)
    && (forall i :: 0 <= i < |s.cqes| - 1 ==> s.cqes[i].more)
    && (forall i :: 0 <= i < |s.cqes| && s.cqes[i].more ==> s.cqes[i].res > 0)
    && (s.queued ==> s.phase.Waiting? && !s.r.multishotLive)
    && (!s.r.multishotLive ==> !s.armed && s.cqes == [] && (s.queued || !s.phase.Waiting?))
  }

  ghost predicate Inv(s: State) {
    RingOk(s) && PoolOk(s) && ReaderOk(s) && RequestOk(s) && CqesOk(s.cqes, Taken(s), |s.received|)
  }

  // ----- arithmetic of slots -----

  /** The slots follow each other in the memory, and the stream goes around. */
  lemma SlotAddress(p: nat)
    ensures Slot(p / BUF_SIZE % NR_BUFS) + p % BUF_SIZE == p % POOL_SIZE
  {
  }

  lemma SamePiece(p: nat, i: nat)
    requires p % BUF_SIZE + i < BUF_SIZE
    ensures (p + i) / BUF_SIZE == p / BUF_SIZE && (p + i) % BUF_SIZE == p % BUF_SIZE + i
    ensures (p + i) % POOL_SIZE == p % POOL_SIZE + i
  {
  }

  lemma PieceEnd(p: nat, len: nat)
    requires p % BUF_SIZE + len <= BUF_SIZE
    ensures (p + len) % BUF_SIZE == (if p % BUF_SIZE + len == BUF_SIZE then 0 else p % BUF_SIZE + len)
    ensures (p + len) / BUF_SIZE == p / BUF_SIZE + if p % BUF_SIZE + len == BUF_SIZE then 1 else 0
    ensures p % POOL_SIZE + len <= POOL_SIZE
  {
  }

  /** Positions of the stream less than one turn apart have different places in the memory. */
  lemma DifferentPlaces(a: nat, b: nat)
    requires a < b < a + POOL_SIZE
    ensures a % POOL_SIZE != b % POOL_SIZE
  {
  }

  lemma DifferentEntries(a: nat, b: nat)
    requires a < b < a + NR_BUFS
    ensures a % NR_BUFS != b % NR_BUFS
  {
  }

  lemma WrapNext(a: nat)
    ensures (a % TAIL_WRAP + 1) % TAIL_WRAP == (a + 1) % TAIL_WRAP
  {
  }

  lemma WrapIndex(a: nat, i: nat)
    ensures (a % TAIL_WRAP + i) % NR_BUFS == (a + i) % NR_BUFS
  {
    var q := a / TAIL_WRAP;
    assert a + i == a % TAIL_WRAP + i + q * TAIL_WRAP;
  }

  lemma WrapEqual(a: nat, b: nat)
    requires a <= b <= a + NR_BUFS
    ensures a % TAIL_WRAP == b % TAIL_WRAP <==> a == b
  {
  }

  lemma WrapDistance(a: nat, b: nat)
    requires a <= b <= a + NR_BUFS
    ensures (b % TAIL_WRAP - a % TAIL_WRAP + TAIL_WRAP) % TAIL_WRAP == b - a
  {
  }

  /** The start of slot k + NR_BUFS. */
  lemma FullTurn(k: nat)
    ensures
      var n := (k + NR_BUFS) * BUF_SIZE;
      n % POOL_SIZE == Slot(k % NR_BUFS) && n % BUF_SIZE == 0 && n / BUF_SIZE == k + NR_BUFS
    ensures (k + NR_BUFS) % NR_BUFS == k % NR_BUFS
  {
    SlotAddress((k + NR_BUFS) * BUF_SIZE);
  }

  lemma FullSlots(n: nat, k: nat)
    ensures n <= k * BUF_SIZE ==> n / BUF_SIZE <= k && (n / BUF_SIZE == k ==> n == k * BUF_SIZE)
    ensures n <= k ==> n / BUF_SIZE <= k / BUF_SIZE
  {
  }

  lemma RingPositions(s: State)
    requires RingOk(s) && PoolOk(s)
    ensures Returned(s) <= Filled(s) <= Returned(s) + NR_BUFS
  {
    FullSlots(|s.received|, Returned(s) + NR_BUFS);
    FullSlots(|s.delivered|, |s.received|);
  }

  /** The wrap of the 16-bit positions is harmless: they agree only if the ring is empty. */
  lemma WrapIsHarmless(s: State)
    requires RingOk(s) && PoolOk(s)
    ensures s.head == s.r.tail <==> Filled(s) == Returned(s) + NR_BUFS
    ensures s.head % NR_BUFS == Filled(s) % NR_BUFS && s.r.tail % NR_BUFS == Returned(s) % NR_BUFS
    ensures Returned(s) <= Filled(s) <= Returned(s) + NR_BUFS
  {
    RingPositions(s);
    var filled, end := Filled(s), Returned(s) + NR_BUFS;
    WrapIndex(filled, 0);
    WrapIndex(end, 0);
    WrapEqual(filled, end);
    FullTurn(Returned(s));
  }

  // ----- the kernel's steps -----

  lemma {:induction false} CqesAppended(cqes: seq<Cqe>, p: nat, n: nat, cqe: Cqe, n': nat)
    requires CqesOk(cqes, p, n)
    requires CqesOk([cqe], n, n')
    ensures CqesOk(cqes + [cqe], p, n')
  {
    if cqes == [] {
      assert cqes + [cqe] == [cqe];
    } else {
      CqesAppended(cqes[1..], if cqes[0].res > 0 then p + cqes[0].res else p, n, cqe, n');
      assert (cqes + [cqe])[1..] == cqes[1..] + [cqe];
      assert (cqes + [cqe])[0] == cqes[0];
    }
  }

  lemma {:induction false} CqesFrom(cqes: seq<Cqe>, p: nat, n: nat)
    requires CqesOk(cqes, p, n)
    ensures p <= n
  {
    if cqes != [] {
      CqesFrom(cqes[1..], if cqes[0].res > 0 then p + cqes[0].res else p, n);
    }
  }

  /** The entry that the kernel is filling. */
  lemma HeadEntry(s: State, data: seq<Byte>)
    requires RingOk(s) && PoolOk(s) && Fillable(s, data)
    ensures Filled(s) < Returned(s) + NR_BUFS
    ensures
      s.r.bufs[s.head % NR_BUFS] ==
        Entry(Filled(s) % NR_BUFS, |s.received| % POOL_SIZE, BUF_SIZE - |s.received| % BUF_SIZE)
  {
    WrapIsHarmless(s);
  }

  lemma FillKeepsPool(s: State, data: seq<Byte>, more: bool)
    requires RingOk(s) && PoolOk(s) && Fillable(s, data)
    ensures PoolOk(DoFill(s, data, more))
  {
    var s' := DoFill(s, data, more);
    HeadEntry(s, data);
    var n := |s.received|;
    PieceEnd(n, |data|);
    forall p: nat | |s.delivered| <= p < |s'.received|
      ensures PoolAt(s'.pool, s'.received, p)
    {
      if p < n {
        assert PoolAt(s.pool, s.received, p);
        RoomBehindReader(s, p, |data|);
      } else {
        SamePiece(n, p - n);
      }
    }
  }

  /** What the kernel writes next overwrites nothing that is still to be read. */
  lemma RoomBehindReader(s: State, p: nat, len: nat)
    requires RingOk(s) && PoolOk(s) && Filled(s) < Returned(s) + NR_BUFS
    requires |s.delivered| <= p < |s.received| && |s.received| % BUF_SIZE + len <= BUF_SIZE
    ensures !(|s.received| % POOL_SIZE <= p % POOL_SIZE < |s.received| % POOL_SIZE + len)
  {
    var n := |s.received|;
    if n % POOL_SIZE <= p % POOL_SIZE < n % POOL_SIZE + len {
      var i := p % POOL_SIZE - n % POOL_SIZE;
      SamePiece(n, i);
      DifferentPlaces(p, n + i);
    }
  }

  lemma FillKeepsRing(s: State, data: seq<Byte>, more: bool)
    requires RingOk(s) && PoolOk(s) && Fillable(s, data)
    ensures RingOk(DoFill(s, data, more))
  {
    var s' := DoFill(s, data, more);
    HeadEntry(s, data);
    WrapIsHarmless(s);
    var n := |s.received|;
    PieceEnd(n, |data|);
    WrapNext(Filled(s));
    forall k: nat | Filled(s') < k < Returned(s) + NR_BUFS
      ensures EntryOk(s'.r.bufs, k)
    {
      assert EntryOk(s.r.bufs, k);
      DifferentEntries(Filled(s), k);
    }
    if Filled(s') == Filled(s) {
      SamePiece(n, |data|);
    } else if Filled(s') < Returned(s) + NR_BUFS {
      assert EntryOk(s.r.bufs, Filled(s'));
      DifferentEntries(Filled(s), Filled(s'));
      SlotAddress(|s'.received|);
    }
  }

  lemma FillKeepsInv(s: State, data: seq<Byte>, more: bool)
    requires Inv(s) && Fillable(s, data)
    ensures Inv(DoFill(s, data, more))
  {
    var s' := DoFill(s, data, more);
    FillKeepsRing(s, data, more);
    FillKeepsPool(s, data, more);
    HeadEntry(s, data);
    WrapIsHarmless(s);
    PieceEnd(|s.received|, |data|);
    var cqe := s'.cqes[|s.cqes|];
    assert [cqe][1..] == [];
    assert CqesOk([cqe], |s.received|, |s'.received|);
    CqesAppended(s.cqes, Taken(s), |s.received|, cqe, |s'.received|);
  }

  /** The kernel reports an empty ring only when the stream stands at the end of a slot. */
  lemma TerminalKeepsInv(s: State, res: int)
    requires Inv(s) && s.armed && res <= 0 && (res == -ENOBUFS ==> s.head == s.r.tail)
    ensures Inv(s.(armed := false, cqes := s.cqes + [Cqe(res, false, false, 0)]))
  {
    var cqe := Cqe(res, false, false, 0);
    var n := |s.received|;
    WrapIsHarmless(s);
    FullSlots(n, Returned(s) + NR_BUFS);
    assert [cqe][1..] == [];
    assert CqesOk([cqe], n, n);
    CqesAppended(s.cqes, Taken(s), n, cqe, n);
  }

  // ----- the receiver's steps -----

  lemma CompleteKeepsInv(s: State)
    requires Inv(s) && s.phase.Waiting? && s.cqes != []
    ensures Inv(DoComplete(s))
  {
    var cqe := s.cqes[0];
    var s' := DoComplete(s);
    if cqe.res > 0 {
      PieceEnd(|s.delivered|, cqe.res);
    }
    assert !cqe.more ==> |s.cqes| == 1;
  }

  /** The slice is read as it was received. */
  lemma SliceIsReceived(s: State)
    requires Inv(s) && s.phase.Reading?
    ensures Taken(s) <= |s.received| && Slice(s) == s.received[|s.delivered|..Taken(s)]
  {
    CqesFrom(s.cqes, Taken(s), |s.received|);
    var d := |s.delivered|;
    SlotAddress(d);
    PieceEnd(d, s.r.len);
    forall i | 0 <= i < s.r.len
      ensures Slice(s)[i] == s.received[d + i]
    {
      assert PoolAt(s.pool, s.received, d + i);
      SamePiece(d, i);
    }
  }

  lemma SuspendReturns(s: State)
    requires Inv(s) && s.phase.Reading?
    ensures |Do(s, Suspend).delivered| == Taken(s) && Do(s, Suspend).delivered <= s.received
    ensures Returned(Do(s, Suspend)) == Returned(s) + if s.r.replenishPending then 1 else 0
  {
    SliceIsReceived(s);
    PieceEnd(|s.delivered|, s.r.len);
  }

  lemma SuspendKeepsEntry(s: State, k: nat)
    requires Inv(s) && s.phase.Reading?
    requires Filled(s) < k < Returned(s) + NR_BUFS + if s.r.replenishPending then 1 else 0
    ensures EntryOk(Suspended(s.r).bufs, k)
  {
    if k < Returned(s) + NR_BUFS {
      assert EntryOk(s.r.bufs, k);
    }
    if s.r.replenishPending {
      ReplenishedBufs(s);
      if k < Returned(s) + NR_BUFS {
        ReturnedIsFilled(s);
        DifferentEntries(Returned(s), k);
      } else {
        FullTurn(Returned(s));
      }
    }
  }

  lemma SuspendKeepsRing(s: State)
    requires Inv(s) && s.phase.Reading?
    ensures RingOk(Do(s, Suspend))
  {
    var s' := Do(s, Suspend);
    SuspendReturns(s);
    WrapNext(Returned(s) + NR_BUFS);
    forall k: nat | Filled(s) < k < Returned(s') + NR_BUFS
      ensures EntryOk(s'.r.bufs, k)
    {
      SuspendKeepsEntry(s, k);
    }
    if Filled(s) < Returned(s') + NR_BUFS {
      SuspendKeepsHead(s);
    }
  }

  /** A slot comes back only after it was filled up. */
  lemma ReturnedIsFilled(s: State)
    requires Inv(s) && s.phase.Reading? && s.r.replenishPending
    ensures Returned(s) < Filled(s)
  {
    SliceIsReceived(s);
    PieceEnd(|s.delivered|, s.r.len);
    FullSlots(Taken(s), |s.received|);
  }

  /** The slot goes where the last one that was filled up stood. */
  lemma ReplenishedBufs(s: State)
    requires Inv(s) && s.phase.Reading? && s.r.replenishPending
    ensures Suspended(s.r).bufs == s.r.bufs[Returned(s) % NR_BUFS := FreshEntry(Returned(s) % NR_BUFS)]
  {
    WrapIsHarmless(s);
  }

  lemma SuspendKeepsHead(s: State)
    requires Inv(s) && s.phase.Reading?
    requires Filled(s) < Returned(s) + NR_BUFS + if s.r.replenishPending then 1 else 0
    ensures Suspended(s.r).bufs[Filled(s) % NR_BUFS] ==
      Entry(Filled(s) % NR_BUFS, |s.received| % POOL_SIZE, BUF_SIZE - |s.received| % BUF_SIZE)
  {
    if s.r.replenishPending {
      ReplenishedBufs(s);
      ReturnedIsFilled(s);
      if Filled(s) < Returned(s) + NR_BUFS {
        DifferentEntries(Returned(s), Filled(s));
      } else {
        FullSlots(|s.received|, Returned(s) + NR_BUFS);
        FullTurn(Returned(s));
      }
    }
  }

  lemma SuspendKeepsInv(s: State)
    requires Inv(s) && !s.phase.Waiting?
    ensures Inv(Do(s, Suspend))
  {
    var s' := Do(s, Suspend);
    if s.phase.Reading? {
      SliceIsReceived(s);
      SuspendKeepsRing(s);
      forall p: nat | |s'.delivered| <= p < |s.received|
        ensures PoolAt(s'.pool, s'.received, p)
      {
        assert PoolAt(s.pool, s.received, p);
      }
    }
  }

  /** Every step of the kernel, the scheduler and the receiver keeps the invariant. */
  lemma StepKeepsInv(s: State, step: Step)
    requires Inv(s) && Enabled(s, step)
    ensures Inv(Do(s, step))
  {
    match step {
      case Submit =>
      case Fill(data, more) => FillKeepsInv(s, data, more);
      case NoBuffers => TerminalKeepsInv(s, -ENOBUFS);
      case End(res) => TerminalKeepsInv(s, res);
      case Complete => CompleteKeepsInv(s);
      case Suspend => SuspendKeepsInv(s);
    }
  }

  lemma InitHolds(s: State)
    requires Init(s)
    ensures Inv(s)
  {
    forall k: nat | k < NR_BUFS
      ensures EntryOk(s.r.bufs, k)
    {
    }
  }

  // ----- runs -----

  ghost predicate StepAt(run: seq<State>, i: nat)
    requires i + 1 < |run|
  {
    exists step :: Enabled(run[i], step) && run[i + 1] == Do(run[i], step)
  }

  /** A run of the receiver against any kernel. */
  ghost predicate Run(run: seq<State>) {
    |run| >= 1 && Init(run[0]) && forall i :: 0 <= i < |run| - 1 ==> StepAt(run, i)
  }

  lemma {:induction false} RunKeepsInv(run: seq<State>, i: nat)
    requires Run(run) && i < |run|
    ensures Inv(run[i])
  {
    if i == 0 {
      InitHolds(run[0]);
    } else {
      RunKeepsInv(run, i - 1);
      assert StepAt(run, i - 1);
      var step :| Enabled(run[i - 1], step) && run[i] == Do(run[i - 1], step);
      StepKeepsInv(run[i - 1], step);
    }
  }

  /** The delivered slices, concatenated, are the received stream so far; and the slice being read stands in the
      memory as it was received for as long as it is being read. */
  lemma DeliveredIsReceived(run: seq<State>, i: nat)
    requires Run(run) && i < |run|
    ensures
      var s := run[i];
      && s.delivered <= s.received
      && (s.phase.Reading? ==> s.delivered + Slice(s) <= s.received && |Slice(s)| == s.r.len)
      && (!s.phase.Reading? && s.cqes == [] ==> s.delivered == s.received)
  {
    RunKeepsInv(run, i);
    if run[i].phase.Reading? {
      SliceIsReceived(run[i]);
    }
  }

  /** The slices of one slot follow each other inside it: a slice starts where the last one ended, or a new slot starts
      exactly where the last one was filled up. */
  lemma SlicesAreConsecutive(run: seq<State>, i: nat)
    requires Run(run) && i < |run| && run[i].phase.Reading?
    ensures
      var s := run[i];
      && s.r.bid == |s.delivered| / BUF_SIZE % NR_BUFS && s.r.offset == |s.delivered| % BUF_SIZE
      && s.r.offset + s.r.len <= BUF_SIZE
      && (s.r.replenishPending <==> s.r.offset + s.r.len == BUF_SIZE)
  {
    RunKeepsInv(run, i);
    PieceEnd(|run[i].delivered|, run[i].r.len);
  }

  /** How many entries the ring holds, from the kernel's head to the tail, as 16-bit arithmetic has it. */
  function Available(s: State): nat {
    (s.r.tail - s.head + TAIL_WRAP) % TAIL_WRAP
  }

  lemma AvailableIs(s: State)
    requires RingOk(s) && PoolOk(s)
    ensures Available(s) == Returned(s) + NR_BUFS - Filled(s)
  {
    FullSlots(|s.received|, Returned(s) + NR_BUFS);
    FullSlots(|s.delivered|, |s.received|);
    WrapDistance(Filled(s), Returned(s) + NR_BUFS);
  }

  lemma EntryBid(s: State, i: nat)
    requires RingOk(s) && PoolOk(s) && i < Returned(s) + NR_BUFS - Filled(s)
    ensures (s.head + i) % NR_BUFS == (Filled(s) + i) % NR_BUFS
    ensures s.r.bufs[(s.head + i) % NR_BUFS].bid == (Filled(s) + i) % NR_BUFS
  {
    WrapIndex(Filled(s), i);
    if i > 0 {
      assert EntryOk(s.r.bufs, Filled(s) + i);
    }
  }

  /** No buffer is in the ring twice, and the buffer being read, once filled up, is not in it. */
  lemma BuffersOnce(run: seq<State>, k: nat, i: nat, j: nat)
    requires Run(run) && k < |run| && i < j < Available(run[k])
    ensures
      var s := run[k];
      && |s.r.bufs| == NR_BUFS
      && s.r.bufs[(s.head + i) % NR_BUFS].bid != s.r.bufs[(s.head + j) % NR_BUFS].bid
      && (s.phase.Reading? && s.r.replenishPending ==> s.r.bufs[(s.head + i) % NR_BUFS].bid != s.r.bid)
  {
    RunKeepsInv(run, k);
    var s := run[k];
    AvailableIs(s);
    EntryBid(s, i);
    EntryBid(s, j);
    DifferentEntries(Filled(s) + i, Filled(s) + j);
    if s.phase.Reading? && s.r.replenishPending {
      ReturnedIsFilled(s);
      DifferentEntries(Returned(s), Filled(s) + i);
    }
  }

  /** When the receiver handles an exhausted ring, every buffer is back in it, so that the request it queues again finds
      buffers; and the offset that it resets was 0. */
  lemma ExhaustedRingIsFull(run: seq<State>, i: nat)
    requires Run(run) && i < |run| && run[i].phase.Waiting? && run[i].cqes != [] && run[i].cqes[0].res == -ENOBUFS
    ensures Available(run[i]) == NR_BUFS && run[i].r.curOffset == 0
    ensures run[i].cqes == run[i].cqes[..1] && !run[i].armed && !run[i].queued
  {
    RunKeepsInv(run, i);
    var s := run[i];
    AvailableIs(s);
    assert |s.cqes| == 1;
    assert CqesOk([], Taken(s), |s.received|) by {
      assert s.cqes[1..] == [];
    }
    assert |s.delivered| == |s.received|;
  }

  /** The receiver is never put into the pending queue while it is in it or while the kernel holds its request. */
  lemma QueuedOnce(run: seq<State>, i: nat)
    requires Run(run) && i < |run|
    ensures
      var s := run[i];
      && (s.queued ==> !s.armed && s.cqes == [])
      && (!s.phase.Waiting? && !s.r.multishotLive ==> !s.queued)
      && (s.phase.Waiting? && s.cqes != [] && s.cqes[0].res == -ENOBUFS ==> !s.queued)
  {
    RunKeepsInv(run, i);
  }

  // ----- the receive goes on -----

  /** Nothing is under way that would ever resume the receiver. */
  predicate Dead(s: State) {
    s.phase.Waiting? && !s.queued && !s.armed && s.cqes == []
  }

  /** The completion of the end of the stream or of an error. */
  predicate IsEnd(cqe: Cqe) {
    cqe.res <= 0 && cqe.res != -ENOBUFS
  }

  /** A receiver that takes its request for live waits for the kernel or for the completion that ends the request. */
  ghost predicate LiveOk(s: State) {
    s.r.multishotLive && !s.armed ==> Dead(s) || (s.cqes != [] && !s.cqes[|s.cqes| - 1].more)
  }

  lemma CompleteKeepsLive(s: State)
    requires RequestOk(s) && LiveOk(s) && s.phase.Waiting? && s.cqes != []
    ensures LiveOk(DoComplete(s)) && (Dead(DoComplete(s)) <==> IsEnd(s.cqes[0]))
  {
    if |s.cqes| > 1 {
      assert s.cqes[0].more;
    }
  }

  /** Only handling an end leaves the receiver with nothing to wait for. */
  lemma StepKeepsLive(s: State, step: Step)
    requires RequestOk(s) && LiveOk(s) && Enabled(s, step)
    ensures LiveOk(Do(s, step))
    ensures Dead(Do(s, step)) <==> step.Complete? && IsEnd(s.cqes[0])
  {
    if step.Complete? {
      CompleteKeepsLive(s);
    }
  }

  /** With the step from state j the receiver handles an end. */
  ghost predicate EndsAt(run: seq<State>, j: nat) {
    j + 1 < |run| && Enabled(run[j], Complete) && IsEnd(run[j].cqes[0]) && run[j + 1] == Do(run[j], Complete)
  }

  lemma StepAtIsLive(run: seq<State>, i: nat)
    requires Run(run) && i + 1 < |run| && RequestOk(run[i]) && LiveOk(run[i])
    ensures LiveOk(run[i + 1]) && (Dead(run[i + 1]) <==> EndsAt(run, i))
  {
    assert StepAt(run, i);
    var step :| Enabled(run[i], step) && run[i + 1] == Do(run[i], step);
    StepKeepsLive(run[i], step);
    if EndsAt(run, i) {
      CompleteKeepsLive(run[i]);
    }
  }

  lemma {:induction false} RunIsLive(run: seq<State>, i: nat)
    requires Run(run) && i < |run|
    ensures LiveOk(run[i]) && (Dead(run[i]) <==> i > 0 && EndsAt(run, i - 1))
  {
    if i > 0 {
      RunIsLive(run, i - 1);
      RunKeepsInv(run, i - 1);
      StepAtIsLive(run, i - 1);
    }
  }

  /** A waiting receiver is in the pending queue, or the kernel holds its request, or a completion is there for it to
      handle, if and only if it has not handled an end so far. */
  lemma RequestNeverLost(run: seq<State>, i: nat)
    requires Run(run) && i < |run| && run[i].phase.Waiting?
    ensures run[i].queued || run[i].armed || run[i].cqes != [] <==> forall j: nat :: j < i ==> !EndsAt(run, j)
  {
    RunIsLive(run, i);
    forall j: nat | j < i && EndsAt(run, j)
      ensures j == i - 1
    {
      if j < i - 1 {
        DeadHasNoStep(run, j + 1);
      }
    }
  }

  lemma DeadHasNoStep(run: seq<State>, j: nat)
    requires Run(run) && 0 < j && j + 1 < |run|
    ensures !EndsAt(run, j - 1)
  {
    RunIsLive(run, j);
    assert StepAt(run, j);
  }

  /** Every run begins with the first await, and that queues the receive. */
  lemma FirstAwaitQueues(run: seq<State>)
    requires Run(run) && |run| >= 2
    ensures run[1].phase.Waiting? && run[1].queued && run[1].delivered == []
  {
    assert StepAt(run, 0);
    var step :| Enabled(run[0], step) && run[1] == Do(run[0], step);
    assert step == Suspend;
  }
}

/** The order of blocks in the shared source: first in, first out, over the batches and inside them. */
module BlockOrder {
  import opened Sequences
  import opened BlockMemory
  import opened RemoteBlocks

  // ----- the blocks inside, oldest first -----

  /** What is in the slot at a position. */
  function At(slots: seq<Slot>, k: nat): seq<Block>
    requires |slots| == K
  {
    slots[k % K].blocks
  }

  /** The batches of slots lo to hi, each in the order in which its blocks came. */
  function Batches(slots: seq<Slot>, lo: nat, hi: nat): seq<Block>
    requires |slots| == K
    decreases hi
  {
    if lo >= hi then [] else Batches(slots, lo, hi - 1) + Reversed(At(slots, hi - 1))
  }

  /** The slot that fills is the last one, unless the ring is full. */
  function End(r: Ring): nat {
    if r.head < r.tail + K then r.head + 1 else r.head
  }

  function Inside(r: Ring): seq<Block>
    requires |r.slots| == K
  {
    Batches(r.slots, r.tail, End(r))
  }

  /** New blocks go in a batch at a time, the last of a batch first. */
  function InBatches(added: seq<Block>): seq<Block>
    decreases |added|
  {
    if |added| < T then [] else Reversed(added[..T]) + InBatches(added[T..])
  }

  ghost predicate SameAt(slots: seq<Slot>, slots': seq<Slot>, k: nat)
    requires |slots| == |slots'| == K
  {
    At(slots', k) == At(slots, k)
  }

  lemma {:induction false} BatchesSame(slots: seq<Slot>, slots': seq<Slot>, lo: nat, hi: nat)
    requires |slots| == |slots'| == K
    requires forall k :: lo <= k < hi ==> SameAt(slots, slots', k)
    ensures Batches(slots', lo, hi) == Batches(slots, lo, hi)
    decreases hi
  {
    if lo < hi {
      assert SameAt(slots, slots', hi - 1);
      BatchesSame(slots, slots', lo, hi - 1);
    }
  }

  lemma {:induction false} BatchesFront(slots: seq<Slot>, lo: nat, hi: nat)
    requires |slots| == K && lo < hi
    ensures Batches(slots, lo, hi) == Reversed(At(slots, lo)) + Batches(slots, lo + 1, hi)
    decreases hi
  {
    if lo + 1 < hi {
      BatchesFront(slots, lo, hi - 1);
      Joined(Reversed(At(slots, lo)), Batches(slots, lo + 1, hi - 1), Reversed(At(slots, hi - 1)));
    } else {
      assert Batches(slots, lo, lo) == [] && Batches(slots, lo + 1, hi) == [];
    }
  }

  lemma Joined(a: seq<Block>, b: seq<Block>, c: seq<Block>)
    ensures a + b + c == a + (b + c)
  {
  }

  lemma {:induction false} ReversedJoined(a: seq<Block>, b: seq<Block>)
    ensures Reversed(a + b) == Reversed(b) + Reversed(a)
  {
    if a == [] {
      assert a + b == b;
    } else {
      ReversedJoined(a[1..], b);
      assert (a + b)[1..] == a[1..] + b;
      Joined(Reversed(b), Reversed(a[1..]), [a[0]]);
    }
  }

  // ----- a change of the head slot -----

  /** The head slot gets more blocks in front, and may be handed over. */
  ghost predicate HeadGrows(r: Ring, r': Ring, more: seq<Block>) {
    && |r.slots| == |r'.slots| == K && r'.tail == r.tail && r.tail <= r.head < r.tail + K
    && (r'.head == r.head || r'.head == r.head + 1)
    && At(r'.slots, r.head) == more + At(r.slots, r.head)
    && (forall k :: r.tail <= k < r.tail + K && k != r.head ==> SameAt(r.slots, r'.slots, k))
    && (r'.head > r.head && r'.head < r.tail + K ==> At(r.slots, r'.head) == [])
  }

  lemma GrowsHead(r: Ring, r': Ring, more: seq<Block>)
    requires HeadGrows(r, r', more)
    ensures Batches(r'.slots, r.tail, r.head + 1) == Inside(r) + Reversed(more)
  {
    var h := r.head;
    BatchesSame(r.slots, r'.slots, r.tail, h);
    ReversedJoined(more, At(r.slots, h));
    Joined(Batches(r.slots, r.tail, h), Reversed(At(r.slots, h)), Reversed(more));
  }

  lemma EmptyLast(slots: seq<Slot>, lo: nat, hi: nat)
    requires |slots| == K && lo <= hi && At(slots, hi) == []
    ensures Batches(slots, lo, hi + 1) == Batches(slots, lo, hi)
  {
    assert Batches(slots, lo, hi + 1) == Batches(slots, lo, hi) + [];
  }

  lemma EndAfter(r: Ring, r': Ring, more: seq<Block>)
    requires HeadGrows(r, r', more)
    ensures End(r') == r.head + 1 || (End(r') == r.head + 2 && At(r'.slots, r.head + 1) == [])
  {
    if r'.head > r.head && r'.head < r.tail + K {
      assert SameAt(r.slots, r'.slots, r'.head);
    }
  }

  lemma GrowsInside(r: Ring, r': Ring, more: seq<Block>)
    requires HeadGrows(r, r', more)
    ensures Inside(r') == Inside(r) + Reversed(more)
  {
    GrowsHead(r, r', more);
    EndAfter(r, r', more);
    if End(r') != r.head + 1 {
      EmptyLast(r'.slots, r.tail, r.head + 1);
    }
  }

  lemma PushGrowsHead(r: Ring, b: Block)
    requires Pushable(r)
    ensures HeadGrows(r, Pushed(r, b), [b])
  {
    PushMoves(r, b);
    var h := r.head;
    forall k | r.tail <= k < r.tail + K && k != h
      ensures SameAt(r.slots, Pushed(r, b).slots, k)
    {
      if k < h {
        OtherSlot(k, h);
      } else {
        OtherSlot(h, k);
      }
    }
    if h + 1 < r.tail + K {
      assert SlotOk(r, h + 1);
    }
  }

  /** A push puts its block behind all others. */
  lemma PushAppends(r: Ring, b: Block)
    requires Pushable(r)
    ensures Inside(Pushed(r, b)) == Inside(r) + [b]
  {
    PushGrowsHead(r, b);
    GrowsInside(r, Pushed(r, b), [b]);
    assert Reversed([b]) == [b];
  }

  lemma RoundGrowsHead(r: Ring, added: seq<Block>, k: nat)
    requires Fillable(r, added, k)
    ensures HeadGrows(r, Round(r, added, k), added[k..k + T - HeadSlot(r).n])
  {
    RoundMoves(r, added, k);
    var h := r.head;
    forall j | r.tail <= j < r.tail + K && j != h
      ensures SameAt(r.slots, Round(r, added, k).slots, j)
    {
      if j < h {
        OtherSlot(j, h);
      } else {
        OtherSlot(h, j);
      }
    }
    if h + 1 < r.tail + K {
      assert SlotOk(r, h + 1);
    }
  }

  lemma PopKeepsOther(r: Ring, k: nat)
    requires Valid(r) && r.head != r.tail && r.tail < k < r.tail + K
    ensures SameAt(r.slots, Popped(r).0.slots, k)
  {
    OtherSlot(r.tail, k);
  }

  lemma PopKeepsRest(r: Ring)
    requires Valid(r) && r.head != r.tail
    ensures Batches(Popped(r).0.slots, r.tail + 1, End(r)) == Batches(r.slots, r.tail + 1, End(r))
  {
    forall k | r.tail + 1 <= k < End(r)
      ensures SameAt(r.slots, Popped(r).0.slots, k)
    {
      PopKeepsOther(r, k);
    }
    BatchesSame(r.slots, Popped(r).0.slots, r.tail + 1, End(r));
  }

  /** The slot that a pop empties is the next to fill, if the ring was full. */
  lemma PopEnds(r: Ring)
    requires Valid(r) && r.head != r.tail
    ensures Inside(Popped(r).0) == Batches(Popped(r).0.slots, r.tail + 1, End(r))
  {
    PopMoves(r);
    if r.head == r.tail + K {
      SameSlot(r.tail);
      assert At(Popped(r).0.slots, r.head) == [];
    }
  }

  lemma PopIsReversed(r: Ring)
    requires |r.slots| == K && r.head != r.tail
    ensures Popped(r).1 == Reversed(At(r.slots, r.tail))
  {
  }

  /** A pop takes the oldest blocks, oldest first. */
  lemma PopTakesFirst(r: Ring)
    requires Valid(r)
    ensures Inside(r) == Popped(r).1 + Inside(Popped(r).0)
  {
    if r.head != r.tail {
      PopIsReversed(r);
      BatchesFront(r.slots, r.tail, End(r));
      PopKeepsRest(r);
      PopEnds(r);
    }
  }

  /** One round of a refill from an empty head slot. */
  lemma RoundAppends(r: Ring, added: seq<Block>, k: nat) returns (r': Ring)
    requires Refillable(r, added, k) && k < |added| && Refill(r, added, k).Done?
    ensures k + T <= |added| && Refillable(r', added, k + T) && Refill(r', added, k + T) == Refill(r, added, k)
    ensures Inside(r') == Inside(r) + Reversed(added[k..k + T])
  {
    FullOnlyWithAllBlocks(r);
    RoundDone(r, added, k);
    RoundGrowsHead(r, added, k);
    r' := Round(r, added, k);
    GrowsInside(r, r', added[k..k + T]);
  }

  lemma NothingToRefill(r: Ring, added: seq<Block>)
    requires |r.slots| == K
    ensures Refill(r, added, |added|) == Done(r) && InBatches(added[|added|..]) == []
  {
  }

  lemma NextBatch(added: seq<Block>, k: nat)
    requires k + T <= |added|
    ensures InBatches(added[k..]) == Reversed(added[k..k + T]) + InBatches(added[k + T..])
  {
    assert added[k..][..T] == added[k..k + T] && added[k..][T..] == added[k + T..];
  }

  /** A refill from an empty head slot puts the new blocks behind all others, batch after batch. */
  lemma {:induction false} RefillAppends(r: Ring, added: seq<Block>, k: nat, last: Ring)
    requires Refillable(r, added, k) && Refill(r, added, k) == Done(last)
    ensures |last.slots| == K && Inside(last) == Inside(r) + InBatches(added[k..])
    decreases |added| - k
  {
    if k < |added| {
      var r' := RoundAppends(r, added, k);
      NextBatch(added, k);
      RefillAppends(r', added, k + T, last);
      Joined(Inside(r), Reversed(added[k..k + T]), InBatches(added[k + T..]));
    } else {
      NothingToRefill(r, added);
    }
  }

  // ----- runs -----

  /** A run with the steps that made it. */
  ghost predicate Made(run: seq<State>, steps: seq<Step>) {
    && |run| == |steps| + 1 && Init(run[0])
    && forall i :: 0 <= i < |steps| ==> Enabled(run[i], steps[i]) && run[i + 1] == Do(run[i], steps[i])
  }

  /** What a step puts in: the block of a push, the batches of a refill. */
  ghost function Gain(step: Step): seq<Block> {
    match step
    case Push(b) => [b]
    case Pop => []
    case Allocate(added) => InBatches(added)
  }

  ghost function Loss(s: State, step: Step): seq<Block>
    requires Enabled(s, step)
  {
    if step.Pop? then Popped(s.ring).1 else []
  }

  /** Everything put in by the first n steps, and everything that their pops have returned. */
  ghost function In(run: seq<State>, steps: seq<Step>, n: nat): seq<Block>
    requires Made(run, steps) && n <= |steps|
  {
    if n == 0 then [] else In(run, steps, n - 1) + Gain(steps[n - 1])
  }

  ghost function Out(run: seq<State>, steps: seq<Step>, n: nat): seq<Block>
    requires Made(run, steps) && n <= |steps|
  {
    if n == 0 then [] else Out(run, steps, n - 1) + Loss(run[n - 1], steps[n - 1])
  }

  lemma MadeIsRun(run: seq<State>, steps: seq<Step>)
    requires Made(run, steps)
    ensures Run(run)
  {
    forall i | 0 <= i < |run| - 1
      ensures StepAt(run, i)
    {
      assert Enabled(run[i], steps[i]) && run[i + 1] == Do(run[i], steps[i]);
      assert StepOf(run[i], run[i + 1]);
    }
  }

  lemma PushKeepsOrder(s: State, b: Block)
    requires Inv(s) && Enabled(s, Push(b))
    ensures Inside(Do(s, Push(b)).ring) == Inside(s.ring) + [b]
  {
    OutsideLeavesRoom(s, b);
    FullOnlyWithAllBlocks(s.ring);
    PushAppends(s.ring, b);
  }

  lemma AllocateKeepsOrder(s: State, added: seq<Block>)
    requires Inv(s) && Enabled(s, Allocate(added))
    ensures |Do(s, Allocate(added)).ring.slots| == K
    ensures Inside(Do(s, Allocate(added)).ring) == Inside(s.ring) + InBatches(added)
  {
    assert |Contents(s.ring.slots) + s.outside| == |Contents(s.ring.slots)| + |s.outside|;
    FullOnlyWithAllBlocks(s.ring);
    RefillFromEmpty(s.ring, added, 0);
    RefillAppends(s.ring, added, 0, Refill(s.ring, added, 0).ring);
    assert added[0..] == added;
  }

  lemma StepKeepsOrder(s: State, step: Step)
    requires Inv(s) && Enabled(s, step)
    ensures |Do(s, step).ring.slots| == K
    ensures Loss(s, step) + Inside(Do(s, step).ring) == Inside(s.ring) + Gain(step)
  {
    match step {
      case Push(b) => PushKeepsOrder(s, b);
      case Pop => PopTakesFirst(s.ring);
      case Allocate(added) => AllocateKeepsOrder(s, added);
    }
  }

  lemma FirstIsEmpty()
    ensures Inside(Unfilled()) == []
  {
    assert Batches(Unfilled().slots, 0, 0) == [];
  }

  lemma OrderGoesOn(out: seq<Block>, inside: seq<Block>, put: seq<Block>, loss: seq<Block>, inside': seq<Block>,
                    gain: seq<Block>)
    requires out + inside == put && loss + inside' == inside + gain
    ensures (out + loss) + inside' == put + gain
  {
    Joined(out, loss, inside');
    Joined(out, inside, gain);
  }

  /** In every run, what the pops have returned and then what is inside, is what was put in, in its order: the shared
      source hands blocks out in the order in which they came in. */
  lemma {:induction false} FirstInFirstOut(run: seq<State>, steps: seq<Step>, n: nat)
    requires Made(run, steps) && n <= |steps|
    ensures |run[n].ring.slots| == K
    ensures Out(run, steps, n) + Inside(run[n].ring) == In(run, steps, n)
    decreases n
  {
    MadeIsRun(run, steps);
    if n == 0 {
      FirstIsEmpty();
    } else {
      FirstInFirstOut(run, steps, n - 1);
      RunKeepsInv(run, n - 1);
      var s, step := run[n - 1], steps[n - 1];
      StepKeepsOrder(s, step);
      OrderGoesOn(Out(run, steps, n - 1), Inside(s.ring), In(run, steps, n - 1), Loss(s, step), Inside(run[n].ring),
                  Gain(step));
    }
  }
}

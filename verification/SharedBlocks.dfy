/** The shared source as a set of free blocks, which the runs of threads take it for, against the ring of batches that
    it is: every step of a thread that concerns the shared source is a step of the ring. */
module SharedBlocks {
  import opened Options
  import opened Sequences
  import opened BlockMemory
  import Ring = RemoteBlocks
  import Threads = BlockRuns

  /** The two agree on which blocks there are and on which of them the shared source holds. */
  ghost predicate Stands(ring: Ring.State, s: Threads.State) {
    && (forall b :: b in s.place <==> b in ring.all)
    && (forall b :: b in s.remote <==> b in Ring.Contents(ring.ring.slots))
  }

  /** The block that a step hands to the shared source. */
  ghost function HandedBy(s: Threads.State, step: Threads.Step): Option<Block>
    requires Threads.Enabled(s, step)
  {
    match step
    case Drop(t, _) => Dropped(Threads.LocalOf(s, t), s.uses).handed
    case Release(t, span) => Released(Threads.LocalOf(s, t), s.uses, span.source).handed
    case _ => None
  }

  /** A step of a thread, and what it is in the ring. */
  ghost predicate Matches(ring: Ring.State, at: Ring.Step, s: Threads.State, step: Threads.Step)
    requires Threads.Enabled(s, step) && Ring.Enabled(ring, at)
  {
    match at
    case Push(b) => HandedBy(s, step) == Some(b)
    case Pop => step.Refill? && step.batch == Ring.Popped(ring.ring).1
    case Allocate(added) => step == Threads.Grow(Elements(added))
  }

  lemma RingHasEach(ring: Ring.State, b: Block)
    requires Ring.Inv(ring)
    ensures Ring.Contents(ring.ring.slots)[b] + ring.outside[b] == ring.all[b] <= 1
  {
    assert (Ring.Contents(ring.ring.slots) + ring.outside)[b] == ring.all[b];
  }

  /** A block that is handed on is one that the ring can take. */
  lemma HandedIsOutside(ring: Ring.State, s: Threads.State, step: Threads.Step)
    requires Ring.Inv(ring) && Threads.Inv(s) && Stands(ring, s) && Threads.Enabled(s, step) && HandedBy(s, step).Some?
    ensures HandedBy(s, step).value in ring.outside && HandedBy(s, step).value !in s.remote
  {
    var b := HandedBy(s, step).value;
    if step.Drop? {
      assert Threads.LocalOk(s, step.t) && Threads.PlaceOk(s, b, step.t) && Threads.BlockOk(s, b);
    } else {
      assert Threads.SpanOk(s, step.span) && Threads.BlockOk(s, b);
    }
    RingHasEach(ring, b);
  }

  lemma PushSimulated(ring: Ring.State, s: Threads.State, step: Threads.Step)
    requires Ring.Inv(ring) && Threads.Inv(s) && Stands(ring, s) && Threads.Enabled(s, step) && HandedBy(s, step).Some?
    requires Ring.Enabled(ring, Ring.Push(HandedBy(s, step).value))
    ensures Stands(Ring.Do(ring, Ring.Push(HandedBy(s, step).value)), Threads.Do(s, step))
  {
    var b := HandedBy(s, step).value;
    HandedIsOutside(ring, s, step);
    Ring.OutsideLeavesRoom(ring, b);
    Ring.FullOnlyWithAllBlocks(ring.ring);
    Ring.PushKeepsValid(ring.ring, b);
    HandedJoins(s, step);
  }

  lemma HandedJoins(s: Threads.State, step: Threads.Step)
    requires Threads.Inv(s) && Threads.Enabled(s, step) && HandedBy(s, step).Some?
    ensures Threads.Do(s, step).place.Keys == s.place.Keys
    ensures Threads.Do(s, step).remote == s.remote + {HandedBy(s, step).value}
  {
    if step.Drop? {
      assert Threads.LocalOk(s, step.t);
    } else {
      assert Threads.SpanOk(s, step.span);
    }
  }

  lemma OnceIsDistinct(list: seq<Block>)
    requires forall b :: multiset(list)[b] <= 1
    ensures Distinct(list)
  {
    forall i, j | 0 <= i < |list| && 0 <= j < |list| && i != j
      ensures Differ(list, i, j)
    {
      if i < j {
        TwiceCounts(list, i, j);
      } else {
        TwiceCounts(list, j, i);
      }
    }
  }

  /** What the ring pops is a batch that a thread may take. */
  lemma PoppedIsBatch(ring: Ring.State, s: Threads.State, t: Threads.Tid)
    requires Ring.Inv(ring) && Stands(ring, s) && ring.ring.head != ring.ring.tail
    requires Threads.LocalOf(s, t).consume == None && Threads.LocalOf(s, t).queue == []
    ensures Threads.Enabled(s, Threads.Refill(t, Ring.Popped(ring.ring).1))
    ensures forall b :: multiset(Ring.Popped(ring.ring).1)[b] <= 1
  {
    var batch := Ring.Popped(ring.ring).1;
    Ring.PopShrinks(ring.ring);
    forall b
      ensures multiset(batch)[b] <= Ring.Contents(ring.ring.slots)[b] <= 1
    {
      RingHasEach(ring, b);
    }
    OnceIsDistinct(batch);
    forall b | b in batch
      ensures b in s.remote
    {
      assert b in multiset(batch);
    }
  }

  lemma PopSimulated(ring: Ring.State, s: Threads.State, t: Threads.Tid)
    requires Ring.Inv(ring) && Stands(ring, s) && Ring.Enabled(ring, Ring.Pop) && ring.ring.head != ring.ring.tail
    requires Threads.LocalOf(s, t).consume == None && Threads.LocalOf(s, t).queue == []
    ensures Threads.Enabled(s, Threads.Refill(t, Ring.Popped(ring.ring).1))
    ensures Stands(Ring.Do(ring, Ring.Pop), Threads.Do(s, Threads.Refill(t, Ring.Popped(ring.ring).1)))
  {
    var (after, batch) := Ring.Popped(ring.ring);
    PoppedIsBatch(ring, s, t);
    Ring.PopShrinks(ring.ring);
    forall b
      ensures b in Ring.Contents(after.slots) <==> b in s.remote && b !in batch
    {
      RingHasEach(ring, b);
      assert b in batch <==> multiset(batch)[b] == 1;
      assert Ring.Contents(ring.ring.slots)[b] == Ring.Contents(after.slots)[b] + multiset(batch)[b];
    }
  }

  lemma AllocateSimulated(ring: Ring.State, s: Threads.State, added: seq<Block>)
    requires Ring.Inv(ring) && Stands(ring, s) && Ring.Enabled(ring, Ring.Allocate(added))
    ensures Threads.Enabled(s, Threads.Grow(Elements(added)))
    ensures Stands(Ring.Do(ring, Ring.Allocate(added)), Threads.Do(s, Threads.Grow(Elements(added))))
  {
    assert |Ring.Contents(ring.ring.slots) + ring.outside| == |Ring.Contents(ring.ring.slots)| + |ring.outside|;
    Ring.RefillInRange(ring.ring, added);
    assert forall b :: b in added <==> b in multiset(added);
  }

  /** The steps of threads that do not concern the shared source. */
  lemma OthersSimulated(ring: Ring.State, s: Threads.State, step: Threads.Step)
    requires Threads.Inv(s) && Stands(ring, s) && Threads.Enabled(s, step)
    requires HandedBy(s, step) == None && !step.Refill? && !step.Grow?
    ensures Stands(ring, Threads.Do(s, step))
  {
    match step {
      case Drop(t, _) => assert Threads.LocalOk(s, t);
      case Take(t) => assert Threads.LocalOk(s, t) && Threads.LocalOf(s, t).queue[0] in s.place;
      case Carve(_, _) =>
      case Release(_, span) => assert Threads.SpanOk(s, span);
    }
  }

  /** The simulation: a step of a thread and its step of the ring lead from agreeing states to agreeing states. */
  lemma StepSimulated(ring: Ring.State, at: Ring.Step, s: Threads.State, step: Threads.Step)
    requires Ring.Inv(ring) && Threads.Inv(s) && Stands(ring, s) && (at.Pop? ==> ring.ring.head != ring.ring.tail)
    requires Threads.Enabled(s, step) && Ring.Enabled(ring, at) && Matches(ring, at, s, step)
    ensures Stands(Ring.Do(ring, at), Threads.Do(s, step))
  {
    match at {
      case Push(b) => PushSimulated(ring, s, step);
      case Pop => PopSimulated(ring, s, step.t);
      case Allocate(added) => AllocateSimulated(ring, s, added);
    }
  }
}

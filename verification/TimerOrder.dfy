/** What a caller sees who pushes timers and pops the heap until it is empty. */
module TimerOrder {
  import opened Ordering
  import opened IntrusiveHeap
  import opened Sequences

  ghost predicate InOrder<K(!new)>(lt: (K, K) -> bool, out: seq<Node<K>>) {
    forall i, j :: 0 <= i < j < |out| ==> NotAbove(lt, out[i], out[j])
  }

  /** Takes every node out of the heap: a sorted permutation of what was in it. */
  method PopAll<K(!new)>(heap: Heap<K>) returns (out: seq<Node<K>>)
    requires heap.Valid()
    modifies heap, Elements(heap.nodes)
    ensures heap.Valid() && heap.nodes == []
    ensures multiset(out) == multiset(old(heap.nodes))
    ensures InOrder(heap.lt, out)
  {
    out := [];
    ghost var all := heap.nodes;
    while heap.size != 0
      invariant heap.Valid() && Elements(heap.nodes) <= Elements(all)
      invariant multiset(out) + multiset(heap.nodes) == multiset(all)
      invariant InOrder(heap.lt, out)
      invariant forall a, b :: a in out && b in heap.nodes ==> NotAbove(heap.lt, a, b)
      decreases heap.size
    {
      var top := heap.root;
      ghost var before := heap.nodes;
      heap.Pop();
      Remaining(heap.lt, before, heap.nodes, top);
      out := out + [top];
    }
  }

  lemma Remaining<K>(lt: (K, K) -> bool, before: seq<Node<K>>, after: seq<Node<K>>, top: Node<K>)
    requires multiset(after) + multiset{top} == multiset(before)
    requires IsMinimum(lt, top, before)
    ensures top in before && Elements(after) <= Elements(before)
    ensures forall x <- after :: x in before && NotAbove(lt, top, x)
  {
    assert top in multiset(before);
    forall x <- after
      ensures x in before && NotAbove(lt, top, x)
    {
      assert x in multiset(after);
      assert x in multiset(before);
    }
  }

  const U64 := 0x1_0000_0000_0000_0000

  /** Timers in the order of their creation, each with the next number of the shared counter, which has not wrapped. */
  ghost predicate Created(timers: seq<Node<TimeSequence>>, first: nat) {
    && first + |timers| <= U64
    && forall i :: 0 <= i < |timers| ==> timers[i].key.seqno == first + i
  }

  /** A sorted output of created timers is strictly ordered, and equal deadlines come out in the order of creation. */
  lemma EqualDeadlinesKeepCreationOrder(timers: seq<Node<TimeSequence>>, first: nat, out: seq<Node<TimeSequence>>,
                                        i: nat, j: nat, a: nat, b: nat)
    requires Created(timers, first) && InOrder(TimeBefore, out) && multiset(out) <= multiset(timers)
    requires i < j < |out| && a < |timers| && b < |timers| && timers[a] == out[i] && timers[b] == out[j]
    ensures TimeBefore(out[i].key, out[j].key) && out[i].key.deadline <= out[j].key.deadline
    ensures out[i].key.deadline == out[j].key.deadline ==> a < b
  {
    assert NotAbove(TimeBefore, out[i], out[j]);
    CreatedAreDistinct(timers, first);
    DifferInOut(timers, out, i, j);
  }

  lemma CreatedAreDistinct(timers: seq<Node<TimeSequence>>, first: nat)
    requires Created(timers, first)
    ensures Distinct(timers)
  {
    forall i, j | 0 <= i < |timers| && 0 <= j < |timers| && i != j
      ensures Differ(timers, i, j)
    {
      assert timers[i].key.seqno == first + i && timers[j].key.seqno == first + j;
    }
  }

  lemma DifferInOut<K>(timers: seq<Node<K>>, out: seq<Node<K>>, i: nat, j: nat)
    requires Distinct(timers) && multiset(out) <= multiset(timers) && i < j < |out|
    ensures out[i] != out[j]
  {
    DistinctCounts(timers, out[i]);
    TwiceCounts(out, i, j);
  }
}

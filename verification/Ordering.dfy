/** The comparison that a heap is given: a strict weak order, as operator< of its key. */
module Ordering {

  ghost predicate StrictWeakOrder<K(!new)>(lt: (K, K) -> bool) {
    && (forall a :: !lt(a, a))
    && (forall a, b, c :: lt(a, b) && lt(b, c) ==> lt(a, c))
    && (forall a, b, c :: !lt(a, b) && !lt(b, c) ==> !lt(a, c))
  }

  /** The key of a timer: its deadline, and the order of creation among equal deadlines. */
  datatype TimeSequence = TimeSequence(deadline: int, seqno: nat)

  predicate TimeBefore(a: TimeSequence, b: TimeSequence) {
    a.deadline < b.deadline || (!(b.deadline < a.deadline) && a.seqno < b.seqno)
  }

  lemma TimeBeforeIsStrictWeakOrder()
    ensures StrictWeakOrder(TimeBefore)
    ensures forall a, b :: !TimeBefore(a, b) && !TimeBefore(b, a) ==> a == b
  {
    forall a: TimeSequence, b: TimeSequence, c: TimeSequence
      ensures TimeBefore(a, b) && TimeBefore(b, c) ==> TimeBefore(a, c)
      ensures !TimeBefore(a, b) && !TimeBefore(b, c) ==> !TimeBefore(a, c)
    {
    }
  }
}

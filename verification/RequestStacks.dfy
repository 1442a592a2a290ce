/** The stack of a request queue, which remote requests take for a sequence, against the linked nodes of the shared
    stack: a submitter's push and a collector's reset are the successful exchanges of the shared stack. */
module RequestStacks {
  import opened Options
  import opened Sequences
  import Stack = AtomicQueue
  import opened RemoteRequests

  /** The shared stack holds the operations of request queue q. */
  ghost predicate Stands(a: Stack.State, r: State, q: Queue) {
    a.contents == Of(r.stacks, q)
  }

  /** The step that decides a push or a reset. */
  predicate Decides(a: Stack.State, step: Stack.Step) {
    && step.Continue? && !step.spurious
    && (Stack.PcOf(a, step.t).Swapping? || Stack.PcOf(a, step.t).Resetting?)
    && Stack.PcOf(a, step.t).expected == a.head
  }

  /** Until it is decided, no step of the shared stack shows. */
  lemma OthersSimulated(a: Stack.State, step: Stack.Step, r: State, q: Queue)
    requires Stands(a, r, q) && Stack.Enabled(a, step) && !Decides(a, step)
    ensures Stands(Stack.Do(a, step), r, q)
  {
  }

  /** The exchange of a pusher is the push of its submitter. */
  lemma PushSimulated(a: Stack.State, t: Stack.Tid, r: State, u: Tid, q: Queue, op: Op)
    requires Stack.Inv(a) && Stands(a, r, q) && Sub(r, u) == Inside(q, op)
    requires Stack.PcOf(a, t) == Stack.Swapping([op], a.head)
    ensures Stands(Stack.Do(a, Stack.Continue(t, false)), DoSubmit(r, u, Inside(q, op), false), q)
  {
  }

  /** The exchange of a collector is the reset of the queue: the collector gets the links of all its operations, newest
      first and its own from now on, and their reverse is what the collection gains. */
  lemma ResetSimulated(a: Stack.State, t: Stack.Tid, r: State, q: Queue)
    requires Stack.Inv(a) && Stands(a, r, q) && r.loop.Folding?
    requires Stack.PcOf(a, t) == Stack.Resetting(a.head)
    ensures
      var a', r' := Stack.Do(a, Stack.Continue(t, false)), TakeQueue(r, q);
      && Stands(a', r', q) && r'.loop.acc == r.loop.acc + Reversed(a.contents)
      && a.head == Stack.First(a.contents) && Stack.Linked(a'.next, a.contents)
      && Stack.EndsWith(a'.next, a.contents, None) && forall n :: n in a.contents ==> Stack.Owns(a', t, n)
  {
  }

  /** Other queues are other stacks. */
  lemma ElsewhereSimulated(a: Stack.State, r: State, u: Tid, p: Queue, q: Queue, op: Op)
    requires Stands(a, r, q) && p != q
    ensures Stands(a, DoSubmit(r, u, Inside(p, op), false), q)
    ensures r.loop.Folding? ==> Stands(a, TakeQueue(r, p), q)
  {
  }
}

/** A whole collection of remote requests, in any run: what it adds to the pending list while submitters push and queues
    are registered. */
module RequestCollection {
  import opened Sequences
  import opened RemoteRequests

  predicate Folds(s: State, kind: Kind) {
    s.loop.Folding? && s.loop.kind == kind
  }

  /** The states from first to last belong to one collection of a kind. */
  ghost predicate OneCollection(run: seq<State>, first: nat, last: nat, kind: Kind) {
    && Run(run) && 0 < first <= last && last + 1 < |run|
    && !Folds(run[first - 1], kind) && !Folds(run[last + 1], kind)
    && forall m :: first <= m <= last ==> Folds(run[m], kind)
  }

  /** What collection has taken out of a queue between two states. */
  function Took(s0: State, s: State, q: Queue): seq<Op> {
    if |Of(s0.taken, q)| <= |Of(s.taken, q)| then Of(s.taken, q)[|Of(s0.taken, q)|..] else []
  }

  /** The same of several queues, one after another. */
  function AllTook(s0: State, s: State, queues: seq<Queue>): seq<Op> {
    if queues == [] then []
    else AllTook(s0, s, queues[..|queues| - 1]) + Took(s0, s, queues[|queues| - 1])
  }

  lemma {:induction false} AllTookSame(s0: State, s: State, s': State, queues: seq<Queue>)
    requires forall q :: q in queues ==> Of(s'.taken, q) == Of(s.taken, q)
    ensures AllTook(s0, s', queues) == AllTook(s0, s, queues)
  {
    if queues != [] {
      var front := queues[..|queues| - 1];
      forall q | q in front ensures q in queues { }
      AllTookSame(s0, s, s', front);
      assert queues[|queues| - 1] in queues;
    }
  }

  // ----- registered queues -----

  ghost predicate QueuesOk(s: State) {
    && Distinct(s.ringQueues) && Distinct(s.timerQueues)
    && forall q :: q in s.ringQueues ==> q !in s.timerQueues
  }

  lemma RegisterKeepsQueues(s: State, q: Queue, kind: Kind)
    requires QueuesOk(s) && Enabled(s, Register(q, kind))
    ensures QueuesOk(Do(s, Register(q, kind)))
  {
    DistinctJoined(Queues(s, kind), [q]);
  }

  ghost predicate QueuesKept(s: State, s': State) {
    s'.ringQueues == s.ringQueues && s'.timerQueues == s.timerQueues
  }

  lemma SubmitterKeepsQueues(s: State, t: Tid, sub: Submitter, spurious: bool)
    requires !sub.Idle?
    ensures QueuesKept(s, DoSubmit(s, t, sub, spurious))
  {
    match sub {
      case Trying(_, _, _) =>
      case Inside(_, _) =>
      case Leaving =>
    }
  }

  lemma CloseKeepsQueues(s: State, spurious: bool)
    ensures QueuesKept(s, DoClose(s, spurious))
  {
  }

  lemma FoldKeepsQueues(s: State)
    requires s.loop.Folding?
    ensures QueuesKept(s, DoFold(s))
  {
  }

  lemma OthersKeepQueues(s: State, step: Step)
    requires Enabled(s, step) && !step.Register?
    ensures QueuesKept(s, Do(s, step))
  {
    match step {
      case Submit(_, _, _) =>
      case Continue(t, spurious) => SubmitterKeepsQueues(s, t, Sub(s, t), spurious);
      case Collect =>
      case Close =>
      case Turn(spurious) =>
        if s.loop.Closing? {
          CloseKeepsQueues(s, spurious);
        } else {
          FoldKeepsQueues(s);
        }
    }
  }

  lemma StepKeepsQueues(run: seq<State>, i: nat)
    requires Run(run) && i + 1 < |run| && QueuesOk(run[i])
    ensures QueuesOk(run[i + 1])
  {
    assert StepAt(run, i);
    var step :| Enabled(run[i], step) && run[i + 1] == Do(run[i], step);
    if step.Register? {
      RegisterKeepsQueues(run[i], step.q, step.kind);
    } else {
      OthersKeepQueues(run[i], step);
    }
  }

  lemma {:induction false} RunKeepsQueues(run: seq<State>, i: nat)
    requires Run(run) && i < |run|
    ensures QueuesOk(run[i])
  {
    if i > 0 {
      RunKeepsQueues(run, i - 1);
      StepKeepsQueues(run, i - 1);
    }
  }

  // ----- the progress of a collection -----

  /** Queues of one kind are only added, and a queue's history only grows. */
  ghost predicate Grown(s0: State, s: State, kind: Kind) {
    && Queues(s0, kind) <= Queues(s, kind)
    && forall q :: Of(s0.taken, q) <= Of(s.taken, q) && Of(s0.pushed, q) <= Of(s.pushed, q)
  }

  /** The first i queues have given all that was pushed to them before, in the order of registration; the others
      nothing. */
  ghost predicate Collecting(s0: State, s: State, kind: Kind) {
    && Folds(s, kind) && Grown(s0, s, kind) && PendingOf(s, kind) == PendingOf(s0, kind)
    && s.loop.i <= s.loop.r == |Queues(s0, kind)|
    && s.loop.acc == AllTook(s0, s, Queues(s0, kind)[..s.loop.i])
    && (forall j :: 0 <= j < s.loop.i ==> Emptied(s0, s, Queues(s0, kind)[j]))
    && (forall j :: s.loop.i <= j < s.loop.r ==> Waits(s0, s, Queues(s0, kind)[j]))
  }

  ghost predicate Emptied(s0: State, s: State, q: Queue) {
    Of(s0.pushed, q) <= Of(s.taken, q)
  }

  ghost predicate Waits(s0: State, s: State, q: Queue) {
    Of(s.taken, q) == Of(s0.taken, q)
  }

  ghost predicate AtBegin(s: State, kind: Kind) {
    s.loop == Folding(kind, 0, |Queues(s, kind)|, [], s.loop.Folding? && s.loop.last)
  }

  lemma SubmitterKeepsLoop(s: State, t: Tid, sub: Submitter, spurious: bool)
    requires !sub.Idle?
    ensures DoSubmit(s, t, sub, spurious).loop == s.loop
  {
    match sub {
      case Trying(_, _, _) =>
      case Inside(_, _) =>
      case Leaving =>
    }
  }

  lemma LoopBegins(s: State, spurious: bool, kind: Kind)
    requires !Folds(s, kind)
    ensures s.loop.Closing? && Folds(DoClose(s, spurious), kind) ==> AtBegin(DoClose(s, spurious), kind)
    ensures s.loop.Folding? && Folds(DoFold(s), kind) ==> AtBegin(DoFold(s), kind)
  {
  }

  lemma BeginsEmpty(s: State, step: Step, kind: Kind)
    requires Enabled(s, step) && !Folds(s, kind) && Folds(Do(s, step), kind)
    ensures AtBegin(Do(s, step), kind)
  {
    match step {
      case Register(_, _) =>
      case Submit(_, _, _) =>
      case Continue(t, spurious) => SubmitterKeepsLoop(s, t, Sub(s, t), spurious);
      case Collect =>
      case Close =>
      case Turn(spurious) => LoopBegins(s, spurious, kind);
    }
  }

  lemma CollectionBegins(s: State, kind: Kind)
    requires AtBegin(s, kind)
    ensures Collecting(s, s, kind)
  {
    assert Queues(s, kind)[..0] == [];
  }

  /** What the steps of submitters and registrations leave alone. */
  ghost predicate Quiet(s: State, s': State) {
    && s'.loop == s.loop && s'.taken == s.taken && s'.ringPending == s.ringPending && s'.timerPending == s.timerPending
    && s.ringQueues <= s'.ringQueues && s.timerQueues <= s'.timerQueues
    && forall q :: Of(s.pushed, q) <= Of(s'.pushed, q)
  }

  lemma PushIsQuiet(s: State, t: Tid, q: Queue, op: Op, spurious: bool)
    ensures Quiet(s, DoSubmit(s, t, Inside(q, op), spurious))
  {
  }

  lemma SameIsQuiet(s: State, s': State)
    requires SameQueues(s, s')
    ensures Quiet(s, s')
  {
  }

  lemma LeaveIsQuiet(s: State, t: Tid, spurious: bool)
    ensures Quiet(s, DoSubmit(s, t, Leaving, spurious))
  {
    SameIsQuiet(s, DoSubmit(s, t, Leaving, spurious));
  }

  lemma TryIsQuiet(s: State, t: Tid, sub: Submitter, spurious: bool)
    requires sub.Trying?
    ensures Quiet(s, DoSubmit(s, t, sub, spurious))
  {
    assert SameQueues(s, DoSubmit(s, t, sub, spurious));
    SameIsQuiet(s, DoSubmit(s, t, sub, spurious));
  }

  lemma SubmitterIsQuiet(s: State, t: Tid, sub: Submitter, spurious: bool)
    requires !sub.Idle?
    ensures Quiet(s, DoSubmit(s, t, sub, spurious))
  {
    match sub {
      case Trying(_, _, _) => TryIsQuiet(s, t, sub, spurious);
      case Inside(q, op) => PushIsQuiet(s, t, q, op, spurious);
      case Leaving => LeaveIsQuiet(s, t, spurious);
    }
  }

  lemma RegisterIsQuiet(s: State, q: Queue, kind: Kind)
    requires Enabled(s, Register(q, kind))
    ensures Quiet(s, Do(s, Register(q, kind)))
  {
  }

  lemma BeginIsQuiet(s: State, t: Tid, q: Queue, op: Op)
    requires Enabled(s, Submit(t, q, op))
    ensures Quiet(s, Do(s, Submit(t, q, op)))
  {
  }

  lemma OthersAreQuiet(s: State, step: Step)
    requires Enabled(s, step) && s.loop.Folding? && !step.Turn?
    ensures Quiet(s, Do(s, step))
  {
    match step {
      case Register(q, kind) => RegisterIsQuiet(s, q, kind);
      case Submit(t, q, op) => BeginIsQuiet(s, t, q, op);
      case Continue(t, spurious) => SubmitterIsQuiet(s, t, Sub(s, t), spurious);
    }
  }

  lemma QuietKeepsCollecting(s0: State, s: State, s': State, kind: Kind)
    requires Collecting(s0, s, kind) && Quiet(s, s')
    ensures Collecting(s0, s', kind)
  {
    var queues := Queues(s0, kind);
    AllTookSame(s0, s, s', queues[..s.loop.i]);
    forall q
      ensures Of(s0.taken, q) <= Of(s'.taken, q) && Of(s0.pushed, q) <= Of(s'.pushed, q)
    {
      assert Of(s0.pushed, q) <= Of(s.pushed, q);
    }
    forall j | 0 <= j < s.loop.i
      ensures Emptied(s0, s', queues[j])
    {
      assert Emptied(s0, s, queues[j]);
    }
    forall j | s.loop.i <= j < s.loop.r
      ensures Waits(s0, s', queues[j])
    {
      assert Waits(s0, s, queues[j]);
    }
  }

  lemma TakeGrows(s0: State, s: State, q: Queue, kind: Kind)
    requires Folds(s, kind) && Grown(s0, s, kind)
    ensures Grown(s0, TakeQueue(s, q), kind)
  {
  }

  lemma TakeKeepsOthers(s0: State, s: State, q: Queue, kind: Kind)
    requires Collecting(s0, s, kind) && NextQueue(s, q) && QueueOk(s, q) && Distinct(Queues(s0, kind))
    ensures
      var s', queues := TakeQueue(s, q), Queues(s0, kind);
      && queues[s.loop.i] == q && Emptied(s0, s', q)
      && (forall j :: 0 <= j < s.loop.i ==> Emptied(s0, s', queues[j]))
      && (forall j :: s.loop.i < j < s.loop.r ==> Waits(s0, s', queues[j]))
  {
    var s', queues := TakeQueue(s, q), Queues(s0, kind);
    var i := s.loop.i;
    assert Of(s'.taken, q) == Of(s.pushed, q);
    forall j | 0 <= j < i
      ensures Emptied(s0, s', queues[j])
    {
      assert Emptied(s0, s, queues[j]) && Differ(queues, i, j);
    }
    forall j | i < j < s.loop.r
      ensures Waits(s0, s', queues[j])
    {
      assert Waits(s0, s, queues[j]) && Differ(queues, i, j);
    }
  }

  lemma TakeOfQueue(s: State, q: Queue)
    requires s.loop.Folding?
    ensures TakeQueue(s, q).loop.acc == s.loop.acc + Reversed(Of(s.stacks, q))
    ensures Of(TakeQueue(s, q).taken, q) == Of(s.taken, q) + Reversed(Of(s.stacks, q))
    ensures forall p :: p != q ==> Of(TakeQueue(s, q).taken, p) == Of(s.taken, p)
  {
  }

  lemma TookBatch(s0: State, s: State, q: Queue)
    requires s.loop.Folding? && Waits(s0, s, q)
    ensures Took(s0, TakeQueue(s, q), q) == Reversed(Of(s.stacks, q))
  {
    TakeOfQueue(s, q);
  }

  lemma NotAmongFirst(queues: seq<Queue>, i: nat)
    requires Distinct(queues) && i < |queues|
    ensures queues[i] !in queues[..i]
  {
    forall j | 0 <= j < i
      ensures queues[j] != queues[i]
    {
      assert Differ(queues, i, j);
    }
  }

  lemma TakeAppends(s0: State, s: State, q: Queue, kind: Kind)
    requires Collecting(s0, s, kind) && NextQueue(s, q) && Distinct(Queues(s0, kind))
    ensures TakeQueue(s, q).loop.acc == AllTook(s0, TakeQueue(s, q), Queues(s0, kind)[..s.loop.i + 1])
  {
    var s', queues, i := TakeQueue(s, q), Queues(s0, kind), s.loop.i;
    assert Waits(s0, s, queues[i]) && queues[i] == q;
    assert queues[..i + 1][..i] == queues[..i];
    NotAmongFirst(queues, i);
    TakeOfQueue(s, q);
    AllTookSame(s0, s, s', queues[..i]);
    TookBatch(s0, s, q);
  }

  /** The reset of the next queue adds what is pending in it. */
  lemma TakeKeepsCollecting(s0: State, s: State, q: Queue, kind: Kind)
    requires Collecting(s0, s, kind) && NextQueue(s, q) && QueueOk(s, q) && Distinct(Queues(s0, kind))
    ensures Collecting(s0, TakeQueue(s, q), kind)
  {
    TakeGrows(s0, s, q, kind);
    TakeKeepsOthers(s0, s, q, kind);
    TakeAppends(s0, s, q, kind);
  }

  lemma TurnTakes(s: State, step: Step, kind: Kind)
    requires Enabled(s, step) && step.Turn? && Folds(s, kind) && s.loop.i <= s.loop.r <= |Queues(s, kind)|
    ensures if s.loop.i < s.loop.r then Do(s, step) == TakeQueue(s, Queues(s, kind)[s.loop.i])
            else Do(s, step) == EndFold(s) && !Folds(EndFold(s), kind)
  {
  }

  lemma StepKeepsCollecting(s0: State, s: State, step: Step, kind: Kind)
    requires Collecting(s0, s, kind) && Enabled(s, step) && Distinct(Queues(s0, kind)) && forall q :: QueueOk(s, q)
    ensures if Folds(Do(s, step), kind) then Collecting(s0, Do(s, step), kind)
            else s.loop.i == s.loop.r && Do(s, step) == EndFold(s)
  {
    if step.Turn? {
      TurnTakes(s, step, kind);
      if s.loop.i < s.loop.r {
        var q := Queues(s, kind)[s.loop.i];
        assert QueueOk(s, q);
        TakeKeepsCollecting(s0, s, q, kind);
      }
    } else {
      OthersAreQuiet(s, step);
      QuietKeepsCollecting(s0, s, Do(s, step), kind);
    }
  }

  lemma RunStepCollects(run: seq<State>, first: nat, m: nat, kind: Kind)
    requires Run(run) && 0 < first <= m + 1 < |run|
    requires if m + 1 == first then !Folds(run[m], kind) && Folds(run[first], kind)
             else Collecting(run[first], run[m], kind)
    ensures if Folds(run[m + 1], kind) then Collecting(run[first], run[m + 1], kind)
            else run[m].loop.Folding? && run[m].loop.i == run[m].loop.r && run[m + 1] == EndFold(run[m])
  {
    assert StepAt(run, m);
    var step :| Enabled(run[m], step) && run[m + 1] == Do(run[m], step);
    if m + 1 == first {
      BeginsEmpty(run[m], step, kind);
      CollectionBegins(run[first], kind);
    } else {
      RunKeepsInv(run, m);
      RunKeepsQueues(run, first);
      StepKeepsCollecting(run[first], run[m], step, kind);
    }
  }

  lemma {:induction false} RunKeepsCollecting(run: seq<State>, first: nat, last: nat, m: nat, kind: Kind)
    requires OneCollection(run, first, last, kind) && first <= m <= last
    ensures Collecting(run[first], run[m], kind)
    decreases m
  {
    if m > first {
      RunKeepsCollecting(run, first, last, m - 1, kind);
    }
    RunStepCollects(run, first, m - 1, kind);
  }

  lemma CollectionEnds(s0: State, s: State, kind: Kind)
    requires Collecting(s0, s, kind) && s.loop.i == s.loop.r
    ensures PendingOf(EndFold(s), kind) == PendingOf(s0, kind) + AllTook(s0, EndFold(s), Queues(s0, kind))
  {
    var queues := Queues(s0, kind);
    assert queues[..|queues|] == queues;
    AllTookSame(s0, s, EndFold(s), queues);
  }

  lemma CollectedOf(s0: State, s: State, kind: Kind, q: Queue)
    requires Collecting(s0, s, kind) && s.loop.i == s.loop.r && q in Queues(s0, kind) && QueueOk(s, q)
    ensures
      var s' := EndFold(s);
      Of(s'.taken, q) == Of(s0.taken, q) + Took(s0, s', q) && Of(s0.pushed, q) <= Of(s'.taken, q) <= Of(s'.pushed, q)
  {
    var j :| 0 <= j < |Queues(s0, kind)| && Queues(s0, kind)[j] == q;
    assert Emptied(s0, s, Queues(s0, kind)[j]);
    EndKeepsHistory(s);
    TookIsRest(s0, EndFold(s), q);
  }

  lemma EndKeepsHistory(s: State)
    requires s.loop.Folding?
    ensures EndFold(s).taken == s.taken && EndFold(s).pushed == s.pushed
  {
    if s.loop.kind.Ring? {
      assert EndFold(s).taken == s.taken;
    } else {
      assert EndFold(s).taken == s.taken;
    }
  }

  lemma TookIsRest(s0: State, s: State, q: Queue)
    requires Of(s0.taken, q) <= Of(s.taken, q)
    ensures Of(s.taken, q) == Of(s0.taken, q) + Took(s0, s, q)
  {
  }

  /** In every run, one collection appends, queue by queue in the order of registration, what it took out of each queue
      registered when it began; and of each it took the next of its pushes, up to at least all those made before the
      collection began. */
  lemma CollectionAppends(run: seq<State>, first: nat, last: nat, kind: Kind)
    requires OneCollection(run, first, last, kind)
    ensures
      var s, s' := run[first], run[last + 1];
      PendingOf(s', kind) == PendingOf(s, kind) + AllTook(s, s', Queues(s, kind))
    ensures
      var s, s' := run[first], run[last + 1];
      forall q :: q in Queues(s, kind) ==>
        Of(s'.taken, q) == Of(s.taken, q) + Took(s, s', q) && Of(s.pushed, q) <= Of(s'.taken, q) <= Of(s'.pushed, q)
  {
    var s0, s := run[first], run[last];
    RunKeepsCollecting(run, first, last, last, kind);
    RunStepCollects(run, first, last, kind);
    CollectionEnds(s0, s, kind);
    RunKeepsInv(run, last);
    forall q | q in Queues(s0, kind)
      ensures Of(run[last + 1].taken, q) == Of(s0.taken, q) + Took(s0, run[last + 1], q)
      ensures Of(s0.pushed, q) <= Of(run[last + 1].taken, q) <= Of(run[last + 1].pushed, q)
    {
      assert QueueOk(s, q);
      CollectedOf(s0, s, kind, q);
    }
  }
}

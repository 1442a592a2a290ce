/** A whole round of the loop, in any run: one collection of the ring queues, then one of the timer queues. */
module RequestRounds {
  import opened Sequences
  import opened RemoteRequests
  import opened RequestCollection

  /** The first state from a on that folds no queue of the kind. */
  lemma {:induction false} FoldEnds(run: seq<State>, a: nat, last: nat, kind: Kind) returns (b: nat)
    requires a <= last < |run| && !Folds(run[last], kind)
    ensures a <= b <= last && !Folds(run[b], kind) && forall m :: a <= m < b ==> Folds(run[m], kind)
    decreases last - a
  {
    if Folds(run[a], kind) {
      b := FoldEnds(run, a + 1, last, kind);
    } else {
      b := a;
    }
  }

  lemma {:induction false} AllTookBoth(s0: State, s: State, t0: State, t: State, queues: seq<Queue>)
    requires forall q :: q in queues ==> Of(t0.taken, q) == Of(s0.taken, q) && Of(t.taken, q) == Of(s.taken, q)
    ensures AllTook(t0, t, queues) == AllTook(s0, s, queues)
  {
    if queues != [] {
      var front := queues[..|queues| - 1];
      forall q | q in front ensures q in queues { }
      AllTookBoth(s0, s, t0, t, front);
      assert queues[|queues| - 1] in queues;
    }
  }

  // ----- what the collection of one kind leaves to the other -----

  function Other(kind: Kind): Kind {
    if kind.Ring? then Timer else Ring
  }

  /** The pending list of a kind is as before, and so is what was taken from queues that are not of the other kind. */
  ghost predicate Untouched(s: State, s': State, kind: Kind) {
    && PendingOf(s', kind) == PendingOf(s, kind)
    && s.ringQueues <= s'.ringQueues && s.timerQueues <= s'.timerQueues
    && forall q :: q !in Queues(s', Other(kind)) ==> Of(s'.taken, q) == Of(s.taken, q)
  }

  lemma QuietLeavesOther(s: State, s': State, kind: Kind)
    requires Quiet(s, s')
    ensures Untouched(s, s', kind)
  {
  }

  lemma TakeLeavesOther(s: State, kind: Kind, i: nat)
    requires Folds(s, kind) && i < |Queues(s, kind)| && QueuesOk(s)
    ensures Untouched(s, TakeQueue(s, Queues(s, kind)[i]), Other(kind))
  {
    var q := Queues(s, kind)[i];
    TakeOfQueue(s, q);
    assert q in Queues(s, kind);
  }

  lemma EndLeavesOther(s: State, kind: Kind)
    requires Folds(s, kind)
    ensures Untouched(s, EndFold(s), Other(kind))
  {
    EndKeepsHistory(s);
  }

  lemma StepLeavesOther(run: seq<State>, m: nat, kind: Kind)
    requires Run(run) && m + 1 < |run| && Folds(run[m], kind)
    ensures Untouched(run[m], run[m + 1], Other(kind))
    ensures run[m + 1].loop.Folding? ==> run[m + 1].loop.last == run[m].loop.last
  {
    assert StepAt(run, m);
    var step :| Enabled(run[m], step) && run[m + 1] == Do(run[m], step);
    RunKeepsQueues(run, m);
    RunKeepsInv(run, m);
    var s := run[m];
    if step.Turn? {
      if s.loop.i < s.loop.r {
        TakeLeavesOther(s, kind, s.loop.i);
      } else {
        EndLeavesOther(s, kind);
      }
    } else {
      OthersAreQuiet(s, step);
      QuietLeavesOther(s, run[m + 1], Other(kind));
    }
  }

  lemma {:induction false} FoldLeavesOther(run: seq<State>, a: nat, b: nat, kind: Kind)
    requires Run(run) && a <= b < |run| && forall m :: a <= m < b ==> Folds(run[m], kind)
    ensures Untouched(run[a], run[b], Other(kind))
    ensures Folds(run[a], kind) && run[b].loop.Folding? ==> run[b].loop.last == run[a].loop.last
    decreases b
  {
    if a < b {
      FoldLeavesOther(run, a, b - 1, kind);
      StepLeavesOther(run, b - 1, kind);
      UntouchedTwice(run[a], run[b - 1], run[b], Other(kind));
    }
  }

  lemma UntouchedTwice(s: State, m: State, s': State, kind: Kind)
    requires Untouched(s, m, kind) && Untouched(m, s', kind)
    ensures Untouched(s, s', kind)
  {
    forall q | q !in Queues(s', Other(kind))
      ensures Of(s'.taken, q) == Of(s.taken, q)
    {
      assert q !in Queues(m, Other(kind));
    }
  }

  // ----- one round -----

  /** From a state in which no queue is folded into the collection of the ring queues. */
  ghost predicate RoundBegins(s: State, s': State) {
    && !s.loop.Folding? && AtBegin(s', Ring)
    && s' == s.(counter := s'.counter, loop := s'.loop)
  }

  /** A round of collections: it begins in state first, and last is the first state in which the loop runs again or has
      stopped. */
  ghost predicate Round(run: seq<State>, first: nat, last: nat) {
    && Run(run) && first + 1 < last < |run| && RoundBegins(run[first], run[first + 1])
    && !run[last].loop.Folding? && !run[last].loop.Closing?
    && forall m :: first < m < last ==> run[m].loop.Folding? || run[m].loop.Closing?
  }

  lemma CollectionOver(run: seq<State>, a: nat, b: nat, kind: Kind)
    requires Run(run) && 0 < a < b < |run| && !Folds(run[a - 1], kind) && !Folds(run[b], kind)
    requires forall m :: a <= m < b ==> Folds(run[m], kind)
    ensures OneCollection(run, a, b - 1, kind)
    ensures run[b] == EndFold(run[b - 1]) && run[b - 1].loop.last == run[a].loop.last
    ensures Grown(run[a], run[b - 1], kind)
  {
    RunKeepsCollecting(run, a, b - 1, b - 1, kind);
    RunStepCollects(run, a, b - 1, kind);
    FoldLeavesOther(run, a, b - 1, kind);
  }

  /** A round is one collection of the ring queues up to some state, and one of the timer queues from there on. */
  lemma RoundSplits(run: seq<State>, first: nat, last: nat) returns (mid: nat)
    requires Round(run, first, last)
    ensures first + 1 < mid < last
    ensures OneCollection(run, first + 1, mid - 1, Ring) && OneCollection(run, mid, last - 1, Timer)
    ensures Grown(run[first + 1], run[mid - 1], Ring) && run[mid].pushed == run[mid - 1].pushed
    ensures run[last].loop == if run[first + 1].loop.last then Stopped else Running
  {
    mid := FoldEnds(run, first + 1, last, Ring);
    CollectionOver(run, first + 1, mid, Ring);
    EndKeepsHistory(run[mid - 1]);
    var end := FoldEnds(run, mid, last, Timer);
    CollectionOver(run, mid, end, Timer);
  }

  /** What the two collections of a round leave to each other. */
  lemma RoundHalves(run: seq<State>, first: nat, mid: nat, last: nat)
    requires Round(run, first, last) && first + 1 < mid < last
    requires OneCollection(run, first + 1, mid - 1, Ring) && OneCollection(run, mid, last - 1, Timer)
    ensures Untouched(run[first], run[mid], Timer) && Untouched(run[mid], run[last], Ring)
  {
    FoldLeavesOther(run, first + 1, mid, Ring);
    FoldLeavesOther(run, mid, last, Timer);
  }

  /** The pending list of a kind has grown by what was taken from these queues, in this order. */
  ghost predicate Appended(s: State, s': State, kind: Kind, queues: seq<Queue>) {
    PendingOf(s', kind) == PendingOf(s, kind) + AllTook(s, s', queues)
  }

  /** Whatever was pushed to the queue before state s has been taken in state s'. */
  ghost predicate AllTaken(s: State, s': State, q: Queue) {
    Of(s.pushed, q) <= Of(s'.taken, q)
  }

  /** What CollectionAppends says of a collection that the step to state b ends. */
  lemma CollectionTakes(run: seq<State>, a: nat, b: nat, kind: Kind)
    requires 0 < a < b && OneCollection(run, a, b - 1, kind)
    ensures Appended(run[a], run[b], kind, Queues(run[a], kind))
    ensures forall q :: q in Queues(run[a], kind) ==> AllTaken(run[a], run[b], q)
  {
    CollectionAppends(run, a, b - 1, kind);
  }

  lemma CollectionKeepsQueues(run: seq<State>, a: nat, b: nat, kind: Kind)
    requires 0 < a < b && OneCollection(run, a, b - 1, kind)
    ensures Queues(run[a], kind) <= Queues(run[b], kind)
  {
    RunKeepsCollecting(run, a, b - 1, b - 1, kind);
    RunStepCollects(run, a, b - 1, kind);
  }

  lemma RingHalf(run: seq<State>, first: nat, mid: nat, last: nat)
    requires Round(run, first, last) && first + 1 < mid < last
    requires OneCollection(run, first + 1, mid - 1, Ring) && Untouched(run[mid], run[last], Ring)
    ensures Appended(run[first], run[last], Ring, run[first].ringQueues)
    ensures forall q :: q in run[first].ringQueues ==> AllTaken(run[first], run[last], q)
    ensures run[first].ringQueues <= run[last].ringQueues
  {
    var queues := run[first].ringQueues;
    CollectionTakes(run, first + 1, mid, Ring);
    CollectionKeepsQueues(run, first + 1, mid, Ring);
    RunKeepsQueues(run, last);
    forall q | q in queues
      ensures Of(run[last].taken, q) == Of(run[mid].taken, q)
    {
      assert q in run[last].ringQueues;
    }
    AllTookBoth(run[first + 1], run[mid], run[first], run[last], queues);
  }

  /** What had not been taken before the collection of a kind began had not been taken before the round either. */
  lemma TookTimers(run: seq<State>, first: nat, mid: nat, last: nat)
    requires Run(run) && first < mid < last < |run| && Untouched(run[first], run[mid], Timer)
    ensures AllTook(run[first], run[last], run[mid].timerQueues) == AllTook(run[mid], run[last], run[mid].timerQueues)
  {
    RunKeepsQueues(run, mid);
    AllTookBoth(run[mid], run[last], run[first], run[last], run[mid].timerQueues);
  }

  lemma TimerHalf(run: seq<State>, first: nat, mid: nat, last: nat)
    requires Round(run, first, last) && first + 1 < mid < last
    requires OneCollection(run, mid, last - 1, Timer) && Untouched(run[first], run[mid], Timer)
    requires forall q :: AllPushed(run[first], run[mid], q)
    ensures Appended(run[first], run[last], Timer, run[mid].timerQueues)
    ensures forall q :: q in run[mid].timerQueues ==> AllTaken(run[first], run[last], q)
  {
    CollectionTakes(run, mid, last, Timer);
    TookTimers(run, first, mid, last);
    forall q | q in run[mid].timerQueues
      ensures AllTaken(run[first], run[last], q)
    {
      assert AllPushed(run[first], run[mid], q) && AllTaken(run[mid], run[last], q);
    }
  }

  /** A queue's history of pushes has only grown. */
  ghost predicate AllPushed(s: State, s': State, q: Queue) {
    Of(s.pushed, q) <= Of(s'.pushed, q)
  }

  lemma RoundTimers(run: seq<State>, first: nat, mid: nat, last: nat)
    requires Round(run, first, last) && first + 1 < mid < last
    requires OneCollection(run, mid, last - 1, Timer) && Untouched(run[first], run[mid], Timer)
    ensures run[first].timerQueues <= run[mid].timerQueues <= run[last].timerQueues
  {
    CollectionKeepsQueues(run, mid, last, Timer);
  }

  /** In every run, a round collects both kinds of queues. Each pending list grows by what was taken from the queues of
      its kind, in the order of registration: the ring queues registered when the round began, and the timer queues
      registered when the last ring queue was done. Whatever had been pushed to any of them before the round has been
      taken at its end. The round that closes ends the loop, and no other does. */
  lemma RoundCollectsAll(run: seq<State>, first: nat, last: nat) returns (n: nat)
    requires Round(run, first, last)
    ensures forall kind :: Queues(run[first], kind) <= Queues(run[last], kind)
    ensures |run[first].timerQueues| <= n <= |run[last].timerQueues|
    ensures Appended(run[first], run[last], Ring, run[first].ringQueues)
    ensures Appended(run[first], run[last], Timer, run[last].timerQueues[..n])
    ensures forall kind, q :: q in Queues(run[first], kind) ==> AllTaken(run[first], run[last], q)
    ensures run[last].loop == if run[first + 1].loop.last then Stopped else Running
  {
    var mid := RoundSplits(run, first, last);
    RoundHalves(run, first, mid, last);
    RingHalf(run, first, mid, last);
    forall q
      ensures AllPushed(run[first], run[mid], q)
    {
    }
    TimerHalf(run, first, mid, last);
    RoundTimers(run, first, mid, last);
    n := |run[mid].timerQueues|;
    assert run[last].timerQueues[..n] == run[mid].timerQueues;
    forall kind, q | q in Queues(run[first], kind)
      ensures AllTaken(run[first], run[last], q)
    {
      if kind.Ring? {
        assert q in run[first].ringQueues;
      } else {
        assert q in run[mid].timerQueues;
      }
    }
  }

  /** Every collection that the loop begins while it runs, or by closing, begins such a round. */
  lemma CollectBegins(s: State)
    requires Enabled(s, Collect)
    ensures RoundBegins(s, Do(s, Collect)) && !Do(s, Collect).loop.last
  {
  }

  lemma CloseBegins(s: State, spurious: bool)
    requires s.loop.Closing? && !DoClose(s, spurious).loop.Closing?
    ensures RoundBegins(s, DoClose(s, spurious)) && DoClose(s, spurious).loop.last && Closed(DoClose(s, spurious))
  {
  }

  lemma StepStaysInRound(run: seq<State>, m: nat)
    requires Run(run) && m + 1 < |run| && run[m].loop.Folding? && !run[m].loop.last
    ensures run[m + 1].loop.Running? || (run[m + 1].loop.Folding? && !run[m + 1].loop.last)
  {
    assert StepAt(run, m);
    var step :| Enabled(run[m], step) && run[m + 1] == Do(run[m], step);
    if !step.Turn? {
      OthersAreQuiet(run[m], step);
    }
  }

  lemma {:induction false} StaysInRound(run: seq<State>, first: nat, m: nat)
    requires Run(run) && first < m < |run| && run[first + 1].loop.Folding? && !run[first + 1].loop.last
    requires forall k :: first < k <= m ==> !run[k].loop.Running?
    ensures run[m].loop.Folding?
    ensures !run[m].loop.last
    decreases m
  {
    if m > first + 1 {
      StaysInRound(run, first, m - 1);
      StepStaysInRound(run, m - 1);
    }
  }

  /** In every run, when the loop runs again after it began to collect, both kinds of queues have been collected as
      above: whatever had been pushed to a registered queue of either kind has been taken, and is among what was
      collected for its kind in the order of the pushes. */
  lemma CollectTakesAll(run: seq<State>, first: nat, last: nat) returns (n: nat)
    requires Run(run) && first < last < |run| && run[first].loop.Running? && run[last].loop.Running?
    requires run[first + 1] == Do(run[first], Collect)
    requires forall m :: first < m < last ==> !run[m].loop.Running?
    ensures forall kind :: Queues(run[first], kind) <= Queues(run[last], kind)
    ensures |run[first].timerQueues| <= n <= |run[last].timerQueues|
    ensures Appended(run[first], run[last], Ring, run[first].ringQueues)
    ensures Appended(run[first], run[last], Timer, run[last].timerQueues[..n])
    ensures forall kind, q :: q in Queues(run[first], kind) ==> AllTaken(run[first], run[last], q)
  {
    CollectBegins(run[first]);
    forall m | first < m < last
      ensures run[m].loop.Folding?
    {
      StaysInRound(run, first, m);
    }
    n := RoundCollectsAll(run, first, last);
  }

  /** So an operation that is on a registered queue when the loop begins to collect is pending, for the kind of its
      queue, when the loop runs again. */
  lemma PushedIsPending(run: seq<State>, first: nat, last: nat, kind: Kind, op: Op)
    requires Run(run) && first < last < |run| && run[first].loop.Running? && run[last].loop.Running?
    requires run[first + 1] == Do(run[first], Collect)
    requires forall m :: first < m < last ==> !run[m].loop.Running?
    requires op in run[first].home && run[first].home[op] in Queues(run[first], kind)
    requires op in Of(run[first].pushed, run[first].home[op])
    ensures op in PendingOf(run[last], kind)
  {
    var q := run[first].home[op];
    var n := CollectTakesAll(run, first, last);
    assert AllTaken(run[first], run[last], q);
    assert op in Of(run[last].taken, q);
    RunKeepsInv(run, last);
    RunKeepsQueues(run, last);
    assert Queues(run[first], kind) <= Queues(run[last], kind);
    PendingHolds(run[last], kind, q, op);
  }

  lemma {:induction false} FromElements(home: map<Op, Queue>, list: seq<Op>, q: Queue, op: Op)
    requires op in From(home, list, q)
    ensures op in list
  {
    if !(list[0] in home && home[list[0]] == q && op == list[0]) {
      FromElements(home, list[1..], q, op);
    }
  }

  lemma PendingHolds(s: State, kind: Kind, q: Queue, op: Op)
    requires FlowOk(s, q) && s.loop.Running? && q in Queues(s, kind) && op in Of(s.taken, q)
    ensures op in PendingOf(s, kind)
  {
    assert Collected(s, kind) == PendingOf(s, kind);
    FromElements(s.home, PendingOf(s, kind), q, op);
  }
}

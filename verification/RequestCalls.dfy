/** Whole calls of the remote requests while no other thread takes a step: a submission, a collection, a shutdown. */
module RequestCalls {
  import opened Sequences
  import opened RemoteRequests

  // ----- a submission -----

  /** At most n steps of the submission of t. */
  function Alone(s: State, t: Tid, n: nat): State
    decreases n
  {
    if n == 0 || Sub(s, t).Idle? then s else Alone(Do(s, Continue(t, false)), t, n - 1)
  }

  lemma CountsIn(s: State, t: Tid, q: Queue, op: Op)
    requires Sub(s, t) == Trying(q, op, s.counter) && s.counter >= 0
    ensures
      var s' := Do(s, Continue(t, false));
      && Sub(s', t) == Inside(q, op) && s'.counter == s.counter + 1
      && s'.stacks == s.stacks && s'.stopped == s.stopped
  {
  }

  lemma LoadsAgain(s: State, t: Tid, q: Queue, op: Op, n: int)
    requires Sub(s, t) == Trying(q, op, n) && n != NO_NEW_SUBMIT && s.counter != n
    ensures Do(s, Continue(t, false)) == Go(s, t, Trying(q, op, s.counter))
  {
  }

  lemma Stops(s: State, t: Tid, q: Queue, op: Op)
    requires Sub(s, t) == Trying(q, op, NO_NEW_SUBMIT)
    ensures
      var s' := Do(s, Continue(t, false));
      && Sub(s', t).Idle? && s'.counter == s.counter && s'.stacks == s.stacks && s'.stopped == s.stopped + {op}
  {
  }

  lemma PushesAndLeaves(s: State, t: Tid, q: Queue, op: Op)
    requires Sub(s, t) == Inside(q, op)
    ensures Alone(s, t, 2) == Do(Do(s, Continue(t, false)), Continue(t, false))
    ensures
      var s' := Alone(s, t, 2);
      && Sub(s', t).Idle? && s'.counter == s.counter - 1 && s'.stopped == s.stopped
      && s'.stacks == s.stacks[q := [op] + Of(s.stacks, q)]
  {
    var s1 := Do(s, Continue(t, false));
    assert Sub(s1, t) == Leaving;
  }

  /** What a submission has done when it returns: the operation is on its queue, or it is stopped. */
  ghost predicate Submitted(s: State, s': State, t: Tid, q: Queue, op: Op) {
    && Sub(s', t).Idle? && s'.counter == s.counter
    && if s.counter == NO_NEW_SUBMIT then s'.stopped == s.stopped + {op} && s'.stacks == s.stacks
       else s'.stopped == s.stopped && s'.stacks == s.stacks[q := [op] + Of(s.stacks, q)]
  }

  lemma SubmitsOnce(s: State, t: Tid, q: Queue, op: Op)
    requires Sub(s, t) == Trying(q, op, s.counter) && s.counter >= -1
    ensures Submitted(s, Alone(s, t, 3), t, q, op)
  {
    var s1 := Do(s, Continue(t, false));
    if s.counter == NO_NEW_SUBMIT {
      Stops(s, t, q, op);
    } else {
      CountsIn(s, t, q, op);
      PushesAndLeaves(s1, t, q, op);
    }
    assert Alone(s, t, 3) == Alone(s1, t, 2);
  }

  /** A submission that nobody disturbs returns after at most four more steps: its operation is on top of its queue, or
      the operation is stopped, exactly if the loop has closed the counter. */
  lemma QuietSubmit(s: State, t: Tid, q: Queue, op: Op) returns (n: nat)
    requires Inv(s) && Enabled(s, Submit(t, q, op))
    ensures n <= 4 && Submitted(s, Alone(Do(s, Submit(t, q, op)), t, n), t, q, op)
  {
    var s1 := Do(s, Submit(t, q, op));
    if s.counter == 0 {
      n := 3;
      SubmitsOnce(s1, t, q, op);
    } else {
      n := 4;
      LoadsAgain(s1, t, q, op, 0);
      SubmitsOnce(Do(s1, Continue(t, false)), t, q, op);
    }
  }

  // ----- a round of the loop -----

  predicate Busy(s: State) {
    s.loop.Folding? || s.loop.Closing?
  }

  /** At most n steps of the loop. */
  function LoopAlone(s: State, n: nat): State
    decreases n
  {
    if n == 0 || !Busy(s) then s else LoopAlone(Do(s, Turn(false)), n - 1)
  }

  function TurnsLeft(s: State): int {
    match s.loop
    case Folding(Ring, i, r, _, _) => r - i + |s.timerQueues| + 2
    case Folding(Timer, i, r, _, _) => r - i + 1
    case Closing => |s.ringQueues| + |s.timerQueues| + 3
    case _ => 0
  }

  /** Whether the loop is on its way out. */
  predicate Ends(s: State) {
    s.loop.Closing? || (s.loop.Folding? && s.loop.last)
  }

  ghost predicate Turnable(s: State) {
    Inv(s) && ((s.loop.Folding? && s.loop.i <= s.loop.r) || (s.loop.Closing? && s.counter == 0))
  }

  lemma FoldTurns(s: State)
    requires Turnable(s) && s.loop.Folding?
    ensures
      var s' := DoFold(s);
      && TurnsLeft(s') < TurnsLeft(s)
      && if Busy(s') then s'.loop.Folding? && s'.loop.i <= s'.loop.r && Ends(s') == Ends(s)
         else s'.loop == if Ends(s) then Stopped else Running
  {
  }

  lemma CloseTurns(s: State)
    requires Turnable(s) && s.loop.Closing?
    ensures
      var s' := DoClose(s, false);
      TurnsLeft(s') < TurnsLeft(s) && s'.loop.Folding? && s'.loop.i <= s'.loop.r && Ends(s')
  {
  }

  /** One turn: the loop goes on or comes to its end. */
  ghost predicate Turned(s: State, s': State) {
    if Busy(s') then Turnable(s') && Ends(s') == Ends(s) && TurnsLeft(s') < TurnsLeft(s)
    else Inv(s') && s'.loop == if Ends(s) then Stopped else Running
  }

  lemma TurnGoesOn(s: State)
    requires Turnable(s)
    ensures Enabled(s, Turn(false)) && Turned(s, Do(s, Turn(false)))
  {
    StepKeepsInv(s, Turn(false));
    if s.loop.Closing? {
      CloseTurns(s);
    } else {
      FoldTurns(s);
    }
  }

  lemma LoopNext(s: State, n: nat) returns (s': State)
    requires Turnable(s) && TurnsLeft(s) <= n
    ensures n > 0 && LoopAlone(s, n) == LoopAlone(s', n - 1) && Turned(s, s')
  {
    TurnGoesOn(s);
    s' := Do(s, Turn(false));
    assert TurnsLeft(s) > 0;
  }

  lemma {:induction false} LoopEnds(s: State, n: nat)
    requires Turnable(s) && TurnsLeft(s) <= n
    ensures Inv(LoopAlone(s, n))
    ensures LoopAlone(s, n).loop == if Ends(s) then Stopped else Running
    decreases n
  {
    var s' := LoopNext(s, n);
    if Busy(s') {
      LoopEnds(s', n - 1);
    }
  }

  lemma CollectTurns(s: State)
    requires Inv(s) && s.loop.Running?
    ensures
      var s' := Do(s, Collect);
      Turnable(s') && !Ends(s') && TurnsLeft(s') == |s.ringQueues| + |s.timerQueues| + 2
  {
    StepKeepsInv(s, Collect);
  }

  /** A collection that nobody disturbs ends after one turn for every queue, and one more for either kind. */
  lemma QuietCollect(s: State)
    requires Inv(s) && s.loop.Running?
    ensures LoopAlone(Do(s, Collect), |s.ringQueues| + |s.timerQueues| + 2).loop.Running?
  {
    CollectTurns(s);
    LoopEnds(Do(s, Collect), |s.ringQueues| + |s.timerQueues| + 2);
  }

  /** With no submitter inside, a shutdown that nobody disturbs ends, and leaves nothing in any queue. */
  lemma QuietClose(s: State)
    requires Inv(s) && s.loop.Running? && s.counter == 0
    ensures
      var s' := LoopAlone(Do(s, Close), |s.ringQueues| + |s.timerQueues| + 3);
      s'.loop.Stopped? && Closed(s') && forall q :: Of(s'.stacks, q) == []
  {
    StepKeepsInv(s, Close);
    LoopEnds(Do(s, Close), |s.ringQueues| + |s.timerQueues| + 3);
    NothingWaits(LoopAlone(Do(s, Close), |s.ringQueues| + |s.timerQueues| + 3));
  }

  lemma NothingWaits(s: State)
    requires Inv(s) && s.loop.Stopped?
    ensures Closed(s) && forall q :: Of(s.stacks, q) == []
  {
    forall q
      ensures Of(s.stacks, q) == []
    {
      assert LeftToFold(s, q);
    }
  }
}

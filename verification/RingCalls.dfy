/** Whole calls of the scheduler on the rings: an enter call whose entries the kernel consumes, and a completing call.
    */
module RingCalls {
  import opened SubmissionRing
  import opened RingRuns

  lemma PositionsDiffer(a: nat, b: nat)
    requires a < b < a + U32
    ensures a % U32 != b % U32
  {
    Distance(a, b);
  }

  // ----- completing -----

  /** The completing call has come to position `handled` of what was posted when it began. */
  ghost predicate Completed(begin: State, s: State) {
    && Inv(s) && s.pc.Completing? && s.seen == |s.posted| && s.posted == begin.posted && s.cq.tail == begin.cq.tail
  }

  lemma CompleteBegins(s: State)
    requires Inv(s) && s.pc.Idle?
    ensures Enabled(s, BeginComplete) && Completed(s, Do(s, BeginComplete))
  {
    StepKeepsInv(s, BeginComplete);
  }

  lemma HandleGoesOn(begin: State, s: State)
    requires Completed(begin, s) && s.pc.head != s.pc.tail
    ensures Enabled(s, Handle) && Completed(begin, Do(s, Handle)) && s.handled < |s.posted|
    ensures Do(s, Handle).handled == s.handled + 1
  {
    HandledIsNext(s);
    StepKeepsInv(s, Handle);
  }

  lemma AllHandled(begin: State, s: State)
    requires Completed(begin, s) && s.pc.head == s.pc.tail
    ensures s.handled == |s.posted|
  {
    if s.handled < |s.posted| {
      PositionsDiffer(s.handled, |s.posted|);
    }
  }

  /** All that was posted has been handled and released. */
  ghost predicate AllReleased(begin: State, s: State) {
    && Inv(s) && s.pc.Idle? && s.posted == begin.posted && s.called == begin.posted
    && s.released == s.handled == |s.posted| && s.cq.head == s.cq.tail
    && s.total == |s.place| && forall op :: op in s.place ==> !s.place[op].Ending?
  }

  lemma CompleteEnds(begin: State, s: State)
    requires Completed(begin, s) && s.pc.head == s.pc.tail
    ensures Enabled(s, EndComplete) && AllReleased(begin, Do(s, EndComplete))
  {
    AllHandled(begin, s);
    StepKeepsInv(s, EndComplete);
    var s' := Do(s, EndComplete);
    forall op | op in s'.place
      ensures !s'.place[op].Ending?
    {
      assert OpOk(s', op);
    }
  }

  /** A completing call that nobody disturbs hands every posted completion to its operation, releases the ring, and
      counts what has ended. */
  lemma CompleteIsSteps(s: State) returns (steps: seq<Step>, s': State)
    requires Inv(s) && s.pc.Idle?
    ensures Leads(s, steps, s') && AllReleased(s, s')
  {
    CompleteBegins(s);
    steps, s' := [BeginComplete], Do(s, BeginComplete);
    assert steps[1..] == [];
    while s'.pc.head != s'.pc.tail
      invariant Leads(s, steps, s') && Completed(s, s')
      decreases |s.posted| - s'.handled
    {
      HandleGoesOn(s, s');
      LeadsOn(s, steps, s', Handle);
      steps, s' := steps + [Handle], Do(s', Handle);
    }
    CompleteEnds(s, s');
    LeadsOn(s, steps, s', EndComplete);
    steps, s' := steps + [EndComplete], Do(s', EndComplete);
  }

  // ----- entering -----

  ghost predicate Entered(begin: State, s: State) {
    && Inv(s) && s.pc.Entering? && s.newly == begin.newly && s.submitted == begin.submitted
    && s.consumed == begin.consumed + s.pc.consumed
  }

  lemma EnterBegins(s: State)
    requires Inv(s) && s.pc.Idle?
    ensures Enabled(s, BeginEnter) && Entered(s, Do(s, BeginEnter))
  {
    StepKeepsInv(s, BeginEnter);
  }

  lemma EntryThere(s: State)
    requires Inv(s) && s.pc.Entering? && s.pc.consumed < s.newly
    ensures s.sq.head != s.sq.tail
  {
    PositionsDiffer(s.consumed, |s.submitted|);
  }

  lemma ConsumeGoesOn(begin: State, s: State)
    requires Entered(begin, s) && s.pc.consumed < s.newly
    ensures Enabled(s, Consume) && Entered(begin, Do(s, Consume))
    ensures Do(s, Consume).pc.consumed == s.pc.consumed + 1
  {
    EntryThere(s);
    StepKeepsInv(s, Consume);
  }

  lemma EnterEnds(begin: State, s: State)
    requires Entered(begin, s) && s.pc.consumed == s.newly
    ensures Enabled(s, EndEnter) && Inv(Do(s, EndEnter))
    ensures
      var s' := Do(s, EndEnter);
      && s'.pc.Idle? && s'.newly == 0 && s'.consumed == begin.consumed + begin.newly
      && s'.submitted == begin.submitted
  {
    StepKeepsInv(s, EndEnter);
  }

  /** An enter call finds as many entries as it was told of, and the kernel may consume all of them. */
  lemma EnterIsSteps(s: State) returns (steps: seq<Step>, s': State)
    requires Inv(s) && s.pc.Idle?
    ensures Leads(s, steps, s') && Inv(s') && s'.pc.Idle? && s'.newly == 0
    ensures s'.consumed == s.consumed + s.newly && s'.submitted == s.submitted
  {
    EnterBegins(s);
    steps, s' := [BeginEnter], Do(s, BeginEnter);
    assert steps[1..] == [];
    while s'.pc.consumed < s'.newly
      invariant Leads(s, steps, s') && Entered(s, s') && s'.pc.consumed <= s'.newly
      decreases s'.newly - s'.pc.consumed
    {
      ConsumeGoesOn(s, s');
      LeadsOn(s, steps, s', Consume);
      steps, s' := steps + [Consume], Do(s', Consume);
    }
    EnterEnds(s, s');
    LeadsOn(s, steps, s', EndEnter);
    steps, s' := steps + [EndEnter], Do(s', EndEnter);
  }
}

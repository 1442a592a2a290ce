/** Whole calls on the stop source while no other thread takes a step: each of them returns, and does its work. */
module StopCalls {
  import opened Options
  import opened CallbackList
  import opened StopSource

  function Next(s: State, t: Tid): State
    requires !PcOf(s, t).Idle?
  {
    Do(s, Continue(t, false))
  }

  /** At most n steps of the call of t. */
  function Alone(s: State, t: Tid, n: nat): State
    decreases n
  {
    if n == 0 || PcOf(s, t).Idle? then s else Alone(Next(s, t), t, n - 1)
  }

  lemma AloneNext(s: State, t: Tid, n: nat)
    requires !PcOf(s, t).Idle? && n > 0
    ensures Alone(s, t, n) == Alone(Next(s, t), t, n - 1)
  {
  }

  // ----- registration -----

  lemma AddLocks(s: State, t: Tid, cb: Cb)
    requires PcOf(s, t) == TryLock(ToRegister(cb), NONE) && s.word == NONE
    ensures PcOf(Next(s, t), t) == AddLink(cb) && Next(s, t).list == s.list
  {
  }

  lemma AddLinks(s: State, t: Tid, cb: Cb)
    requires PcOf(s, t) == AddLink(cb)
    ensures PcOf(Next(s, t), t) == AddUnlock(cb) && Next(s, t).list == [cb] + s.list
  {
  }

  lemma AddReturns(s: State, t: Tid, cb: Cb)
    requires PcOf(s, t) == AddUnlock(cb)
    ensures PcOf(Next(s, t), t).Idle? && Next(s, t).list == s.list && Next(s, t).word == NONE
    ensures cb in Next(s, t).registered
  {
  }

  /** Before the stop, a registration that finds the lock free puts its callback on the list. */
  lemma QuietRegister(s: State, t: Tid, cb: Cb)
    requires Enabled(s, Register(t, cb)) && s.word == NONE
    ensures
      var s' := Alone(Do(s, Register(t, cb)), t, 3);
      PcOf(s', t).Idle? && s'.list == [cb] + s.list && s'.word == NONE && cb in s'.registered
  {
    var s1 := Do(s, Register(t, cb));
    AddLocks(s1, t, cb);
    var s2 := Next(s1, t);
    AddLinks(s2, t, cb);
    AddReturns(Next(s2, t), t, cb);
  }

  lemma InlineBegins(s: State, t: Tid, cb: Cb, seen: Word)
    requires PcOf(s, t) == TryLock(ToRegister(cb), seen) && seen.stop
    ensures PcOf(Next(s, t), t) == InlineRun(cb) && Next(s, t).list == s.list && Runs(Next(s, t), cb) == Runs(s, cb)
  {
  }

  lemma InlineRuns(s: State, t: Tid, cb: Cb)
    requires PcOf(s, t) == InlineRun(cb)
    ensures PcOf(Next(s, t), t) == InlineRunning(cb) && Next(s, t).list == s.list
    ensures Runs(Next(s, t), cb) == Runs(s, cb) + 1
  {
  }

  lemma InlineReturns(s: State, t: Tid, cb: Cb)
    requires PcOf(s, t) == InlineRunning(cb)
    ensures PcOf(Next(s, t), t).Idle? && Next(s, t).list == s.list && Runs(Next(s, t), cb) == Runs(s, cb)
    ensures cb in Next(s, t).finished && cb in Next(s, t).registered
  {
  }

  /** After the stop, a registration runs its callback and needs no lock. */
  lemma QuietInline(s: State, t: Tid, cb: Cb)
    requires Inv(s) && Enabled(s, Register(t, cb)) && s.word.stop
    ensures
      var s' := Alone(Do(s, Register(t, cb)), t, 3);
      && PcOf(s', t).Idle? && s'.list == s.list && Runs(s', cb) == 1
      && cb in s'.finished && cb in s'.registered
  {
    assert CbOk(s, cb);
    var s1 := Do(s, Register(t, cb));
    InlineBegins(s1, t, cb, s.word);
    var s2 := Next(s1, t);
    InlineRuns(s2, t, cb);
    InlineReturns(Next(s2, t), t, cb);
  }

  // ----- removal -----

  /** What a removal knows once it holds the lock. */
  ghost predicate SameRemovals(s: State, s': State, cb: Cb) {
    && s'.list == s.list && s'.links == s.links && s'.completed == s.completed && s'.notify == s.notify
    && StageOf(s', cb) == StageOf(s, cb)
  }

  lemma RemoveLocks(s: State, t: Tid, cb: Cb)
    requires PcOf(s, t) == Lock(ToRemove(cb), s.word) && !s.word.locked
    ensures PcOf(Next(s, t), t) == RemoveLink(cb, s.word) && SameRemovals(s, Next(s, t), cb)
  {
  }

  lemma RemoveUnlinks(s: State, t: Tid, cb: Cb, was: Word)
    requires PcOf(s, t) == RemoveLink(cb, was) && PrevSlot(s.links, cb) != NoSlot
    ensures PcOf(Next(s, t), t) == RemoveUnlock(cb, was, false) && Next(s, t).list == Removed(s.list, cb)
  {
  }

  lemma RemoveFindsTaken(s: State, t: Tid, cb: Cb, was: Word)
    requires PcOf(s, t) == RemoveLink(cb, was) && PrevSlot(s.links, cb) == NoSlot && s.notify
    ensures PcOf(Next(s, t), t) == RemoveUnlock(cb, was, true) && SameRemovals(s, Next(s, t), cb)
  {
  }

  lemma RemoveReturns(s: State, t: Tid, cb: Cb, was: Word)
    requires PcOf(s, t) == RemoveUnlock(cb, was, false)
    ensures PcOf(Next(s, t), t).Idle? && Next(s, t).list == s.list && Next(s, t).word == was
    ensures cb in Next(s, t).removed
  {
  }

  lemma RemoveUnlocks(s: State, t: Tid, cb: Cb, was: Word)
    requires PcOf(s, t) == RemoveUnlock(cb, was, true)
    ensures PcOf(Next(s, t), t) == RemoveWait(cb) && Next(s, t).list == s.list && Next(s, t).word == was
    ensures Next(s, t).completed == s.completed
  {
  }

  lemma RemoveWaits(s: State, t: Tid, cb: Cb)
    requires PcOf(s, t) == RemoveWait(cb)
    ensures
      var s' := Next(s, t);
      && s'.list == s.list && s'.word == s.word
      && if cb in s.completed then PcOf(s', t).Idle? && cb in s'.removed else s' == s
  {
  }

  lemma RemoveBegins(s: State, t: Tid, cb: Cb)
    requires Inv(s) && Enabled(s, Remove(t, cb)) && !s.word.locked
    ensures PcOf(Do(s, Remove(t, cb)), t) == Lock(ToRemove(cb), s.word) && Do(s, Remove(t, cb)).word == s.word
    ensures SameRemovals(s, Do(s, Remove(t, cb)), cb)
    ensures if StageOf(s, cb).Listed? then PrevSlot(s.links, cb) != NoSlot
            else StageOf(s, cb).Taken? && PrevSlot(s.links, cb) == NoSlot && s.notify
  {
    assert CbOk(s, cb);
  }

  lemma RemovesListed(s: State, t: Tid, cb: Cb)
    requires PcOf(s, t) == Lock(ToRemove(cb), s.word) && !s.word.locked && PrevSlot(s.links, cb) != NoSlot
    ensures
      var s' := Alone(s, t, 4);
      PcOf(s', t).Idle? && s'.word == s.word && s'.list == Removed(s.list, cb) && cb in s'.removed
  {
    RemoveLocks(s, t, cb);
    var s1 := Next(s, t);
    RemoveUnlinks(s1, t, cb, s.word);
    RemoveReturns(Next(s1, t), t, cb, s.word);
  }

  lemma RemovesTaken(s: State, t: Tid, cb: Cb)
    requires PcOf(s, t) == Lock(ToRemove(cb), s.word) && !s.word.locked
    requires PrevSlot(s.links, cb) == NoSlot && s.notify
    ensures
      var s' := Alone(s, t, 4);
      && s'.word == s.word && s'.list == s.list
      && if cb in s.completed then PcOf(s', t).Idle? && cb in s'.removed else PcOf(s', t) == RemoveWait(cb)
  {
    RemoveLocks(s, t, cb);
    var s1 := Next(s, t);
    RemoveFindsTaken(s1, t, cb, s.word);
    var s2 := Next(s1, t);
    RemoveUnlocks(s2, t, cb, s.word);
    RemoveWaits(Next(s2, t), t, cb);
  }

  /** A removal that finds the lock free takes its callback off the list; if the callback has been taken off to be run,
      the removal returns if it has completed, and waits for it otherwise. */
  lemma QuietRemove(s: State, t: Tid, cb: Cb)
    requires Inv(s) && Enabled(s, Remove(t, cb)) && !s.word.locked
    ensures
      var s' := Alone(Do(s, Remove(t, cb)), t, 4);
      && s'.word == s.word && s'.list == (if StageOf(s, cb).Listed? then Removed(s.list, cb) else s.list)
      && if StageOf(s, cb).Listed? || cb in s.completed then PcOf(s', t).Idle? && cb in s'.removed
         else PcOf(s', t) == RemoveWait(cb)
  {
    RemoveBegins(s, t, cb);
    if StageOf(s, cb).Listed? {
      RemovesListed(Do(s, Remove(t, cb)), t, cb);
    } else {
      RemovesTaken(Do(s, Remove(t, cb)), t, cb);
    }
  }

  // ----- the request -----

  /** What the winning call of t still has to do, in steps. */
  function StepsLeft(s: State, t: Tid): nat {
    7 * |s.list| + match PcOf(s, t)
                   case NotifyHead => 2
                   case NotifyTaken(_) => 8
                   case NotifyRun(_) => 7
                   case NotifyRunning(_) => 6
                   case NotifyRan(_) => 5
                   case NotifyDone => 4
                   case Lock(_, _) => 3
                   case NotifyEnd => 1
                   case _ => 0
  }

  /** The call holds the lock, or nobody does. */
  ghost predicate Alive(s: State, t: Tid) {
    var pc := PcOf(s, t);
    && Notifies(pc) && (Holds(pc) || s.word == Word(true, false)) && (pc.Lock? ==> pc.was == s.word)
  }

  /** The winning call of t has returned. */
  ghost predicate Requested(s: State, t: Tid) {
    && PcOf(s, t).Idle? && s.word == Word(true, false) && s.list == [] && s.winnerDone
    && t in s.answers && !s.answers[t]
  }

  /** What is on the list, or taken off it by t. */
  ghost predicate Left(s: State, t: Tid, cb: Cb) {
    cb in s.list || NotifiesFor(PcOf(s, t), cb)
  }

  ghost predicate Progress(s: State, s': State, t: Tid) {
    && (Alive(s', t) || Requested(s', t)) && StepsLeft(s', t) < StepsLeft(s, t)
    && s'.winning == s.winning && s.completed <= s'.completed
    && forall cb :: Left(s, t, cb) ==> Left(s', t, cb) || cb in s'.completed
  }

  lemma HeadProgress(s: State, t: Tid)
    requires Inv(s) && PcOf(s, t) == NotifyHead && s.list != []
    ensures Progress(s, Next(s, t), t)
  {
    assert PcOf(Next(s, t), t) == NotifyTaken(s.list[0]) && Next(s, t).list == s.list[1..];
  }

  lemma EmptyProgress(s: State, t: Tid)
    requires Inv(s) && PcOf(s, t) == NotifyHead && s.list == []
    ensures Progress(s, Next(s, t), t)
  {
    assert PcOf(Next(s, t), t) == NotifyEnd;
  }

  lemma TakenProgress(s: State, t: Tid, cb: Cb)
    requires PcOf(s, t) == NotifyTaken(cb)
    ensures Progress(s, Next(s, t), t)
  {
    assert PcOf(Next(s, t), t) == NotifyRun(cb);
  }

  lemma RunProgress(s: State, t: Tid, cb: Cb)
    requires PcOf(s, t) == NotifyRun(cb) && Alive(s, t)
    ensures Progress(s, Next(s, t), t)
  {
    assert PcOf(Next(s, t), t) == NotifyRunning(cb);
  }

  lemma RunningProgress(s: State, t: Tid, cb: Cb)
    requires PcOf(s, t) == NotifyRunning(cb) && Alive(s, t)
    ensures Progress(s, Next(s, t), t)
  {
    assert PcOf(Next(s, t), t) == NotifyRan(cb);
  }

  lemma RanProgress(s: State, t: Tid, cb: Cb)
    requires PcOf(s, t) == NotifyRan(cb) && Alive(s, t)
    ensures Progress(s, Next(s, t), t)
  {
    assert PcOf(Next(s, t), t) == NotifyDone;
  }

  lemma DoneProgress(s: State, t: Tid)
    requires PcOf(s, t) == NotifyDone && Alive(s, t)
    ensures Progress(s, Next(s, t), t)
  {
    assert PcOf(Next(s, t), t) == Lock(ToNotify, s.word);
  }

  lemma LockProgress(s: State, t: Tid)
    requires PcOf(s, t) == Lock(ToNotify, s.word) && Alive(s, t)
    ensures Progress(s, Next(s, t), t)
  {
    assert PcOf(Next(s, t), t) == NotifyHead;
  }

  lemma EndProgress(s: State, t: Tid)
    requires Inv(s) && PcOf(s, t) == NotifyEnd
    ensures Progress(s, Next(s, t), t)
  {
    assert ThreadOk(s, t);
    assert PcOf(Next(s, t), t) == Idle;
  }

  /** In every run the notifier takes the callback that was registered last of those on the list. */
  lemma TakesNewest(run: seq<State>, i: nat, t: Tid)
    requires Run(run) && i < |run| && PcOf(run[i], t) == NotifyHead && run[i].list != []
    ensures PcOf(Next(run[i], t), t) == NotifyTaken(run[i].list[0]) && Next(run[i], t).list == run[i].list[1..]
  {
    RunKeepsInv(run, i);
  }

  /** Every step of the winning call brings it nearer to its end. */
  lemma RequestProgress(s: State, t: Tid)
    requires Inv(s) && Alive(s, t)
    ensures Progress(s, Next(s, t), t)
  {
    match PcOf(s, t) {
      case NotifyHead =>
        if s.list != [] {
          HeadProgress(s, t);
        } else {
          EmptyProgress(s, t);
        }
      case NotifyTaken(cb) => TakenProgress(s, t, cb);
      case NotifyRun(cb) => RunProgress(s, t, cb);
      case NotifyRunning(cb) => RunningProgress(s, t, cb);
      case NotifyRan(cb) => RanProgress(s, t, cb);
      case NotifyDone => DoneProgress(s, t);
      case Lock(_, _) => LockProgress(s, t);
      case NotifyEnd => EndProgress(s, t);
    }
  }

  lemma RequestNext(s: State, t: Tid, n: nat) returns (s': State)
    requires Inv(s) && Alive(s, t) && StepsLeft(s, t) <= n
    ensures n > 0 && Alone(s, t, n) == Alone(s', t, n - 1) && Inv(s') && Progress(s, s', t)
  {
    RequestProgress(s, t);
    StepKeepsInv(s, Continue(t, false));
    s' := Next(s, t);
    AloneNext(s, t, n);
  }

  /** The winning call has returned, and all of these callbacks have completed. */
  ghost predicate Ended(s: State, s': State, t: Tid) {
    && Requested(s', t) && s'.winning == s.winning && s.completed <= s'.completed
    && forall cb :: Left(s, t, cb) ==> cb in s'.completed
  }

  lemma EndedBefore(s: State, m: State, s': State, t: Tid)
    requires Progress(s, m, t) && Ended(m, s', t)
    ensures Ended(s, s', t)
  {
  }

  lemma RequestIsOver(s: State, t: Tid, n: nat)
    requires Requested(s, t)
    ensures Alone(s, t, n) == s && Ended(s, s, t)
  {
  }

  lemma {:induction false} RequestEnds(s: State, t: Tid, n: nat)
    requires Inv(s) && (Alive(s, t) || Requested(s, t)) && StepsLeft(s, t) <= n
    ensures Inv(Alone(s, t, n)) && Ended(s, Alone(s, t, n), t)
    decreases n
  {
    if Alive(s, t) {
      var s' := RequestNext(s, t, n);
      RequestEnds(s', t, n - 1);
      EndedBefore(s, s', Alone(s', t, n - 1), t);
    } else {
      RequestIsOver(s, t, n);
    }
  }

  lemma StopLocks(s: State, t: Tid)
    requires PcOf(s, t) == TryLock(ToStop, NONE) && s.word == NONE
    ensures PcOf(Next(s, t), t) == NotifyHead && Next(s, t).list == s.list && t in Next(s, t).winning
  {
  }

  /** A request that finds the word 0 wins, runs every listed callback once, and leaves an empty list. */
  lemma QuietRequestStop(s: State, t: Tid)
    requires Inv(s) && Enabled(s, RequestStop(t)) && s.word == NONE
    ensures
      var s' := Alone(Do(s, RequestStop(t)), t, 7 * |s.list| + 3);
      && Requested(s', t) && t in s'.winning
      && forall cb :: cb in s.list ==> cb in s'.completed && cb in s'.finished && Runs(s', cb) == 1
  {
    var s1 := Do(s, RequestStop(t));
    StepKeepsInv(s, RequestStop(t));
    StopLocks(s1, t);
    StepKeepsInv(s1, Continue(t, false));
    var n := 7 * |s.list| + 2;
    AloneNext(s1, t, n + 1);
    RequestEnds(Next(s1, t), t, n);
    forall cb | cb in s.list
      ensures cb in Alone(Next(s1, t), t, n).completed
    {
      assert Left(Next(s1, t), t, cb);
    }
    CompletedRan(Alone(Next(s1, t), t, n), s.list);
  }

  lemma CompletedRan(s: State, list: seq<Cb>)
    requires Inv(s) && forall cb :: cb in list ==> cb in s.completed
    ensures forall cb :: cb in list ==> cb in s.finished && Runs(s, cb) == 1
  {
    forall cb | cb in list
      ensures cb in s.finished && Runs(s, cb) == 1
    {
      assert CbOk(s, cb);
    }
  }

  /** A request that finds the stop requested returns true at once and changes nothing. */
  lemma QuietRefusal(s: State, t: Tid)
    requires Enabled(s, RequestStop(t)) && s.word.stop
    ensures
      var s' := Alone(Do(s, RequestStop(t)), t, 1);
      && PcOf(s', t).Idle? && t in s'.answers && s'.answers[t]
      && s' == s.(threads := s'.threads, winning := s'.winning, answers := s'.answers)
  {
  }
}

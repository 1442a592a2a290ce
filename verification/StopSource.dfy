/** The stop source: a two-bit spin lock word, the callback list it guards, and the handshake
    between the notifying thread and the threads that deregister. Any number of threads;
    every step is one atomic operation, or the plain accesses between two of them.
    A nested call made by a running callback is a call of another thread identity. */
module StopSource {
  import opened Options
  import opened CallbackList
  import Sequences

  type Tid = nat

  datatype Word = Word(stop: bool, locked: bool)

  const NONE := Word(false, false)

  /** Who spins in _M_try_lock_unless_stop_requested. */
  datatype TryGoal = ToStop | ToRegister(cb: Cb)

  /** Who spins in _M_lock. */
  datatype LockGoal = ToNotify | ToRemove(cb: Cb)

  datatype Pc =
    | Idle
    | TryLock(goal: TryGoal, seen: Word)
    | Lock(why: LockGoal, was: Word)
    // _M_request_stop, after winning
    | NotifyHead               // holds the lock
    | NotifyTaken(cb: Cb)      // holds the lock, cb is taken off the list
    | NotifyRun(cb: Cb)
    | NotifyRunning(cb: Cb)
    | NotifyRan(cb: Cb)
    | NotifyDone               // the completion is stored, the lock is taken next
    | NotifyEnd                // holds the lock
    // _M_register_callback
    | AddLink(cb: Cb)          // holds the lock
    | AddUnlock(cb: Cb)        // holds the lock
    | InlineRun(cb: Cb)
    | InlineRunning(cb: Cb)
    // _M_remove_callback
    | RemoveLink(cb: Cb, was: Word)                // holds the lock
    | RemoveUnlock(cb: Cb, was: Word, wait: bool)  // holds the lock
    | RemoveWait(cb: Cb)

  /** Where a callback is in its life. */
  datatype Stage = Fresh | Registering | Listed | Taken | Unlinked | Inline

  datatype State = State(
    word: Word,
    links: Links,
    notify: bool,
    completed: set<Cb>,        // __callback_completed_
    threads: map<Tid, Pc>,     // absent: Idle
    // history
    list: seq<Cb>,
    stages: map<Cb, Stage>,    // absent: Fresh
    started: map<Cb, nat>,     // how often the callback began to run; absent: 0
    finished: set<Cb>,         // the callback has returned
    registered: set<Cb>,       // _M_register_callback has returned
    removing: set<Cb>,         // _M_remove_callback has been called
    removed: set<Cb>,          // _M_remove_callback has returned
    wins: nat,                 // how many _M_request_stop won
    winner: Option<Tid>,       // the thread of the one that won
    winnerDone: bool,          // ... and it has returned
    owner: Option<Tid>,        // who holds the lock
    registrar: map<Cb, Tid>,   // who called _M_register_callback
    remover: map<Cb, Tid>,     // who called _M_remove_callback
    winning: set<Tid>,         // threads whose latest _M_request_stop won
    answers: map<Tid, bool>)   // what it returned, once it has

  function PcOf(s: State, t: Tid): Pc {
    if t in s.threads then s.threads[t] else Idle
  }

  function StageOf(s: State, cb: Cb): Stage {
    if cb in s.stages then s.stages[cb] else Fresh
  }

  function Runs(s: State, cb: Cb): nat {
    if cb in s.started then s.started[cb] else 0
  }

  ghost predicate Init(s: State) {
    s == State(NONE, Links(None, map[], map[]), false, {}, map[],
               [], map[], map[], {}, {}, {}, {}, 0, None, false, None, map[], map[], {}, map[])
  }

  /** A callback is registered once and removed at most once, after its registration returned. */
  datatype Step =
    | RequestStop(t: Tid)
    | Register(t: Tid, cb: Cb)
    | Remove(t: Tid, cb: Cb)
    | Continue(t: Tid, spurious: bool)

  predicate Enabled(s: State, step: Step) {
    match step
    case RequestStop(t) => PcOf(s, t).Idle?
    case Register(t, cb) => PcOf(s, t).Idle? && StageOf(s, cb).Fresh?
    case Remove(t, cb) => PcOf(s, t).Idle? && cb in s.registered && cb !in s.removing && !StageOf(s, cb).Inline?
    case Continue(t, _) => !PcOf(s, t).Idle?
  }

  function Go(s: State, t: Tid, pc: Pc): State {
    s.(threads := s.threads[t := pc])
  }

  function Staged(s: State, cb: Cb, stage: Stage): State {
    s.(stages := s.stages[cb := stage])
  }

  function Started(s: State, cb: Cb): State {
    s.(started := s.started[cb := Runs(s, cb) + 1])
  }

  function Do(s: State, step: Step): State
    requires Enabled(s, step)
  {
    match step
    case RequestStop(t) => Go(s, t, TryLock(ToStop, s.word)).(winning := s.winning - {t}, answers := s.answers - {t})
    case Register(t, cb) =>
      Staged(Go(s, t, TryLock(ToRegister(cb), s.word)), cb, Registering).(registrar := s.registrar[cb := t])
    case Remove(t, cb) =>
      Go(s, t, Lock(ToRemove(cb), s.word)).(removing := s.removing + {cb}, remover := s.remover[cb := t])
    case Continue(t, spurious) => Advance(s, t, PcOf(s, t), spurious)
  }

  function Advance(s: State, t: Tid, pc: Pc, spurious: bool): State
    requires !pc.Idle?
  {
    match pc
    case TryLock(goal, seen) => DoTryLock(s, t, goal, seen, spurious)
    case Lock(why, was) => DoLock(s, t, why, was, spurious)
    case NotifyHead =>
      var s1 := s.(notify := true);
      (match s.links.head
       case None => Go(s1, t, NotifyEnd)
       case Some(cb) =>
         Go(Staged(s1, cb, Taken), t, NotifyTaken(cb))
         .(links := PopFront(s.links, cb), list := if s.list == [] then [] else s.list[1..]))
    case NotifyTaken(cb) => Go(s, t, NotifyRun(cb)).(word := Word(true, false), owner := None)
    case NotifyRun(cb) => Go(Started(s, cb), t, NotifyRunning(cb))
    case NotifyRunning(cb) => Go(s, t, NotifyRan(cb)).(finished := s.finished + {cb})
    case NotifyRan(cb) => Go(s, t, NotifyDone).(completed := s.completed + {cb})
    case NotifyDone => Go(s, t, Lock(ToNotify, s.word))
    case NotifyEnd => Answered(s, t, false).(word := Word(true, false), owner := None, winnerDone := true)
    case AddLink(cb) =>
      Go(Staged(s, cb, Listed), t, AddUnlock(cb)).(links := PushFront(s.links, cb), list := [cb] + s.list)
    case AddUnlock(cb) => Go(s, t, Idle).(word := NONE, owner := None, registered := s.registered + {cb})
    case InlineRun(cb) => Go(Started(s, cb), t, InlineRunning(cb))
    case InlineRunning(cb) => Go(s, t, Idle).(finished := s.finished + {cb}, registered := s.registered + {cb})
    case RemoveLink(cb, was) =>
      if PrevSlot(s.links, cb) != NoSlot then
        Go(Staged(s, cb, Unlinked), t, RemoveUnlock(cb, was, false))
        .(links := Unlink(s.links, cb), list := Removed(s.list, cb))
      else Go(s, t, RemoveUnlock(cb, was, s.notify))
    case RemoveUnlock(cb, was, wait) =>
      if wait then Go(s, t, RemoveWait(cb)).(word := was, owner := None)
      else Go(s, t, Idle).(word := was, owner := None, removed := s.removed + {cb})
    case RemoveWait(cb) =>
      if cb in s.completed then Go(s, t, Idle).(removed := s.removed + {cb}) else s
  }

  /** The lock bit is set in the word that was seen. */
  function Locked(s: State, t: Tid, was: Word, pc: Pc): State {
    Go(s, t, pc).(word := was.(locked := true), owner := Some(t))
  }

  function Won(s: State, t: Tid): State {
    Locked(s, t, Word(true, false), NotifyHead).(wins := s.wins + 1, winner := Some(t), winning := s.winning + {t})
  }

  /** _M_request_stop returns. */
  function Answered(s: State, t: Tid, answer: bool): State {
    Go(s, t, Idle).(answers := s.answers[t := answer])
  }

  /** One turn of the loop: leave on stop, else compare-exchange from 0, else load again. */
  function DoTryLock(s: State, t: Tid, goal: TryGoal, seen: Word, spurious: bool): State {
    if seen.stop then
      match goal
      case ToStop => Answered(s, t, true)
      case ToRegister(cb) => Go(Staged(s, cb, Inline), t, InlineRun(cb))
    else if seen == NONE && s.word == NONE && !spurious then
      match goal
      case ToStop => Won(s, t)
      case ToRegister(cb) => Locked(s, t, NONE, AddLink(cb))
    else Go(s, t, TryLock(goal, s.word))
  }

  function DoLock(s: State, t: Tid, why: LockGoal, was: Word, spurious: bool): State {
    if !was.locked && s.word == was && !spurious then
      match why
      case ToNotify => Locked(s, t, was, NotifyHead)
      case ToRemove(cb) => Locked(s, t, was, RemoveLink(cb, was))
    else Go(s, t, Lock(why, s.word))
  }

  function Removed(list: seq<Cb>, cb: Cb): seq<Cb> {
    if list == [] then [] else if list[0] == cb then list[1..] else [list[0]] + Removed(list[1..], cb)
  }

  // ----- the invariant -----

  predicate Holds(pc: Pc) {
    pc.NotifyHead? || pc.NotifyTaken? || pc.NotifyEnd? || pc.AddLink? || pc.AddUnlock? ||
    pc.RemoveLink? || pc.RemoveUnlock?
  }

  /** Inside _M_request_stop after winning. */
  predicate Notifies(pc: Pc) {
    pc.NotifyHead? || pc.NotifyTaken? || pc.NotifyRun? || pc.NotifyRunning? || pc.NotifyRan? ||
    pc.NotifyDone? || pc.NotifyEnd? ||
    (pc.Lock? && pc.why.ToNotify?)
  }

  predicate NotifiesFor(pc: Pc, cb: Cb) {
    (pc.NotifyTaken? || pc.NotifyRun? || pc.NotifyRunning? || pc.NotifyRan?) && pc.cb == cb
  }

  predicate RegistersFor(pc: Pc, cb: Cb) {
    || (pc.TryLock? && pc.goal == ToRegister(cb))
    || ((pc.AddLink? || pc.AddUnlock? || pc.InlineRun? || pc.InlineRunning?) && pc.cb == cb)
  }

  predicate RemovesFor(pc: Pc, cb: Cb) {
    || (pc.Lock? && pc.why == ToRemove(cb))
    || ((pc.RemoveLink? || pc.RemoveUnlock? || pc.RemoveWait?) && pc.cb == cb)
  }

  /** No thread is going to read or write this callback any more. */
  ghost predicate Untouched(s: State, cb: Cb) {
    && cb !in s.list
    && forall t :: t in s.threads ==>
         !NotifiesFor(s.threads[t], cb) && !RegistersFor(s.threads[t], cb) && !RemovesFor(s.threads[t], cb)
  }

  ghost predicate ThreadOk(s: State, t: Tid) {
    var pc := PcOf(s, t);
    && (Holds(pc) <==> s.owner == Some(t))
    && (Notifies(pc) <==> s.winner == Some(t) && !s.winnerDone)
    && PcOk(s, t, pc)
  }

  /** What a thread knows at each place of its code. */
  ghost predicate PcOk(s: State, t: Tid, pc: Pc) {
    match pc
    case Idle => true
    case TryLock(goal, seen) =>
      && (seen.stop ==> s.word.stop)
      && (goal.ToRegister? ==> RegisteringOk(s, t, goal.cb) && StageOf(s, goal.cb).Registering?)
    case Lock(why, was) =>
      (was.stop ==> s.word.stop) && (if why.ToRemove? then RemovableOk(s, t, why.cb) else s.notify)
    case NotifyHead => true
    case NotifyTaken(cb) => TakenOk(s, cb, 0) && cb !in s.finished
    case NotifyRun(cb) => TakenOk(s, cb, 0) && cb !in s.finished
    case NotifyRunning(cb) => TakenOk(s, cb, 1) && cb !in s.finished
    case NotifyRan(cb) => TakenOk(s, cb, 1) && cb in s.finished
    case NotifyDone => s.notify
    case NotifyEnd => s.list == [] && s.notify
    case AddLink(cb) => RegisteringOk(s, t, cb) && StageOf(s, cb).Registering? && !s.word.stop
    case AddUnlock(cb) => RegisteringOk(s, t, cb) && StageOf(s, cb).Listed? && !s.word.stop
    case InlineRun(cb) => RunningInlineOk(s, t, cb, 0)
    case InlineRunning(cb) => RunningInlineOk(s, t, cb, 1)
    case RemoveLink(cb, was) => RemovableOk(s, t, cb) && was == Word(s.word.stop, false)
    case RemoveUnlock(cb, was, wait) =>
      RemovingOk(s, t, cb) && was == Word(s.word.stop, false) &&
      (if wait then StageOf(s, cb).Taken? else StageOf(s, cb).Unlinked?)
    case RemoveWait(cb) => RemovingOk(s, t, cb) && StageOf(s, cb).Taken?
  }

  ghost predicate TakenOk(s: State, cb: Cb, runs: nat) {
    StageOf(s, cb).Taken? && Runs(s, cb) == runs && cb !in s.completed
  }

  ghost predicate RunningInlineOk(s: State, t: Tid, cb: Cb, runs: nat) {
    RegisteringOk(s, t, cb) && StageOf(s, cb).Inline? && Runs(s, cb) == runs && cb !in s.finished
  }

  ghost predicate RegisteringOk(s: State, t: Tid, cb: Cb) {
    cb !in s.registered && cb in s.registrar && s.registrar[cb] == t
  }

  ghost predicate RemovingOk(s: State, t: Tid, cb: Cb) {
    cb in s.removing && cb !in s.removed && cb in s.remover && s.remover[cb] == t
  }

  ghost predicate RemovableOk(s: State, t: Tid, cb: Cb) {
    RemovingOk(s, t, cb) && (StageOf(s, cb).Listed? || StageOf(s, cb).Taken?)
  }

  ghost predicate CbOk(s: State, cb: Cb) {
    && (cb in s.list <==> StageOf(s, cb).Listed?)
    && (cb in s.completed ==> cb in s.finished && StageOf(s, cb).Taken?)
    && (cb in s.finished ==> Runs(s, cb) == 1)
    && (cb in s.removed ==> cb in s.removing)
    && (cb in s.removing ==> cb in s.registered)
    && (cb in s.removed ==> StageOf(s, cb).Unlinked? || cb in s.completed)
    && match StageOf(s, cb)
       case Fresh => Runs(s, cb) == 0 && cb !in s.registered
       case Registering => Runs(s, cb) == 0 && cb !in s.registered
       case Listed => Runs(s, cb) == 0 && PrevSlot(s.links, cb) != NoSlot
       case Taken =>
         && PrevSlot(s.links, cb) == NoSlot && s.notify && Runs(s, cb) <= 1
         && ((s.winner.Some? && NotifiesFor(PcOf(s, s.winner.value), cb)) || cb in s.completed)
       case Unlinked => Runs(s, cb) == 0 && cb in s.removing
       case Inline => Runs(s, cb) <= 1 && s.word.stop && (cb in s.registered ==> cb in s.finished) && cb !in s.removing
  }

  ghost predicate GlobalOk(s: State) {
    && WellFormed(s.links, s.list)
    && (s.word.locked <==> s.owner.Some?)
    && (s.word.stop <==> s.winner.Some?)
    && s.wins == (if s.winner.Some? then 1 else 0)
    && (s.winnerDone ==> s.winner.Some? && s.list == [])
    && (s.notify ==> s.word.stop)
  }

  ghost predicate Inv(s: State) {
    GlobalOk(s) && (forall t :: ThreadOk(s, t)) && (forall cb :: CbOk(s, cb))
  }

  // ----- what a step of one thread leaves alone -----

  ghost predicate SameRun(s: State, s': State, cb: Cb) {
    && StageOf(s', cb) == StageOf(s, cb) && Runs(s', cb) == Runs(s, cb)
    && (cb in s'.finished <==> cb in s.finished) && (cb in s'.completed <==> cb in s.completed)
    && (cb in s'.registered <==> cb in s.registered)
    && (cb in s.registrar ==> cb in s'.registrar && s'.registrar[cb] == s.registrar[cb])
  }

  ghost predicate SameRemoval(s: State, s': State, cb: Cb) {
    && (cb in s'.removing <==> cb in s.removing) && (cb in s'.removed <==> cb in s.removed)
    && (cb in s.remover ==> cb in s'.remover && s'.remover[cb] == s.remover[cb])
  }

  ghost predicate SameCb(s: State, s': State, cb: Cb) {
    && SameRun(s, s', cb) && SameRemoval(s, s', cb)
    && (cb in s'.list <==> cb in s.list)
    && (PrevSlot(s'.links, cb) == NoSlot <==> PrevSlot(s.links, cb) == NoSlot)
  }

  /** What every thread may rely on while another thread t takes a step. */
  ghost predicate Calm(s: State, s': State, t: Tid) {
    && (s.word.stop ==> s'.word.stop) && (s.notify ==> s'.notify)
    && (s.owner.Some? && s.owner != Some(t) ==> s'.owner == s.owner && s'.word == s.word && s'.list == s.list)
    && (s.owner == None || s.owner == Some(t) ==> s'.owner == None || s'.owner == Some(t))
    && (s.winner.Some? ==> s'.winner == s.winner) && (s.winner == None ==> s'.winner == None || s'.winner == Some(t))
    && (s.winnerDone ==> s'.winnerDone) && (s'.winnerDone != s.winnerDone ==> s.winner == Some(t))
    && forall u :: u != t ==> PcOf(s', u) == PcOf(s, u)
  }

  lemma PcFrame(s: State, s': State, u: Tid, pc: Pc)
    requires PcOk(s, u, pc)
    requires (s.word.stop ==> s'.word.stop) && (s.notify ==> s'.notify)
    requires Holds(pc) ==> s'.word == s.word && s'.list == s.list
    requires forall cb :: NotifiesFor(pc, cb) || RegistersFor(pc, cb) ==> SameRun(s, s', cb)
    requires forall cb :: RemovesFor(pc, cb) ==>
      && SameRemoval(s, s', cb)
      && (StageOf(s', cb) == StageOf(s, cb) || (StageOf(s, cb).Listed? && StageOf(s', cb).Taken?))
    ensures PcOk(s', u, pc)
  {
    match pc {
      case TryLock(goal, _) => assert goal.ToRegister? ==> RegistersFor(pc, goal.cb);
      case Lock(why, _) => assert why.ToRemove? ==> RemovesFor(pc, why.cb);
      case NotifyTaken(cb) => assert NotifiesFor(pc, cb);
      case NotifyRun(cb) => assert NotifiesFor(pc, cb);
      case NotifyRunning(cb) => assert NotifiesFor(pc, cb);
      case NotifyRan(cb) => assert NotifiesFor(pc, cb);
      case AddLink(cb) => assert RegistersFor(pc, cb);
      case AddUnlock(cb) => assert RegistersFor(pc, cb);
      case InlineRun(cb) => assert RegistersFor(pc, cb);
      case InlineRunning(cb) => assert RegistersFor(pc, cb);
      case RemoveLink(cb, _) => assert RemovesFor(pc, cb);
      case RemoveUnlock(cb, _, _) => assert RemovesFor(pc, cb);
      case RemoveWait(cb) => assert RemovesFor(pc, cb);
      case _ =>
    }
  }

  lemma ThreadFrame(s: State, s': State, t: Tid, u: Tid)
    requires ThreadOk(s, u) && u != t && Calm(s, s', t)
    requires forall cb :: NotifiesFor(PcOf(s, u), cb) || RegistersFor(PcOf(s, u), cb) ==> SameRun(s, s', cb)
    requires forall cb :: RemovesFor(PcOf(s, u), cb) ==>
      && SameRemoval(s, s', cb)
      && (StageOf(s', cb) == StageOf(s, cb) || (StageOf(s, cb).Listed? && StageOf(s', cb).Taken?))
    ensures ThreadOk(s', u)
  {
    PcFrame(s, s', u, PcOf(s, u));
  }

  lemma CbFrame(s: State, s': State, t: Tid, cb: Cb)
    requires CbOk(s, cb) && SameCb(s, s', cb) && Calm(s, s', t)
    requires s.winner == Some(t) && NotifiesFor(PcOf(s, t), cb) ==> NotifiesFor(PcOf(s', t), cb) || cb in s'.completed
    ensures CbOk(s', cb)
  {
  }

  /** Which callbacks a thread can be working for. */
  lemma Roles(s: State, u: Tid, cb: Cb)
    requires ThreadOk(s, u) && CbOk(s, cb)
    ensures RegistersFor(PcOf(s, u), cb) ==>
      && RegisteringOk(s, u, cb)
      && (StageOf(s, cb).Registering? || StageOf(s, cb).Inline? || (StageOf(s, cb).Listed? && s.owner == Some(u)))
    ensures RemovesFor(PcOf(s, u), cb) ==> RemovingOk(s, u, cb) && cb in s.registered
    ensures NotifiesFor(PcOf(s, u), cb) ==> StageOf(s, cb).Taken? && s.winner == Some(u)
  {
  }

  /** A step of t that changes nothing but what belongs to one callback. */
  ghost predicate OnlyTouches(s: State, s': State, t: Tid, cb0: Cb) {
    && Calm(s, s', t)
    && (forall cb :: cb != cb0 ==> SameCb(s, s', cb) && !NotifiesFor(PcOf(s, t), cb))
    && ( || ((RegistersFor(PcOf(s, t), cb0) || StageOf(s, cb0).Fresh?) && SameRemoval(s, s', cb0))
         || ((RemovesFor(PcOf(s, t), cb0) || cb0 !in s.removing) && SameRun(s, s', cb0))
         || (RemovesFor(PcOf(s, t), cb0) && StageOf(s, cb0).Listed?)
         || (NotifiesFor(PcOf(s, t), cb0) && SameRemoval(s, s', cb0) && StageOf(s', cb0) == StageOf(s, cb0))
         || (s.owner == Some(t) && SameRemoval(s, s', cb0) && StageOf(s, cb0).Listed? && StageOf(s', cb0).Taken?)
         || SameCb(s, s', cb0))
  }

  lemma OthersKept(s: State, s': State, t: Tid, cb0: Cb)
    requires Inv(s) && OnlyTouches(s, s', t, cb0)
    ensures forall u :: u != t ==> ThreadOk(s', u)
    ensures forall cb :: cb != cb0 ==> CbOk(s', cb)
  {
    assert ThreadOk(s, t);
    assert CbOk(s, cb0);
    Roles(s, t, cb0);
    forall u | u != t
      ensures ThreadOk(s', u)
    {
      assert ThreadOk(s, u);
      Roles(s, u, cb0);
      forall cb | NotifiesFor(PcOf(s, u), cb) || RegistersFor(PcOf(s, u), cb)
        ensures SameRun(s, s', cb)
      {
        assert cb != cb0 ==> SameCb(s, s', cb);
      }
      forall cb | RemovesFor(PcOf(s, u), cb)
        ensures SameRemoval(s, s', cb)
        ensures StageOf(s', cb) == StageOf(s, cb) || (StageOf(s, cb).Listed? && StageOf(s', cb).Taken?)
      {
        assert cb != cb0 ==> SameCb(s, s', cb);
      }
      ThreadFrame(s, s', t, u);
    }
    forall cb | cb != cb0
      ensures CbOk(s', cb)
    {
      assert CbOk(s, cb);
      CbFrame(s, s', t, cb);
    }
  }

  // ----- every step keeps the invariant -----

  ghost predicate NotYetListed(s: State, cb: Cb) {
    StageOf(s, cb).Fresh? || StageOf(s, cb).Registering? || StageOf(s, cb).Inline?
  }

  /** What holds of a callback once and for all after a step. */
  ghost predicate LaterOf(s: State, s': State, cb: Cb) {
    && (cb in s.removed ==> cb in s'.removed && Runs(s', cb) == Runs(s, cb))
    && (cb in s.registered ==> cb in s'.registered)
    && (cb in s.finished ==> cb in s'.finished)
    && (s.word.stop && NotYetListed(s, cb) ==> NotYetListed(s', cb))
  }

  ghost predicate Later(s: State, s': State) {
    && (s.word.stop ==> s'.word.stop) && (s.winnerDone ==> s'.winnerDone)
    && forall cb :: LaterOf(s, s', cb)
  }

  ghost predicate Keeps(s: State, s': State) {
    Inv(s') && Later(s, s')
  }

  lemma Conclude(s: State, s': State, t: Tid, cb0: Cb)
    requires Inv(s) && OnlyTouches(s, s', t, cb0)
    requires GlobalOk(s') && ThreadOk(s', t) && CbOk(s', cb0) && LaterOf(s, s', cb0)
    ensures Keeps(s, s')
  {
    OthersKept(s, s', t, cb0);
    forall cb | cb != cb0
      ensures LaterOf(s, s', cb)
    {
      assert SameCb(s, s', cb);
    }
  }

  lemma MoveTouches(s: State, t: Tid, pc': Pc)
    requires forall cb :: !NotifiesFor(PcOf(s, t), cb)
    ensures OnlyTouches(s, Go(s, t, pc'), t, 0)
  {
    forall cb
      ensures SameCb(s, Go(s, t, pc'), cb) && !NotifiesFor(PcOf(s, t), cb)
    {
    }
  }

  lemma MovedThread(s: State, t: Tid, pc': Pc)
    requires ThreadOk(s, t) && PcOk(s, t, pc')
    requires Holds(PcOf(s, t)) <==> Holds(pc')
    requires Notifies(PcOf(s, t)) <==> Notifies(pc')
    ensures ThreadOk(Go(s, t, pc'), t)
  {
    PcFrame(s, Go(s, t, pc'), t, pc');
  }

  /** A step that changes only the place of t in its code. */
  lemma MoveKeepsInv(s: State, t: Tid, pc': Pc)
    requires Inv(s)
    requires Holds(PcOf(s, t)) <==> Holds(pc')
    requires Notifies(PcOf(s, t)) <==> Notifies(pc')
    requires forall cb :: !NotifiesFor(PcOf(s, t), cb)
    requires PcOk(s, t, pc')
    ensures Keeps(s, Go(s, t, pc'))
  {
    var s' := Go(s, t, pc');
    assert ThreadOk(s, t);
    assert CbOk(s, 0);
    MoveTouches(s, t, pc');
    MovedThread(s, t, pc');
    CbFrame(s, s', t, 0);
    Conclude(s, s', t, 0);
  }

  /** What a call returns is noted beside the state that the invariant speaks of. */
  lemma NotedKeepsInv(s: State, m: State, s': State)
    requires Keeps(s, m) && s' == m.(winning := s'.winning, answers := s'.answers)
    ensures Keeps(s, s')
  {
    forall u
      ensures ThreadOk(s', u)
    {
      assert ThreadOk(m, u);
    }
    forall cb
      ensures CbOk(s', cb) && LaterOf(s, s', cb)
    {
      assert CbOk(m, cb) && LaterOf(s, m, cb);
    }
  }

  lemma RequestKeepsInv(s: State, t: Tid)
    requires Inv(s) && PcOf(s, t).Idle?
    ensures Keeps(s, Do(s, RequestStop(t)))
  {
    assert ThreadOk(s, t);
    MoveKeepsInv(s, t, TryLock(ToStop, s.word));
    NotedKeepsInv(s, Go(s, t, TryLock(ToStop, s.word)), Do(s, RequestStop(t)));
  }

  lemma RegisterTouches(s: State, t: Tid, cb: Cb)
    requires PcOf(s, t).Idle? && StageOf(s, cb).Fresh?
    ensures OnlyTouches(s, Do(s, Register(t, cb)), t, cb)
  {
  }

  lemma RegisterBegins(s: State, t: Tid, cb: Cb)
    requires Inv(s) && PcOf(s, t).Idle? && StageOf(s, cb).Fresh?
    ensures
      var s' := Do(s, Register(t, cb));
      GlobalOk(s') && ThreadOk(s', t) && CbOk(s', cb) && LaterOf(s, s', cb)
  {
    assert ThreadOk(s, t) && CbOk(s, cb);
  }

  lemma RegisterKeepsInv(s: State, t: Tid, cb: Cb)
    requires Inv(s) && PcOf(s, t).Idle? && StageOf(s, cb).Fresh?
    ensures Keeps(s, Do(s, Register(t, cb)))
  {
    RegisterTouches(s, t, cb);
    RegisterBegins(s, t, cb);
    Conclude(s, Do(s, Register(t, cb)), t, cb);
  }

  lemma RemoveTouches(s: State, t: Tid, cb: Cb)
    requires Enabled(s, Remove(t, cb))
    ensures OnlyTouches(s, Do(s, Remove(t, cb)), t, cb)
  {
  }

  lemma RemoveKeepsInv(s: State, t: Tid, cb: Cb)
    requires Inv(s) && Enabled(s, Remove(t, cb))
    ensures Keeps(s, Do(s, Remove(t, cb)))
  {
    var s' := Do(s, Remove(t, cb));
    assert ThreadOk(s, t);
    assert CbOk(s, cb);
    assert StageOf(s, cb).Listed? || StageOf(s, cb).Taken?;
    RemoveTouches(s, t, cb);
    Conclude(s, s', t, cb);
  }

  lemma WinKeepsInv(s: State, t: Tid)
    requires Inv(s) && PcOf(s, t).TryLock? && PcOf(s, t).goal == ToStop && s.word == NONE
    ensures Keeps(s, Won(s, t))
  {
    var s' := Won(s, t);
    assert ThreadOk(s, t);
    assert CbOk(s, 0);
    CbFrame(s, s', t, 0);
    Conclude(s, s', t, 0);
  }

  lemma AddLockKeepsInv(s: State, t: Tid, cb: Cb)
    requires Inv(s) && PcOf(s, t).TryLock? && PcOf(s, t).goal == ToRegister(cb) && s.word == NONE
    ensures Keeps(s, Locked(s, t, NONE, AddLink(cb)))
  {
    var s' := Locked(s, t, NONE, AddLink(cb));
    assert ThreadOk(s, t);
    assert CbOk(s, cb);
    CbFrame(s, s', t, cb);
    Conclude(s, s', t, cb);
  }

  lemma InlineKeepsInv(s: State, t: Tid, cb: Cb, seen: Word)
    requires Inv(s) && PcOf(s, t) == TryLock(ToRegister(cb), seen) && seen.stop
    ensures Keeps(s, Go(Staged(s, cb, Inline), t, InlineRun(cb)))
  {
    var s' := Go(Staged(s, cb, Inline), t, InlineRun(cb));
    assert ThreadOk(s, t);
    assert CbOk(s, cb);
    Conclude(s, s', t, cb);
  }

  lemma TryLockKeepsInv(s: State, t: Tid, goal: TryGoal, seen: Word, spurious: bool)
    requires Inv(s) && PcOf(s, t) == TryLock(goal, seen)
    ensures Keeps(s, DoTryLock(s, t, goal, seen, spurious))
  {
    assert ThreadOk(s, t);
    if seen.stop {
      match goal {
        case ToStop =>
          MoveKeepsInv(s, t, Idle);
          NotedKeepsInv(s, Go(s, t, Idle), Answered(s, t, true));
        case ToRegister(cb) => InlineKeepsInv(s, t, cb, seen);
      }
    } else if seen == NONE && s.word == NONE && !spurious {
      match goal {
        case ToStop => WinKeepsInv(s, t);
        case ToRegister(cb) => AddLockKeepsInv(s, t, cb);
      }
    } else {
      MoveKeepsInv(s, t, TryLock(goal, s.word));
    }
  }

  lemma RelockKeepsInv(s: State, t: Tid, was: Word)
    requires Inv(s) && PcOf(s, t) == Lock(ToNotify, was) && !was.locked && s.word == was
    ensures Keeps(s, Locked(s, t, was, NotifyHead))
  {
    var s' := Locked(s, t, was, NotifyHead);
    assert ThreadOk(s, t);
    assert CbOk(s, 0);
    CbFrame(s, s', t, 0);
    Conclude(s, s', t, 0);
  }

  lemma RemoveLockKeepsInv(s: State, t: Tid, cb: Cb, was: Word)
    requires Inv(s) && PcOf(s, t) == Lock(ToRemove(cb), was) && !was.locked && s.word == was
    ensures Keeps(s, Locked(s, t, was, RemoveLink(cb, was)))
  {
    var s' := Locked(s, t, was, RemoveLink(cb, was));
    assert ThreadOk(s, t);
    assert CbOk(s, cb);
    CbFrame(s, s', t, cb);
    Conclude(s, s', t, cb);
  }

  lemma LockKeepsInv(s: State, t: Tid, why: LockGoal, was: Word, spurious: bool)
    requires Inv(s) && PcOf(s, t) == Lock(why, was)
    ensures Keeps(s, DoLock(s, t, why, was, spurious))
  {
    if !was.locked && s.word == was && !spurious {
      match why {
        case ToNotify => RelockKeepsInv(s, t, was);
        case ToRemove(cb) => RemoveLockKeepsInv(s, t, cb, was);
      }
    } else {
      assert ThreadOk(s, t);
      MoveKeepsInv(s, t, Lock(why, s.word));
    }
  }

  lemma NotifyEndsKeepsInv(s: State, t: Tid)
    requires Inv(s) && PcOf(s, t).NotifyHead? && s.links.head == None
    ensures Keeps(s, Go(s.(notify := true), t, NotifyEnd))
  {
    var s' := Go(s.(notify := true), t, NotifyEnd);
    assert ThreadOk(s, t);
    assert CbOk(s, 0);
    CbFrame(s, s', t, 0);
    Conclude(s, s', t, 0);
  }

  /** Taking the head keeps the prev links of the other callbacks set. */
  lemma PopFrontOthers(l: Links, list: seq<Cb>, c: Cb)
    requires WellFormed(l, list) && list != [] && c != list[0]
    ensures PrevSlot(PopFront(l, list[0]), c) == NoSlot <==> PrevSlot(l, c) == NoSlot
    ensures c in list[1..] <==> c in list
    ensures PrevSlot(PopFront(l, list[0]), list[0]) == NoSlot
  {
    assert NodeAt(l, list, 0);
    assert |list| > 1 ==> NodeAt(l, list, 1);
    assert |list| > 1 ==> Sequences.Differ(list, 0, 1);
  }

  lemma TakeTouches(s: State, t: Tid, cb: Cb)
    requires Inv(s) && PcOf(s, t).NotifyHead? && s.links.head == Some(cb)
    ensures s.list != [] && s.list[0] == cb
    ensures OnlyTouches(s, Advance(s, t, NotifyHead, false), t, cb)
  {
    var s' := Advance(s, t, NotifyHead, false);
    assert ThreadOk(s, t) && CbOk(s, cb);
    assert s.list != [] && s.list[0] == cb;
    forall c | c != cb
      ensures SameCb(s, s', c)
    {
      PopFrontOthers(s.links, s.list, c);
    }
  }

  lemma TakeKeepsInv(s: State, t: Tid, cb: Cb)
    requires Inv(s) && PcOf(s, t).NotifyHead? && s.links.head == Some(cb)
    ensures Keeps(s, Advance(s, t, NotifyHead, false))
  {
    var s' := Advance(s, t, NotifyHead, false);
    assert ThreadOk(s, t);
    assert CbOk(s, cb);
    TakeTouches(s, t, cb);
    PopFrontOk(s.links, s.list);
    PopFrontOthers(s.links, s.list, cb + 1);
    Conclude(s, s', t, cb);
  }

  lemma NotifyUnlockKeepsInv(s: State, t: Tid, cb: Cb)
    requires Inv(s) && PcOf(s, t) == NotifyTaken(cb)
    ensures Keeps(s, Advance(s, t, NotifyTaken(cb), false))
  {
    var s' := Advance(s, t, NotifyTaken(cb), false);
    assert ThreadOk(s, t);
    assert CbOk(s, cb);
    Conclude(s, s', t, cb);
  }

  lemma NotifyRunTouches(s: State, t: Tid, cb: Cb)
    requires PcOf(s, t) == NotifyRun(cb) || PcOf(s, t) == NotifyRunning(cb)
    ensures OnlyTouches(s, Advance(s, t, PcOf(s, t), false), t, cb)
  {
  }

  lemma NotifyRunKeepsInv(s: State, t: Tid, cb: Cb)
    requires Inv(s) && (PcOf(s, t) == NotifyRun(cb) || PcOf(s, t) == NotifyRunning(cb))
    ensures Keeps(s, Advance(s, t, PcOf(s, t), false))
  {
    var s' := Advance(s, t, PcOf(s, t), false);
    assert ThreadOk(s, t);
    assert CbOk(s, cb);
    NotifyRunTouches(s, t, cb);
    Conclude(s, s', t, cb);
  }

  lemma NotifyRanKeepsInv(s: State, t: Tid, cb: Cb)
    requires Inv(s) && PcOf(s, t) == NotifyRan(cb)
    ensures Keeps(s, Advance(s, t, NotifyRan(cb), false))
  {
    var s' := Advance(s, t, NotifyRan(cb), false);
    assert ThreadOk(s, t);
    assert CbOk(s, cb);
    Conclude(s, s', t, cb);
  }

  lemma NotifyDoneKeepsInv(s: State, t: Tid)
    requires Inv(s) && PcOf(s, t) == NotifyDone
    ensures Keeps(s, Advance(s, t, NotifyDone, false))
  {
    assert ThreadOk(s, t);
    MoveKeepsInv(s, t, Lock(ToNotify, s.word));
  }

  lemma EndKeepsInv(s: State, t: Tid)
    requires Inv(s) && PcOf(s, t).NotifyEnd?
    ensures Keeps(s, Advance(s, t, NotifyEnd, false))
  {
    var s' := Advance(s, t, NotifyEnd, false);
    assert ThreadOk(s, t);
    assert CbOk(s, 0);
    CbFrame(s, s', t, 0);
    Conclude(s, s', t, 0);
  }

  /** Linking a callback in keeps the prev links of the other callbacks set. */
  lemma PushFrontOthers(l: Links, list: seq<Cb>, cb: Cb, c: Cb)
    requires WellFormed(l, list) && cb !in list
    ensures c != cb ==> (PrevSlot(PushFront(l, cb), c) == NoSlot <==> PrevSlot(l, c) == NoSlot)
    ensures c != cb ==> (c in [cb] + list <==> c in list)
    ensures PrevSlot(PushFront(l, cb), cb) != NoSlot
  {
    assert list != [] ==> NodeAt(l, list, 0);
  }

  lemma AddKeepsInv(s: State, t: Tid, cb: Cb)
    requires Inv(s) && PcOf(s, t) == AddLink(cb)
    ensures Keeps(s, Advance(s, t, AddLink(cb), false))
  {
    var s' := Advance(s, t, AddLink(cb), false);
    assert ThreadOk(s, t);
    assert CbOk(s, cb);
    PushFrontOk(s.links, s.list, cb);
    forall c
      ensures c != cb ==> SameCb(s, s', c)
    {
      PushFrontOthers(s.links, s.list, cb, c);
    }
    Conclude(s, s', t, cb);
  }

  lemma AddUnlockKeepsInv(s: State, t: Tid, cb: Cb)
    requires Inv(s) && PcOf(s, t) == AddUnlock(cb)
    ensures Keeps(s, Advance(s, t, AddUnlock(cb), false))
  {
    var s' := Advance(s, t, AddUnlock(cb), false);
    assert ThreadOk(s, t);
    assert CbOk(s, cb);
    Conclude(s, s', t, cb);
  }

  lemma InlineRunTouches(s: State, t: Tid, cb: Cb)
    requires PcOf(s, t) == InlineRun(cb) || PcOf(s, t) == InlineRunning(cb)
    ensures OnlyTouches(s, Advance(s, t, PcOf(s, t), false), t, cb)
  {
  }

  lemma InlineRunKeepsInv(s: State, t: Tid, cb: Cb)
    requires Inv(s) && (PcOf(s, t) == InlineRun(cb) || PcOf(s, t) == InlineRunning(cb))
    ensures Keeps(s, Advance(s, t, PcOf(s, t), false))
  {
    var s' := Advance(s, t, PcOf(s, t), false);
    assert ThreadOk(s, t);
    assert CbOk(s, cb);
    InlineRunTouches(s, t, cb);
    Conclude(s, s', t, cb);
  }

  lemma {:induction false} RemovedIsWithout(list: seq<Cb>, k: nat)
    requires Sequences.Distinct(list) && k < |list|
    ensures Removed(list, list[k]) == Without(list, k)
  {
    if k > 0 {
      assert Sequences.Differ(list, 0, k);
      forall i, j | 0 <= i < |list[1..]| && 0 <= j < |list[1..]| && i != j
        ensures Sequences.Differ(list[1..], i, j)
      {
        assert Sequences.Differ(list, i + 1, j + 1);
      }
      RemovedIsWithout(list[1..], k - 1);
      assert Without(list, k) == [list[0]] + Without(list[1..], k - 1);
    }
  }

  /** Unlinking a callback keeps the prev links of the other callbacks set. */
  lemma UnlinkOthers(l: Links, list: seq<Cb>, k: nat, c: Cb)
    requires WellFormed(l, list) && k < |list| && c != list[k]
    ensures PrevSlot(Unlink(l, list[k]), c) == NoSlot <==> PrevSlot(l, c) == NoSlot
  {
    assert NodeAt(l, list, k);
    assert k + 1 < |list| ==> NodeAt(l, list, k + 1);
  }

  lemma UnlinkTouches(s: State, t: Tid, cb: Cb, was: Word, k: nat)
    requires Inv(s) && PcOf(s, t) == RemoveLink(cb, was) && PrevSlot(s.links, cb) != NoSlot
    requires k < |s.list| && s.list[k] == cb && Removed(s.list, cb) == Without(s.list, k)
    ensures OnlyTouches(s, Advance(s, t, RemoveLink(cb, was), false), t, cb)
  {
    var s' := Advance(s, t, RemoveLink(cb, was), false);
    assert ThreadOk(s, t) && CbOk(s, cb);
    WithoutElements(s.list, k);
    forall c | c != cb
      ensures SameCb(s, s', c)
    {
      UnlinkOthers(s.links, s.list, k, c);
    }
  }

  lemma UnlinkKeepsInv(s: State, t: Tid, cb: Cb, was: Word)
    requires Inv(s) && PcOf(s, t) == RemoveLink(cb, was) && PrevSlot(s.links, cb) != NoSlot
    ensures Keeps(s, Advance(s, t, RemoveLink(cb, was), false))
  {
    var s' := Advance(s, t, RemoveLink(cb, was), false);
    assert ThreadOk(s, t);
    assert CbOk(s, cb);
    var k :| 0 <= k < |s.list| && s.list[k] == cb;
    RemovedIsWithout(s.list, k);
    WithoutElements(s.list, k);
    UnlinkOk(s.links, s.list, k);
    UnlinkTouches(s, t, cb, was, k);
    Conclude(s, s', t, cb);
  }

  lemma RemoveTakenKeepsInv(s: State, t: Tid, cb: Cb, was: Word)
    requires Inv(s) && PcOf(s, t) == RemoveLink(cb, was) && PrevSlot(s.links, cb) == NoSlot
    ensures Keeps(s, Advance(s, t, RemoveLink(cb, was), false))
  {
    assert ThreadOk(s, t);
    assert CbOk(s, cb);
    MoveKeepsInv(s, t, RemoveUnlock(cb, was, s.notify));
  }

  lemma RemoveUnlockTouches(s: State, t: Tid, cb: Cb, was: Word, wait: bool)
    requires PcOf(s, t) == RemoveUnlock(cb, was, wait) && ThreadOk(s, t)
    ensures OnlyTouches(s, Advance(s, t, RemoveUnlock(cb, was, wait), false), t, cb)
  {
  }

  lemma RemoveUnlockKeepsInv(s: State, t: Tid, cb: Cb, was: Word, wait: bool)
    requires Inv(s) && PcOf(s, t) == RemoveUnlock(cb, was, wait)
    ensures Keeps(s, Advance(s, t, RemoveUnlock(cb, was, wait), false))
  {
    var s' := Advance(s, t, RemoveUnlock(cb, was, wait), false);
    assert ThreadOk(s, t);
    assert CbOk(s, cb);
    if wait {
      CbFrame(s, s', t, cb);
    }
    RemoveUnlockTouches(s, t, cb, was, wait);
    Conclude(s, s', t, cb);
  }

  lemma RemoveWaitKeepsInv(s: State, t: Tid, cb: Cb)
    requires Inv(s) && PcOf(s, t) == RemoveWait(cb)
    ensures Keeps(s, Advance(s, t, RemoveWait(cb), false))
  {
    if cb in s.completed {
      var s' := Advance(s, t, RemoveWait(cb), false);
      assert ThreadOk(s, t);
      assert CbOk(s, cb);
      Conclude(s, s', t, cb);
    }
  }

  /** Every step of every thread keeps the invariant. */
  lemma StepKeepsInv(s: State, step: Step)
    requires Inv(s) && Enabled(s, step)
    ensures Keeps(s, Do(s, step))
  {
    match step {
      case RequestStop(t) => RequestKeepsInv(s, t);
      case Register(t, cb) => RegisterKeepsInv(s, t, cb);
      case Remove(t, cb) => RemoveKeepsInv(s, t, cb);
      case Continue(t, spurious) =>
        match PcOf(s, t) {
          case TryLock(goal, seen) => TryLockKeepsInv(s, t, goal, seen, spurious);
          case Lock(why, was) => LockKeepsInv(s, t, why, was, spurious);
          case NotifyHead =>
            match s.links.head {
              case None => NotifyEndsKeepsInv(s, t);
              case Some(cb) => TakeKeepsInv(s, t, cb);
            }
          case NotifyTaken(cb) => NotifyUnlockKeepsInv(s, t, cb);
          case NotifyRun(cb) => NotifyRunKeepsInv(s, t, cb);
          case NotifyRunning(cb) => NotifyRunKeepsInv(s, t, cb);
          case NotifyRan(cb) => NotifyRanKeepsInv(s, t, cb);
          case NotifyDone => NotifyDoneKeepsInv(s, t);
          case NotifyEnd => EndKeepsInv(s, t);
          case AddLink(cb) => AddKeepsInv(s, t, cb);
          case AddUnlock(cb) => AddUnlockKeepsInv(s, t, cb);
          case InlineRun(cb) => InlineRunKeepsInv(s, t, cb);
          case InlineRunning(cb) => InlineRunKeepsInv(s, t, cb);
          case RemoveLink(cb, was) =>
            if PrevSlot(s.links, cb) != NoSlot {
              UnlinkKeepsInv(s, t, cb, was);
            } else {
              RemoveTakenKeepsInv(s, t, cb, was);
            }
          case RemoveUnlock(cb, was, wait) => RemoveUnlockKeepsInv(s, t, cb, was, wait);
          case RemoveWait(cb) => RemoveWaitKeepsInv(s, t, cb);
        }
    }
  }

  // ----- runs -----

  ghost predicate StepOf(s: State, s': State) {
    exists step :: Enabled(s, step) && s' == Do(s, step)
  }

  ghost predicate StepAt(run: seq<State>, i: nat)
    requires i + 1 < |run|
  {
    StepOf(run[i], run[i + 1])
  }

  /** Any interleaving of any number of threads and callbacks. */
  ghost predicate Run(run: seq<State>) {
    |run| >= 1 && Init(run[0]) && forall i :: 0 <= i < |run| - 1 ==> StepAt(run, i)
  }

  lemma InitHolds(s: State)
    requires Init(s)
    ensures Inv(s)
  {
  }

  lemma StepAtKeepsInv(run: seq<State>, i: nat)
    requires Run(run) && i + 1 < |run| && Inv(run[i])
    ensures Keeps(run[i], run[i + 1])
  {
    assert StepAt(run, i);
    var step :| Enabled(run[i], step) && run[i + 1] == Do(run[i], step);
    StepKeepsInv(run[i], step);
  }

  lemma {:induction false} RunKeepsInv(run: seq<State>, i: nat)
    requires Run(run) && i < |run|
    ensures Inv(run[i])
  {
    if i == 0 {
      InitHolds(run[0]);
    } else {
      RunKeepsInv(run, i - 1);
      StepAtKeepsInv(run, i - 1);
    }
  }

  /** At most one thread holds the lock bit, and the bit is set exactly while one does.
      The callback list is well formed, and only the holder is at a place that edits it. */
  lemma MutualExclusion(run: seq<State>, i: nat, t: Tid, u: Tid)
    requires Run(run) && i < |run|
    ensures Holds(PcOf(run[i], t)) && Holds(PcOf(run[i], u)) ==> t == u
    ensures run[i].word.locked <==> exists h :: Holds(PcOf(run[i], h))
    ensures WellFormed(run[i].links, run[i].list)
  {
    var s := run[i];
    RunKeepsInv(run, i);
    assert ThreadOk(s, t) && ThreadOk(s, u);
    if s.word.locked {
      assert ThreadOk(s, s.owner.value);
    }
    forall h | Holds(PcOf(s, h))
      ensures s.word.locked
    {
      assert ThreadOk(s, h);
    }
  }

  /** At most one _M_request_stop ever wins: exactly one, once the stop bit is set. */
  lemma OneWinner(run: seq<State>, i: nat, t: Tid, u: Tid)
    requires Run(run) && i < |run|
    ensures run[i].wins == if run[i].word.stop then 1 else 0
    ensures Notifies(PcOf(run[i], t)) && Notifies(PcOf(run[i], u)) ==> t == u
  {
    RunKeepsInv(run, i);
    assert ThreadOk(run[i], t) && ThreadOk(run[i], u);
  }

  // ----- what _M_request_stop returns -----

  /** A call that has returned says whether the stop had been requested before: false if and only if it won. */
  ghost predicate AnswerOk(s: State, t: Tid) {
    && (Notifies(PcOf(s, t)) ==> t in s.winning)
    && (PcOf(s, t).TryLock? && PcOf(s, t).goal.ToStop? ==> t !in s.winning)
    && (t in s.winning ==> s.winner == Some(t))
    && (t in s.answers ==> s.word.stop && s.answers[t] == (t !in s.winning))
  }

  lemma WinAnswers(s: State, t: Tid, u: Tid)
    requires Inv(s) && PcOf(s, t).TryLock? && PcOf(s, t).goal.ToStop? && s.word == NONE && AnswerOk(s, u)
    ensures AnswerOk(Won(s, t), u)
  {
  }

  lemma TryLockAnswers(s: State, t: Tid, goal: TryGoal, seen: Word, spurious: bool, u: Tid)
    requires Inv(s) && PcOf(s, t) == TryLock(goal, seen) && AnswerOk(s, t) && AnswerOk(s, u)
    ensures AnswerOk(DoTryLock(s, t, goal, seen, spurious), u)
  {
    assert ThreadOk(s, t);
    if goal.ToStop? && !seen.stop && seen == NONE && s.word == NONE && !spurious {
      WinAnswers(s, t, u);
    }
  }

  /** What a step leaves alone that moves t to pc and neither begins nor decides nor ends a call. */
  ghost predicate SameCall(s: State, s': State, t: Tid, pc: Pc) {
    && s'.winning == s.winning && s'.answers == s.answers && s'.winner == s.winner
    && s'.threads == s.threads[t := pc] && (Notifies(pc) ==> Notifies(PcOf(s, t))) && !pc.TryLock?
  }

  lemma LockSameCall(s: State, t: Tid, why: LockGoal, was: Word, spurious: bool) returns (pc: Pc)
    requires PcOf(s, t) == Lock(why, was)
    ensures SameCall(s, DoLock(s, t, why, was, spurious), t, pc)
  {
    if !was.locked && s.word == was && !spurious {
      pc := if why.ToNotify? then NotifyHead else RemoveLink(why.cb, was);
    } else {
      pc := Lock(why, s.word);
    }
  }

  lemma TakeSameCall(s: State, t: Tid, spurious: bool) returns (pc: Pc)
    requires PcOf(s, t).NotifyHead? || PcOf(s, t).NotifyTaken?
    ensures SameCall(s, Advance(s, t, PcOf(s, t), spurious), t, pc)
  {
    match PcOf(s, t) {
      case NotifyHead => pc := if s.links.head == None then NotifyEnd else NotifyTaken(s.links.head.value);
      case NotifyTaken(cb) => pc := NotifyRun(cb);
    }
  }

  lemma ExecuteSameCall(s: State, t: Tid, spurious: bool) returns (pc: Pc)
    requires PcOf(s, t).NotifyRun? || PcOf(s, t).NotifyRunning?
    ensures SameCall(s, Advance(s, t, PcOf(s, t), spurious), t, pc)
  {
    match PcOf(s, t) {
      case NotifyRun(cb) => pc := NotifyRunning(cb);
      case NotifyRunning(cb) => pc := NotifyRan(cb);
    }
  }

  lemma CompleteSameCall(s: State, t: Tid, spurious: bool) returns (pc: Pc)
    requires PcOf(s, t).NotifyRan? || PcOf(s, t).NotifyDone?
    ensures SameCall(s, Advance(s, t, PcOf(s, t), spurious), t, pc)
  {
    match PcOf(s, t) {
      case NotifyRan(cb) => pc := NotifyDone;
      case NotifyDone => pc := Lock(ToNotify, s.word);
    }
  }

  lemma AddSameCall(s: State, t: Tid, spurious: bool) returns (pc: Pc)
    requires PcOf(s, t).AddLink? || PcOf(s, t).AddUnlock?
    ensures SameCall(s, Advance(s, t, PcOf(s, t), spurious), t, pc)
  {
    match PcOf(s, t) {
      case AddLink(cb) => pc := AddUnlock(cb);
      case AddUnlock(cb) => pc := Idle;
    }
  }

  lemma InlineSameCall(s: State, t: Tid, spurious: bool) returns (pc: Pc)
    requires PcOf(s, t).InlineRun? || PcOf(s, t).InlineRunning?
    ensures SameCall(s, Advance(s, t, PcOf(s, t), spurious), t, pc)
  {
    match PcOf(s, t) {
      case InlineRun(cb) => pc := InlineRunning(cb);
      case InlineRunning(cb) => pc := Idle;
    }
  }

  lemma UnlinkSameCall(s: State, t: Tid, spurious: bool) returns (pc: Pc)
    requires PcOf(s, t).RemoveLink?
    ensures SameCall(s, Advance(s, t, PcOf(s, t), spurious), t, pc)
  {
    match PcOf(s, t) {
      case RemoveLink(cb, was) => pc := RemoveUnlock(cb, was, PrevSlot(s.links, cb) == NoSlot && s.notify);
    }
  }

  lemma RemoveSameCall(s: State, t: Tid, spurious: bool) returns (pc: Pc)
    requires PcOf(s, t).RemoveUnlock?
    ensures SameCall(s, Advance(s, t, PcOf(s, t), spurious), t, pc)
  {
    var RemoveUnlock(cb, was, wait) := PcOf(s, t);
    pc := if wait then RemoveWait(cb) else Idle;
    UnlockSameCall(s, t, cb, was, wait, pc);
  }

  lemma UnlockSameCall(s: State, t: Tid, cb: Cb, was: Word, wait: bool, pc: Pc)
    requires PcOf(s, t) == RemoveUnlock(cb, was, wait) && pc == if wait then RemoveWait(cb) else Idle
    ensures SameCall(s, Advance(s, t, RemoveUnlock(cb, was, wait), false), t, pc)
  {
    var s' := Advance(s, t, RemoveUnlock(cb, was, wait), false);
    if wait {
      assert s'.threads == s.threads[t := RemoveWait(cb)];
    } else {
      assert s'.threads == s.threads[t := Idle];
    }
  }

  lemma WaitSameCall(s: State, t: Tid, spurious: bool) returns (pc: Pc)
    requires PcOf(s, t).RemoveWait?
    ensures SameCall(s, Advance(s, t, PcOf(s, t), spurious), t, pc)
  {
    var cb := PcOf(s, t).cb;
    pc := if cb in s.completed then Idle else RemoveWait(cb);
    assert s.threads[t := RemoveWait(cb)] == s.threads;
  }

  lemma AdvanceSameCall(s: State, t: Tid, spurious: bool) returns (pc: Pc)
    requires !PcOf(s, t).Idle? && !PcOf(s, t).TryLock? && !PcOf(s, t).NotifyEnd?
    ensures SameCall(s, Advance(s, t, PcOf(s, t), spurious), t, pc)
  {
    match PcOf(s, t) {
      case Lock(why, was) => pc := LockSameCall(s, t, why, was, spurious);
      case NotifyHead => pc := TakeSameCall(s, t, spurious);
      case NotifyTaken(_) => pc := TakeSameCall(s, t, spurious);
      case NotifyRun(_) => pc := ExecuteSameCall(s, t, spurious);
      case NotifyRunning(_) => pc := ExecuteSameCall(s, t, spurious);
      case NotifyRan(_) => pc := CompleteSameCall(s, t, spurious);
      case NotifyDone => pc := CompleteSameCall(s, t, spurious);
      case AddLink(_) => pc := AddSameCall(s, t, spurious);
      case AddUnlock(_) => pc := AddSameCall(s, t, spurious);
      case InlineRun(_) => pc := InlineSameCall(s, t, spurious);
      case InlineRunning(_) => pc := InlineSameCall(s, t, spurious);
      case RemoveLink(_, _) => pc := UnlinkSameCall(s, t, spurious);
      case RemoveUnlock(_, _, _) => pc := RemoveSameCall(s, t, spurious);
      case RemoveWait(_) => pc := WaitSameCall(s, t, spurious);
    }
  }

  lemma SameCallAnswers(s: State, s': State, t: Tid, pc: Pc, u: Tid)
    requires SameCall(s, s', t, pc) && (s.word.stop ==> s'.word.stop) && AnswerOk(s, t) && AnswerOk(s, u)
    ensures AnswerOk(s', u)
  {
  }

  /** The steps that neither begin nor decide nor end a call. */
  lemma OthersAnswer(s: State, t: Tid, spurious: bool, u: Tid)
    requires Inv(s) && !PcOf(s, t).Idle? && !PcOf(s, t).TryLock? && !PcOf(s, t).NotifyEnd?
    requires AnswerOk(s, t) && AnswerOk(s, u)
    ensures AnswerOk(Advance(s, t, PcOf(s, t), spurious), u)
  {
    StepKeepsInv(s, Continue(t, spurious));
    var pc := AdvanceSameCall(s, t, spurious);
    SameCallAnswers(s, Advance(s, t, PcOf(s, t), spurious), t, pc, u);
  }

  lemma EndAnswers(s: State, t: Tid, u: Tid)
    requires PcOf(s, t).NotifyEnd? && AnswerOk(s, t) && AnswerOk(s, u)
    ensures AnswerOk(Advance(s, t, NotifyEnd, false), u)
  {
  }

  lemma CallsAnswer(s: State, step: Step, u: Tid)
    requires Enabled(s, step) && !step.Continue? && AnswerOk(s, u)
    ensures AnswerOk(Do(s, step), u)
  {
  }

  lemma StepAnswers(s: State, step: Step, u: Tid)
    requires Inv(s) && Enabled(s, step) && AnswerOk(s, u) && AnswerOk(s, step.t)
    ensures AnswerOk(Do(s, step), u)
  {
    match step {
      case RequestStop(t) => CallsAnswer(s, step, u);
      case Register(t, cb) => CallsAnswer(s, step, u);
      case Remove(t, cb) => CallsAnswer(s, step, u);
      case Continue(t, spurious) =>
        match PcOf(s, t) {
          case TryLock(goal, seen) => TryLockAnswers(s, t, goal, seen, spurious, u);
          case NotifyEnd => EndAnswers(s, t, u);
          case _ => OthersAnswer(s, t, spurious, u);
        }
    }
  }

  lemma StepAtAnswers(run: seq<State>, i: nat, u: Tid)
    requires Run(run) && i + 1 < |run| && Inv(run[i]) && forall t :: AnswerOk(run[i], t)
    ensures AnswerOk(run[i + 1], u)
  {
    assert StepAt(run, i);
    var step :| Enabled(run[i], step) && run[i + 1] == Do(run[i], step);
    StepAnswers(run[i], step, u);
  }

  lemma {:induction false} RunAnswers(run: seq<State>, i: nat)
    requires Run(run) && i < |run|
    ensures forall t :: AnswerOk(run[i], t)
  {
    if i > 0 {
      RunKeepsInv(run, i - 1);
      RunAnswers(run, i - 1);
      forall t
        ensures AnswerOk(run[i], t)
      {
        StepAtAnswers(run, i - 1, t);
      }
    }
  }

  /** A returned _M_request_stop returned false if and only if it won, which at most one call ever does; whatever it
      returned, the stop is requested. */
  lemma RequestStopAnswers(run: seq<State>, i: nat, t: Tid)
    requires Run(run) && i < |run| && t in run[i].answers
    ensures run[i].answers[t] == (t !in run[i].winning) && run[i].word.stop && run[i].wins == 1
    ensures !run[i].answers[t] ==> run[i].winner == Some(t)
  {
    RunAnswers(run, i);
    assert AnswerOk(run[i], t);
    RunKeepsInv(run, i);
  }

  /** No callback runs twice, one that has returned has run once. */
  lemma RunsAtMostOnce(run: seq<State>, i: nat, cb: Cb)
    requires Run(run) && i < |run|
    ensures Runs(run[i], cb) <= 1
    ensures cb in run[i].finished ==> Runs(run[i], cb) == 1
  {
    RunKeepsInv(run, i);
    assert CbOk(run[i], cb);
  }

  lemma RunStep(run: seq<State>, i: nat)
    requires Run(run) && i + 1 < |run|
    ensures Later(run[i], run[i + 1])
  {
    RunKeepsInv(run, i);
    StepAtKeepsInv(run, i);
  }

  lemma {:induction false} RunGoesOn(run: seq<State>, i: nat, j: nat)
    requires Run(run) && i <= j < |run|
    ensures Later(run[i], run[j])
    decreases j - i
  {
    if i < j {
      RunGoesOn(run, i, j - 1);
      RunStep(run, j - 1);
      forall cb
        ensures LaterOf(run[i], run[j], cb)
      {
        assert LaterOf(run[i], run[j - 1], cb);
        assert LaterOf(run[j - 1], run[j], cb);
      }
    }
  }

  /** The handshake: once _M_remove_callback has returned, the callback has finished or never began,
      it never begins afterwards, and nobody touches it any more. */
  lemma RemovedIsQuiet(run: seq<State>, i: nat, j: nat, cb: Cb)
    requires Run(run) && i <= j < |run| && cb in run[i].removed
    ensures Runs(run[j], cb) == Runs(run[i], cb)
    ensures cb in run[i].finished || Runs(run[j], cb) == 0
    ensures Untouched(run[j], cb)
  {
    RunGoesOn(run, i, j);
    RunKeepsInv(run, i);
    RunKeepsInv(run, j);
    var s := run[j];
    assert LaterOf(run[i], s, cb);
    assert CbOk(run[i], cb) && CbOk(s, cb);
    forall t | t in s.threads
      ensures !NotifiesFor(s.threads[t], cb) && !RegistersFor(s.threads[t], cb) && !RemovesFor(s.threads[t], cb)
    {
      assert ThreadOk(s, t);
      assert PcOf(s, t) == s.threads[t];
      Roles(s, t, cb);
    }
  }

  /** A callback whose registration begins after the stop is never listed; when its registration
      returns it has run exactly once, inline. */
  lemma RegisteredAfterStop(run: seq<State>, i: nat, j: nat, cb: Cb)
    requires Run(run) && i <= j < |run| && run[i].word.stop && StageOf(run[i], cb).Fresh?
    ensures cb !in run[j].list
    ensures cb in run[j].registered ==> Runs(run[j], cb) == 1 && cb in run[j].finished
  {
    RunGoesOn(run, i, j);
    RunKeepsInv(run, j);
    assert LaterOf(run[i], run[j], cb);
    assert CbOk(run[j], cb);
  }

  /** Once the winner has returned, the list is empty for good, and every callback whose
      registration has returned was removed before it ran or has run to its end. */
  lemma EmptyForGood(run: seq<State>, i: nat, j: nat, cb: Cb)
    requires Run(run) && i <= j < |run| && run[i].winnerDone
    ensures run[j].list == [] && run[j].links.head == None
    ensures cb in run[j].registered ==>
      (StageOf(run[j], cb).Unlinked? && Runs(run[j], cb) == 0) || (cb in run[j].finished && Runs(run[j], cb) == 1)
  {
    RunGoesOn(run, i, j);
    RunKeepsInv(run, j);
    var s := run[j];
    assert CbOk(s, cb);
    if StageOf(s, cb).Taken? && cb !in s.completed {
      assert ThreadOk(s, s.winner.value);
    }
  }
}

/** Runs of any number of threads over one stock of blocks: acquiring and releasing spans, a span released by any
    thread, with the shared source as a set of free blocks that gives out batches. */
module BlockRuns {
  import opened Options
  import opened BlockMemory
  import opened Sequences

  type Tid = nat

  /** Where a block is: free in a thread's list or in the shared source, a thread's current one, or neither. */
  datatype Place = Queued(t: Tid) | Current(t: Tid) | Spent | Shared

  datatype State = State(
    locals: map<Tid, Local>,         // absent: as created
    uses: map<Block, int>,
    remote: set<Block>,
    // history
    live: set<Span>,
    place: map<Block, Place>)        // every block there is

  function LocalOf(s: State, t: Tid): Local {
    if t in s.locals then s.locals[t] else Created()
  }

  ghost predicate Init(s: State) {
    s.locals == map[] && s.uses == map[] && s.remote == {} && s.live == {} && s.place == map[]
  }

  /** The parts of an acquisition are steps of their own: others may come in between. */
  datatype Step =
    | Drop(t: Tid, n: nat)
    | Refill(t: Tid, batch: seq<Block>)
    | Take(t: Tid)
    | Carve(t: Tid, n: nat)
    | Release(t: Tid, span: Span)
    | Grow(blocks: set<Block>)

  ghost predicate Enabled(s: State, step: Step) {
    match step
    case Drop(t, n) => LocalOf(s, t).consume.Some? && 1 <= n <= BLOCK_SIZE && BLOCK_SIZE - LocalOf(s, t).bump < n
    case Refill(t, batch) =>
      && LocalOf(s, t).consume == None && LocalOf(s, t).queue == []
      && |batch| == T && Distinct(batch) && forall b :: b in batch ==> b in s.remote
    case Take(t) => LocalOf(s, t).consume == None && LocalOf(s, t).queue != []
    case Carve(t, n) => LocalOf(s, t).consume.Some? && 1 <= n <= BLOCK_SIZE - LocalOf(s, t).bump
    case Release(_, span) => span in s.live
    case Grow(blocks) => forall b :: b in blocks ==> b !in s.place
  }

  function WithLocal(s: State, t: Tid, l: Local): State {
    s.(locals := s.locals[t := l])
  }

  ghost function Do(s: State, step: Step): State
    requires Enabled(s, step)
  {
    match step
    case Drop(t, _) =>
      var b := LocalOf(s, t).consume.value;
      After(s, t, Dropped(LocalOf(s, t), s.uses), b, if Uses(s.uses, b) == 1 then Freed(LocalOf(s, t), t) else Spent)
    case Refill(t, batch) =>
      WithLocal(s, t, Refilled(LocalOf(s, t), batch)).(
        remote := s.remote - Elements(batch),
        place := map b | b in s.place :: if b in batch then Queued(t) else s.place[b])
    case Take(t) => After(s, t, Taken(LocalOf(s, t), s.uses), LocalOf(s, t).queue[0], Current(t))
    case Carve(t, n) =>
      var (e, span) := Carved(LocalOf(s, t), s.uses, n);
      WithLocal(s, t, e.local).(uses := e.uses, live := s.live + {span})
    case Release(t, span) =>
      var b := span.source;
      After(s, t, Released(LocalOf(s, t), s.uses, b), b,
            if Uses(s.uses, b) == 1 then Freed(LocalOf(s, t), t) else PlaceOf(s, b)).(live := s.live - {span})
    case Grow(blocks) =>
      s.(remote := s.remote + blocks,
         place := map b | b in s.place.Keys + blocks :: if b in blocks then Shared else s.place[b])
  }

  function PlaceOf(s: State, b: Block): Place {
    if b in s.place then s.place[b] else Spent
  }

  function Freed(l: Local, t: Tid): Place {
    if l.count < T then Queued(t) else Shared
  }

  function After(s: State, t: Tid, e: Effect, b: Block, place: Place): State {
    s.(locals := s.locals[t := e.local], uses := e.uses,
       remote := if e.handed.Some? then s.remote + {e.handed.value} else s.remote,
       place := s.place[b := place])
  }

  // ----- the invariant -----

  function SpansOf(live: set<Span>, b: Block): set<Span> {
    set span | span in live && span.source == b
  }

  ghost predicate LocalOk(s: State, t: Tid) {
    var l := LocalOf(s, t);
    && Distinct(l.queue) && l.count == |l.queue| <= T && l.bump <= BLOCK_SIZE
    && (forall b :: b in l.queue ==> b in s.place)
    && (if l.consume.Some? then l.consume.value in s.place else l.bump == BLOCK_SIZE)
  }

  ghost predicate BlockOk(s: State, b: Block) {
    && (b in s.remote <==> b in s.place && s.place[b] == Shared)
    && (b !in s.place ==> Uses(s.uses, b) == 0)
    && (b in s.place ==>
      && Uses(s.uses, b) == |SpansOf(s.live, b)| + (if s.place[b].Current? then 1 else 0)
      && (s.place[b].Queued? || s.place[b].Shared? ==> SpansOf(s.live, b) == {})
      && (s.place[b].Spent? ==> SpansOf(s.live, b) != {}))
  }

  ghost predicate PlaceOk(s: State, b: Block, t: Tid) {
    b in s.place ==>
      && (s.place[b] == Queued(t) <==> b in LocalOf(s, t).queue)
      && (s.place[b] == Current(t) <==> LocalOf(s, t).consume == Some(b))
  }

  /** A live span lies in its block, and before the point from which its thread cuts the next one. */
  ghost predicate SpanOk(s: State, span: Span) {
    && span.source in s.place && span.len >= 1
    && (match s.place[span.source]
        case Current(t) => span.offset + span.len <= LocalOf(s, t).bump <= BLOCK_SIZE
        case Spent => span.offset + span.len <= BLOCK_SIZE
        case _ => false)
  }

  predicate Disjoint(a: Span, b: Span) {
    a.source != b.source || a.offset + a.len <= b.offset || b.offset + b.len <= a.offset
  }

  ghost predicate Inv(s: State) {
    && (forall t :: LocalOk(s, t))
    && (forall b :: BlockOk(s, b))
    && (forall b, t :: PlaceOk(s, b, t))
    && (forall span :: span in s.live ==> SpanOk(s, span))
    && (forall a, b :: a in s.live && b in s.live && a != b ==> Disjoint(a, b))
  }

  // ----- every step keeps the invariant -----

  /** A step of thread t that changes at most the place of block b: what is left to prove. */
  ghost predicate Touches(s: State, s': State, t: Tid, b: Block) {
    && b in s.place && s'.place.Keys == s.place.Keys
    && (forall c :: c in s.place && c != b ==> s'.place[c] == s.place[c])
    && (forall u :: u != t ==> LocalOf(s', u) == LocalOf(s, u))
    && (forall c :: c != b ==> Uses(s'.uses, c) == Uses(s.uses, c) && (c in s'.remote <==> c in s.remote))
    && (forall c :: c != b ==> (c in LocalOf(s', t).queue <==> c in LocalOf(s, t).queue))
    && (forall c :: c != b ==> (LocalOf(s', t).consume == Some(c) <==> LocalOf(s, t).consume == Some(c)))
  }

  lemma TouchesKeepsOthers(s: State, s': State, t: Tid, b: Block)
    requires Inv(s) && Touches(s, s', t, b)
    ensures forall u :: u != t ==> LocalOk(s', u)
    ensures forall c, u :: c != b ==> PlaceOk(s', c, u)
    ensures forall c :: c != b && SpansOf(s'.live, c) == SpansOf(s.live, c) ==> BlockOk(s', c)
  {
    forall u | u != t
      ensures LocalOk(s', u)
    {
      assert LocalOk(s, u);
    }
    forall c, u | c != b
      ensures PlaceOk(s', c, u)
    {
      assert PlaceOk(s, c, u);
    }
    forall c | c != b && SpansOf(s'.live, c) == SpansOf(s.live, c)
      ensures BlockOk(s', c)
    {
      assert BlockOk(s, c);
    }
  }

  /** Of the block itself, only its new place has to be checked against the threads. */
  lemma PlaceMoved(s: State, s': State, t: Tid, b: Block)
    requires Inv(s) && Touches(s, s', t, b)
    requires s.place[b] == Queued(t) || s.place[b] == Current(t) || s.place[b].Spent? || s.place[b].Shared?
    requires s'.place[b] == Queued(t) || s'.place[b] == Current(t) || s'.place[b].Spent? || s'.place[b].Shared?
    requires PlaceOk(s', b, t)
    ensures forall u :: PlaceOk(s', b, u)
  {
    forall u
      ensures PlaceOk(s', b, u)
    {
      assert PlaceOk(s, b, u);
    }
  }

  lemma DistinctRest(s: seq<Block>)
    requires Distinct(s) && s != []
    ensures Distinct(s[1..]) && s[0] !in s[1..] && forall b :: b != s[0] ==> (b in s[1..] <==> b in s)
  {
    var r := s[1..];
    forall i, j | 0 <= i < |r| && 0 <= j < |r| && i != j
      ensures Differ(r, i, j)
    {
      assert Differ(s, i + 1, j + 1);
    }
    forall i | 0 <= i < |r|
      ensures r[i] != s[0]
    {
      assert Differ(s, 0, i + 1);
    }
    assert s == [s[0]] + r;
  }

  /** A block that lost its last use goes where the free blocks are. */
  lemma KeepLocal(s: State, t: Tid, e: Effect, b: Block)
    requires LocalOk(s, t) && b in s.place && PlaceOk(s, b, t) && !s.place[b].Queued? && e.handed == None
    requires e.local.queue == LocalOf(s, t).queue && e.local.count == LocalOf(s, t).count
    ensures
      var l := Kept(e, b).local;
      && Distinct(l.queue) && l.count == |l.queue| <= T
      && (forall c :: c in l.queue ==> c in s.place)
      && (b in l.queue <==> Freed(LocalOf(s, t), t) == Queued(t))
      && forall c :: c != b ==> (c in l.queue <==> c in LocalOf(s, t).queue)
  {
    if e.local.count < T {
      DistinctJoined([b], e.local.queue);
    }
  }

  lemma DropTouches(s: State, t: Tid, n: nat)
    requires Inv(s) && Enabled(s, Drop(t, n))
    ensures
      var b := LocalOf(s, t).consume.value;
      && Touches(s, Do(s, Drop(t, n)), t, b) && s.place[b] == Current(t)
      && LocalOk(Do(s, Drop(t, n)), t) && PlaceOk(Do(s, Drop(t, n)), b, t)
  {
    var l := LocalOf(s, t);
    var b := l.consume.value;
    assert LocalOk(s, t) && PlaceOk(s, b, t) && BlockOk(s, b);
    KeepLocal(s, t, Effect(l.(consume := None, bump := BLOCK_SIZE), s.uses[b := Uses(s.uses, b) - 1], None), b);
  }

  lemma DropKeepsInv(s: State, t: Tid, n: nat)
    requires Inv(s) && Enabled(s, Drop(t, n))
    ensures Inv(Do(s, Drop(t, n)))
  {
    var s' := Do(s, Drop(t, n));
    var b := LocalOf(s, t).consume.value;
    DropTouches(s, t, n);
    TouchesKeepsOthers(s, s', t, b);
    PlaceMoved(s, s', t, b);
    assert BlockOk(s, b) && BlockOk(s', b);
    SpansKept(s, s', t, b);
  }

  /** Spans of other blocks are as before; those of the block itself are safe while it is not cut further. */
  lemma SpansKept(s: State, s': State, t: Tid, b: Block)
    requires Inv(s) && Touches(s, s', t, b) && s'.live <= s.live
    requires s.place[b].Current? || s.place[b].Spent?
    requires s'.place[b].Spent? || s'.place[b] == s.place[b] || SpansOf(s'.live, b) == {}
    requires LocalOf(s', t).bump == LocalOf(s, t).bump ||
      (LocalOf(s, t).consume == Some(b) && s'.place[b] != Current(t))
    ensures forall span :: span in s'.live ==> SpanOk(s', span)
  {
    forall span | span in s'.live
      ensures SpanOk(s', span)
    {
      assert SpanOk(s, span);
      assert PlaceOk(s, span.source, t);
      assert span in SpansOf(s'.live, span.source);
      if span.source == b {
        assert LocalOk(s, t);
      }
    }
  }

  lemma ReleasedSpans(live: set<Span>, span: Span, b: Block)
    requires span in live
    ensures SpansOf(live - {span}, b) == SpansOf(live, b) - {span}
    ensures b != span.source ==> SpansOf(live - {span}, b) == SpansOf(live, b)
    ensures |SpansOf(live - {span}, b)| == |SpansOf(live, b)| - if b == span.source then 1 else 0
  {
    assert SpansOf(live - {span}, b) == SpansOf(live, b) - {span};
  }

  lemma ReleaseTouches(s: State, t: Tid, span: Span)
    requires Inv(s) && Enabled(s, Release(t, span))
    ensures Touches(s, Do(s, Release(t, span)), t, span.source)
    ensures LocalOk(Do(s, Release(t, span)), t) && PlaceOk(Do(s, Release(t, span)), span.source, t)
  {
    var l := LocalOf(s, t);
    var b := span.source;
    assert SpanOk(s, span) && LocalOk(s, t) && PlaceOk(s, b, t) && BlockOk(s, b);
    assert span in SpansOf(s.live, b);
    KeepLocal(s, t, Effect(l, s.uses[b := Uses(s.uses, b) - 1], None), b);
  }

  /** The last use of a block is never that of a thread which still cuts spans from it. */
  lemma LastUse(s: State, span: Span)
    requires Inv(s) && span in s.live && Uses(s.uses, span.source) == 1
    ensures span.source in s.place && s.place[span.source].Spent? && SpansOf(s.live - {span}, span.source) == {}
  {
    var b := span.source;
    assert SpanOk(s, span) && BlockOk(s, b);
    assert span in SpansOf(s.live, b);
    ReleasedSpans(s.live, span, b);
  }

  lemma ReleaseKeepsBlock(s: State, t: Tid, span: Span)
    requires Inv(s) && Enabled(s, Release(t, span))
    ensures BlockOk(Do(s, Release(t, span)), span.source)
  {
    var b := span.source;
    assert SpanOk(s, span) && BlockOk(s, b);
    assert span in SpansOf(s.live, b);
    ReleasedSpans(s.live, span, b);
    if Uses(s.uses, b) == 1 {
      LastUse(s, span);
    }
  }

  lemma ReleaseKeepsInv(s: State, t: Tid, span: Span)
    requires Inv(s) && Enabled(s, Release(t, span))
    ensures Inv(Do(s, Release(t, span)))
  {
    var s' := Do(s, Release(t, span));
    var b := span.source;
    assert SpanOk(s, span);
    ReleaseTouches(s, t, span);
    TouchesKeepsOthers(s, s', t, b);
    ReleaseKeepsBlock(s, t, span);
    forall c | c != b
      ensures BlockOk(s', c)
    {
      ReleasedSpans(s.live, span, c);
    }
    if Uses(s.uses, b) == 1 {
      LastUse(s, span);
      PlaceMoved(s, s', t, b);
    } else {
      assert s'.place[b] == s.place[b];
      forall u
        ensures PlaceOk(s', b, u)
      {
        assert PlaceOk(s, b, u);
      }
    }
    SpansKept(s, s', t, b);
  }

  lemma TakeTouches(s: State, t: Tid)
    requires Inv(s) && Enabled(s, Take(t))
    ensures Touches(s, Do(s, Take(t)), t, LocalOf(s, t).queue[0])
    ensures LocalOk(Do(s, Take(t)), t) && PlaceOk(Do(s, Take(t)), LocalOf(s, t).queue[0], t)
    ensures s.place[LocalOf(s, t).queue[0]] == Queued(t)
  {
    var l := LocalOf(s, t);
    var b := l.queue[0];
    assert LocalOk(s, t) && PlaceOk(s, b, t);
    DistinctRest(l.queue);
  }

  lemma TakeKeepsInv(s: State, t: Tid)
    requires Inv(s) && Enabled(s, Take(t))
    ensures Inv(Do(s, Take(t)))
  {
    var s' := Do(s, Take(t));
    var b := LocalOf(s, t).queue[0];
    TakeTouches(s, t);
    TouchesKeepsOthers(s, s', t, b);
    PlaceMoved(s, s', t, b);
    assert BlockOk(s, b) && BlockOk(s', b);
    forall span | span in s.live
      ensures SpanOk(s', span)
    {
      assert SpanOk(s, span) && PlaceOk(s, span.source, t);
      assert span in SpansOf(s.live, span.source);
    }
  }

  lemma CarvedSpans(live: set<Span>, span: Span, b: Block)
    requires span !in live
    ensures SpansOf(live + {span}, b) == if b == span.source then SpansOf(live, b) + {span} else SpansOf(live, b)
    ensures |SpansOf(live + {span}, b)| == |SpansOf(live, b)| + if b == span.source then 1 else 0
  {
    assert SpansOf(live + {span}, b) == if b == span.source then SpansOf(live, b) + {span} else SpansOf(live, b);
  }

  /** A span cut off at the bump lies behind every other span of its block. */
  lemma CarvedDisjoint(s: State, t: Tid, n: nat, other: Span)
    requires Inv(s) && Enabled(s, Carve(t, n)) && other in s.live
    ensures
      var span := Carved(LocalOf(s, t), s.uses, n).1;
      Disjoint(span, other) && Disjoint(other, span) && span != other
  {
    assert SpanOk(s, other) && PlaceOk(s, other.source, t);
  }

  lemma CarveKeepsBlock(s: State, t: Tid, n: nat, b: Block)
    requires Inv(s) && Enabled(s, Carve(t, n))
    ensures BlockOk(Do(s, Carve(t, n)), b)
  {
    var span := Carved(LocalOf(s, t), s.uses, n).1;
    if span in s.live {
      CarvedDisjoint(s, t, n, span);
    }
    assert LocalOk(s, t) && BlockOk(s, b) && PlaceOk(s, span.source, t);
    CarvedSpans(s.live, span, b);
  }

  lemma CarveKeepsInv(s: State, t: Tid, n: nat)
    requires Inv(s) && Enabled(s, Carve(t, n))
    ensures Inv(Do(s, Carve(t, n)))
  {
    var s' := Do(s, Carve(t, n));
    var span := Carved(LocalOf(s, t), s.uses, n).1;
    assert LocalOk(s, t) && PlaceOk(s, span.source, t);
    forall u
      ensures LocalOk(s', u)
    {
      assert LocalOk(s, u);
    }
    forall b
      ensures BlockOk(s', b)
    {
      CarveKeepsBlock(s, t, n, b);
    }
    forall b, u
      ensures PlaceOk(s', b, u)
    {
      assert PlaceOk(s, b, u);
    }
    forall other | other in s.live
      ensures SpanOk(s', other) && Disjoint(span, other) && Disjoint(other, span)
    {
      assert SpanOk(s, other);
      CarvedDisjoint(s, t, n, other);
    }
  }

  lemma RefillKeepsInv(s: State, t: Tid, batch: seq<Block>)
    requires Inv(s) && Enabled(s, Refill(t, batch))
    ensures Inv(Do(s, Refill(t, batch)))
  {
    var s' := Do(s, Refill(t, batch));
    assert batch + [] == batch;
    forall u
      ensures LocalOk(s', u)
    {
      assert LocalOk(s, u);
      assert forall b :: b in batch ==> BlockOk(s, b);
    }
    forall b
      ensures BlockOk(s', b)
    {
      assert BlockOk(s, b);
    }
    forall b, u
      ensures PlaceOk(s', b, u)
    {
      assert PlaceOk(s, b, u) && BlockOk(s, b);
    }
    forall span | span in s.live
      ensures SpanOk(s', span)
    {
      assert SpanOk(s, span) && BlockOk(s, span.source);
    }
  }

  lemma GrowKeepsInv(s: State, blocks: set<Block>)
    requires Inv(s) && Enabled(s, Grow(blocks))
    ensures Inv(Do(s, Grow(blocks)))
  {
    var s' := Do(s, Grow(blocks));
    forall u
      ensures LocalOk(s', u)
    {
      assert LocalOk(s, u);
    }
    forall b
      ensures BlockOk(s', b)
    {
      assert BlockOk(s, b);
      assert b !in s.place ==> forall span :: span in s.live ==> SpanOk(s, span) && span.source != b;
      assert b !in s.place ==> SpansOf(s.live, b) == {};
    }
    forall b, u
      ensures PlaceOk(s', b, u)
    {
      assert PlaceOk(s, b, u) && LocalOk(s, u);
    }
    forall span | span in s.live
      ensures SpanOk(s', span)
    {
      assert SpanOk(s, span);
    }
  }

  /** Every step of every thread keeps the invariant. */
  lemma StepKeepsInv(s: State, step: Step)
    requires Inv(s) && Enabled(s, step)
    ensures Inv(Do(s, step))
  {
    match step {
      case Drop(t, n) => DropKeepsInv(s, t, n);
      case Refill(t, batch) => RefillKeepsInv(s, t, batch);
      case Take(t) => TakeKeepsInv(s, t);
      case Carve(t, n) => CarveKeepsInv(s, t, n);
      case Release(t, span) => ReleaseKeepsInv(s, t, span);
      case Grow(blocks) => GrowKeepsInv(s, blocks);
    }
  }

  // ----- runs -----

  ghost predicate StepAt(run: seq<State>, i: nat)
    requires i + 1 < |run|
  {
    exists step :: Enabled(run[i], step) && run[i + 1] == Do(run[i], step)
  }

  /** Any interleaving of the steps of any number of threads. */
  ghost predicate Run(run: seq<State>) {
    |run| >= 1 && Init(run[0]) && forall i :: 0 <= i < |run| - 1 ==> StepAt(run, i)
  }

  lemma {:induction false} RunKeepsInv(run: seq<State>, i: nat)
    requires Run(run) && i < |run|
    ensures Inv(run[i])
  {
    if i > 0 {
      RunKeepsInv(run, i - 1);
      assert StepAt(run, i - 1);
      var step :| Enabled(run[i - 1], step) && run[i] == Do(run[i - 1], step);
      StepKeepsInv(run[i - 1], step);
    }
  }

  // ----- a whole acquisition -----

  ghost predicate Leads(s: State, steps: seq<Step>, s': State)
    decreases steps
  {
    if steps == [] then s' == s
    else Enabled(s, steps[0]) && Leads(Do(s, steps[0]), steps[1..], s')
  }

  lemma {:induction false} LeadsOn(s: State, steps: seq<Step>, s': State, step: Step)
    requires Leads(s, steps, s') && Enabled(s', step)
    ensures Leads(s, steps + [step], Do(s', step))
    decreases steps
  {
    if steps == [] {
      assert (steps + [step])[1..] == [];
    } else {
      LeadsOn(Do(s, steps[0]), steps[1..], s', step);
      assert (steps + [step])[1..] == steps[1..] + [step];
    }
  }

  /** Up to a state of the acquisition: nothing of the other threads has changed, no span is new, and of the shared
      source at most the batch is taken and the block handed on is added. */
  ghost predicate Underway(s: State, s': State, t: Tid, batch: seq<Block>, handed: Option<Block>) {
    Inv(s') && s'.live == s.live && OthersKept(s, s', t, batch, handed)
  }

  ghost predicate OthersKept(s: State, s': State, t: Tid, batch: seq<Block>, handed: Option<Block>) {
    && s'.place.Keys == s.place.Keys && (forall u :: u != t ==> LocalOf(s', u) == LocalOf(s, u))
    && (forall b :: b in s.remote && b !in batch ==> b in s'.remote)
    && (forall b :: b in s'.remote ==> b in s.remote || Some(b) == handed)
    && (handed.Some? ==> handed.value in s'.remote)
  }

  lemma DropUnderway(s: State, t: Tid, n: nat, batch: seq<Block>)
    requires Inv(s) && Enabled(s, Drop(t, n))
    ensures Underway(s, Do(s, Drop(t, n)), t, batch, Dropped(LocalOf(s, t), s.uses).handed)
  {
    StepKeepsInv(s, Drop(t, n));
    assert PlaceOk(s, LocalOf(s, t).consume.value, t) && LocalOk(s, t);
  }

  lemma RefillUnderway(s: State, m: State, t: Tid, batch: seq<Block>)
    requires Underway(s, m, t, batch, None) && Enabled(m, Refill(t, batch))
    ensures Underway(s, Do(m, Refill(t, batch)), t, batch, None)
  {
    StepKeepsInv(m, Refill(t, batch));
  }

  lemma TakeUnderway(s: State, m: State, t: Tid, batch: seq<Block>, handed: Option<Block>)
    requires Underway(s, m, t, batch, handed) && Enabled(m, Take(t))
    ensures Underway(s, Do(m, Take(t)), t, batch, handed)
  {
    StepKeepsInv(m, Take(t));
    assert PlaceOk(m, LocalOf(m, t).queue[0], t) && LocalOk(m, t);
  }

  ghost predicate OfThread(steps: seq<Step>, t: Tid) {
    forall i :: 0 <= i < |steps| ==> !steps[i].Grow? && steps[i].t == t
  }

  /** The steps taken so far in an acquisition. */
  ghost predicate Taking(s: State, steps: seq<Step>, s': State, t: Tid, batch: seq<Block>, handed: Option<Block>) {
    Leads(s, steps, s') && OfThread(steps, t) && Underway(s, s', t, batch, handed)
  }

  /** The old current block is given up, if there is one. */
  lemma DropIsSteps(s: State, t: Tid, n: nat, batch: seq<Block>) returns (steps: seq<Step>, s': State)
    requires Inv(s) && 1 <= n <= BLOCK_SIZE && BLOCK_SIZE - LocalOf(s, t).bump < n
    ensures
      var d := Dropped(LocalOf(s, t), s.uses);
      && LocalOf(s', t) == d.local && s'.uses == d.uses && Taking(s, steps, s', t, batch, d.handed)
      && d.local.consume == None && (d.local.queue == [] ==> d.handed == None) && s.remote <= s'.remote
  {
    assert LocalOk(s, t);
    steps, s' := [], s;
    if LocalOf(s, t).consume.Some? {
      DropUnderway(s, t, n, batch);
      LeadsOn(s, steps, s', Drop(t, n));
      steps, s' := [Drop(t, n)], Do(s, Drop(t, n));
    }
  }

  /** The batch is put into an empty list. */
  lemma RefillIsStep(s: State, before: seq<Step>, m: State, t: Tid, batch: seq<Block>) returns (steps: seq<Step>,
                     s': State)
    requires Taking(s, before, m, t, batch, None) && Enabled(m, Refill(t, batch))
    ensures Taking(s, steps, s', t, batch, None)
    ensures s'.uses == m.uses && LocalOf(s', t) == Refilled(LocalOf(m, t), batch)
  {
    RefillUnderway(s, m, t, batch);
    LeadsOn(s, before, m, Refill(t, batch));
    steps, s' := before + [Refill(t, batch)], Do(m, Refill(t, batch));
  }

  /** The first free block becomes the current one. */
  lemma TakeIsStep(s: State, before: seq<Step>, m: State, t: Tid, batch: seq<Block>, handed: Option<Block>)
    returns (steps: seq<Step>, s': State)
    requires Taking(s, before, m, t, batch, handed) && Enabled(m, Take(t))
    ensures Taking(s, steps, s', t, batch, handed)
    ensures s'.uses == Taken(LocalOf(m, t), m.uses).uses && LocalOf(s', t) == Taken(LocalOf(m, t), m.uses).local
  {
    TakeUnderway(s, m, t, batch, handed);
    LeadsOn(s, before, m, Take(t));
    steps, s' := before + [Take(t)], Do(m, Take(t));
  }

  /** A new current block, by steps. */
  lemma AllocateIsSteps(s: State, t: Tid, n: nat, batch: seq<Block>) returns (steps: seq<Step>, s': State)
    requires Inv(s) && 1 <= n <= BLOCK_SIZE && BLOCK_SIZE - LocalOf(s, t).bump < n
    requires |batch| == T && Distinct(batch) && forall b :: b in batch ==> b in s.remote
    ensures
      var e := Allocated(LocalOf(s, t), s.uses, batch);
      LocalOf(s', t) == e.local && s'.uses == e.uses && Taking(s, steps, s', t, batch, e.handed)
  {
    var d := Dropped(LocalOf(s, t), s.uses);
    steps, s' := DropIsSteps(s, t, n, batch);
    if LocalOf(s', t).queue == [] {
      steps, s' := RefillIsStep(s, steps, s', t, batch);
    }
    steps, s' := TakeIsStep(s, steps, s', t, batch, d.handed);
  }

  /** An acquisition as the local source makes it is a sequence of steps of its thread. They lead to the local source
      and the use counts that Acquired gives, to one live span more, and to a shared source that has given at most the
      batch and got the block handed on; nothing of the other threads changes. */
  lemma AcquireIsSteps(s: State, t: Tid, n: nat, batch: seq<Block>) returns (steps: seq<Step>, s': State)
    requires Inv(s) && 1 <= n <= BLOCK_SIZE
    requires |batch| == T && Distinct(batch) && forall b :: b in batch ==> b in s.remote
    ensures Leads(s, steps, s') && OfThread(steps, t) && LocalOk(s, t)
    ensures
      var (e, span) := Acquired(LocalOf(s, t), s.uses, n, batch);
      && LocalOf(s', t) == e.local && s'.uses == e.uses
      && s'.live == s.live + {span} && span !in s.live && span.len == n
      && Inv(s') && OthersKept(s, s', t, batch, e.handed)
  {
    assert LocalOk(s, t);
    var m, handed := s, None;
    steps := [];
    if BLOCK_SIZE - LocalOf(s, t).bump < n {
      handed := Allocated(LocalOf(s, t), s.uses, batch).handed;
      steps, m := AllocateIsSteps(s, t, n, batch);
    }
    steps, s' := CarveIsStep(s, steps, m, t, n, batch, handed);
  }

  lemma CarveIsStep(s: State, before: seq<Step>, m: State, t: Tid, n: nat, batch: seq<Block>, handed: Option<Block>)
    returns (steps: seq<Step>, s': State)
    requires Taking(s, before, m, t, batch, handed) && Enabled(m, Carve(t, n))
    ensures Leads(s, steps, s') && OfThread(steps, t)
    ensures
      var (e, span) := Carved(LocalOf(m, t), m.uses, n);
      && LocalOf(s', t) == e.local && s'.uses == e.uses && s'.live == s.live + {span} && span !in s.live
      && Inv(s') && OthersKept(s, s', t, batch, handed)
  {
    var span := Carved(LocalOf(m, t), m.uses, n).1;
    if span in m.live {
      CarvedDisjoint(m, t, n, span);
    }
    LeadsOn(s, before, m, Carve(t, n));
    StepKeepsInv(m, Carve(t, n));
    steps, s' := before + [Carve(t, n)], Do(m, Carve(t, n));
  }

  /** A block's use count is the number of its live spans, and one more while it is the current block of a thread; it is
      the current block of at most one. */
  lemma UsesAreCounted(run: seq<State>, i: nat, b: Block, t: Tid, u: Tid)
    requires Run(run) && i < |run| && b in run[i].place
    ensures
      var s := run[i];
      && Uses(s.uses, b) == |SpansOf(s.live, b)| + (if s.place[b].Current? then 1 else 0)
      && (s.place[b] == Current(t) <==> LocalOf(s, t).consume == Some(b))
      && (LocalOf(s, t).consume == Some(b) && LocalOf(s, u).consume == Some(b) ==> t == u)
  {
    RunKeepsInv(run, i);
    assert BlockOk(run[i], b) && PlaceOk(run[i], b, t) && PlaceOk(run[i], b, u);
  }

  /** Live spans lie within their blocks and never overlap. */
  lemma LiveSpansAreDisjoint(run: seq<State>, i: nat, a: Span, b: Span)
    requires Run(run) && i < |run| && a in run[i].live && b in run[i].live
    ensures a.offset + a.len <= BLOCK_SIZE && (a != b ==> Disjoint(a, b))
  {
    RunKeepsInv(run, i);
    assert SpanOk(run[i], a);
  }

  /** A block in a free list or in the shared source has no use and no live span, and it is nowhere else. */
  lemma FreeBlocksAreUnused(run: seq<State>, i: nat, b: Block, t: Tid)
    requires Run(run) && i < |run| && (b in LocalOf(run[i], t).queue || b in run[i].remote)
    ensures Uses(run[i].uses, b) == 0 && forall span :: span in run[i].live ==> span.source != b
    ensures b in LocalOf(run[i], t).queue ==> b !in run[i].remote
    ensures forall u :: u != t && b in LocalOf(run[i], u).queue ==> b in run[i].remote || b !in LocalOf(run[i], t).queue
    ensures forall u :: LocalOf(run[i], u).consume != Some(b)
  {
    RunKeepsInv(run, i);
    var s := run[i];
    assert LocalOk(s, t) && BlockOk(s, b) && PlaceOk(s, b, t);
    forall span | span in s.live
      ensures span.source != b
    {
      assert span in SpansOf(s.live, span.source);
    }
    forall u
      ensures LocalOf(s, u).consume != Some(b)
      ensures u != t && b in LocalOf(s, u).queue ==> b in s.remote || b !in LocalOf(s, t).queue
    {
      assert PlaceOk(s, b, u) && LocalOk(s, u);
    }
  }

  /** The block that a step gives up, by a thread's drop of its current block or by a release. */
  function GivenUp(s: State, step: Step): Block
    requires step.Release? || (step.Drop? && LocalOf(s, step.t).consume.Some?)
  {
    if step.Release? then step.span.source else LocalOf(s, step.t).consume.value
  }

  /** A block that loses its last use becomes the first of the thread's free list while that has fewer than T blocks;
      exactly from a full list it goes to the shared source. A block that is still in use goes nowhere. */
  lemma HandedOnlyWhenFull(run: seq<State>, i: nat, step: Step)
    requires Run(run) && i < |run| && Enabled(run[i], step) && (step.Drop? || step.Release?)
    ensures
      var s, s' := run[i], Do(run[i], step);
      var b, queue := GivenUp(s, step), LocalOf(s, step.t).queue;
      && LocalOf(s', step.t).queue == (if Uses(s.uses, b) == 1 && |queue| < T then [b] + queue else queue)
      && s'.remote == s.remote + if Uses(s.uses, b) == 1 && |queue| == T then {b} else {}
  {
    RunKeepsInv(run, i);
    assert LocalOk(run[i], step.t);
  }

  /** A thread's count is the length of its free list, which has each block once and at most T. */
  lemma CountIsLength(run: seq<State>, i: nat, t: Tid)
    requires Run(run) && i < |run|
    ensures
      var l := LocalOf(run[i], t);
      l.count == |l.queue| <= T && Distinct(l.queue)
  {
    RunKeepsInv(run, i);
    assert LocalOk(run[i], t);
  }

  /** No block is lost: one that is not free has a use. */
  lemma NoBlockIsLost(run: seq<State>, i: nat, b: Block)
    requires Run(run) && i < |run| && b in run[i].place && Uses(run[i].uses, b) == 0
    ensures b in run[i].remote || exists t :: b in LocalOf(run[i], t).queue
  {
    RunKeepsInv(run, i);
    var s := run[i];
    assert BlockOk(s, b);
    if s.place[b].Queued? {
      assert PlaceOk(s, b, s.place[b].t);
    }
  }
}

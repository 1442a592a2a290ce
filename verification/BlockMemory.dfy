/** Reference-counted blocks of 4096 bytes: spans cut off a thread's current block, and its list of free ones. */
module BlockMemory {
  import opened Options

  type Block = nat

  const BLOCK_SIZE := 4096
  const T := 16

  datatype Span = Span(source: Block, offset: nat, len: nat)

  /** A thread's source: its free blocks, its current one, and how much of that is used. */
  datatype Local = Local(queue: seq<Block>, consume: Option<Block>, bump: nat, count: int)

  /** A local source together with every use count, and a block handed to the shared source. */
  datatype Effect = Effect(local: Local, uses: map<Block, int>, handed: Option<Block>)

  function Uses(uses: map<Block, int>, b: Block): int {
    if b in uses then uses[b] else 0
  }

  function Created(): Local {
    Local([], None, BLOCK_SIZE, 0)
  }

  /** A block without uses goes to the free list, or to the shared source if the list is full. */
  function Kept(e: Effect, b: Block): Effect {
    if e.local.count < T then e.(local := e.local.(queue := [b] + e.local.queue, count := e.local.count + 1))
    else e.(handed := Some(b))
  }

  /** One use less; the last one frees the block. */
  function Released(l: Local, uses: map<Block, int>, b: Block): Effect {
    var e := Effect(l, uses[b := Uses(uses, b) - 1], None);
    if Uses(uses, b) == 1 then Kept(e, b) else e
  }

  /** The current block is given up. */
  function Dropped(l: Local, uses: map<Block, int>): Effect {
    var l1 := l.(consume := None, bump := BLOCK_SIZE);
    if l.consume == None then Effect(l1, uses, None) else Released(l1, uses, l.consume.value)
  }

  function Refilled(l: Local, batch: seq<Block>): Local {
    l.(queue := batch + l.queue, count := l.count + T)
  }

  /** The first free block becomes the current one. */
  function Taken(l: Local, uses: map<Block, int>): Effect
    requires l.queue != []
  {
    var b := l.queue[0];
    Effect(Local(l.queue[1..], Some(b), 0, l.count - 1), uses[b := Uses(uses, b) + 1], None)
  }

  /** A span of the current block. */
  function Carved(l: Local, uses: map<Block, int>, n: nat): (Effect, Span)
    requires l.consume.Some?
  {
    var b := l.consume.value;
    (Effect(l.(bump := l.bump + n), uses[b := Uses(uses, b) + 1], None), Span(b, l.bump, n))
  }

  /** A new current block, with a batch of the shared source at hand should the free list be empty. */
  function Allocated(l: Local, uses: map<Block, int>, batch: seq<Block>): Effect
    requires batch != []
  {
    var e := Dropped(l, uses);
    var l1 := if e.local.queue == [] then Refilled(e.local, batch) else e.local;
    Taken(l1, e.uses).(handed := e.handed)
  }

  function Acquired(l: Local, uses: map<Block, int>, n: nat, batch: seq<Block>): (Effect, Span)
    requires batch != [] && (l.consume == None ==> n > BLOCK_SIZE - l.bump)
  {
    if BLOCK_SIZE - l.bump < n then
      var e := Allocated(l, uses, batch);
      var (e1, span) := Carved(e.local, e.uses, n);
      (e1.(handed := e.handed), span)
    else Carved(l, uses, n)
  }

  // ----- what the callers rely on -----

  /** The count is the length of the list, which is at most T; without a current block there is nothing to cut from. */
  ghost predicate Sound(l: Local) {
    l.count == |l.queue| <= T && l.bump <= BLOCK_SIZE && (l.consume == None ==> l.bump == BLOCK_SIZE)
  }

  /** The block that loses its last use. */
  function Freed(uses: map<Block, int>, b: Block): multiset<Block> {
    if Uses(uses, b) == 1 then multiset{b} else multiset{}
  }

  function Handed(e: Effect): multiset<Block> {
    if e.handed.Some? then multiset{e.handed.value} else multiset{}
  }

  /** Where a block goes that may lose its last use: it stays in use, or it becomes the first free block, or, exactly if
      it loses its last use and the list is full, it is handed on. */
  ghost predicate Goes(l: Local, uses: map<Block, int>, b: Block, queue: seq<Block>, handed: Option<Block>) {
    && queue == (if Uses(uses, b) == 1 && |l.queue| < T then [b] + l.queue else l.queue)
    && handed == if Uses(uses, b) == 1 && |l.queue| == T then Some(b) else None
  }

  /** A release: one use less of its block only; a block without uses is then once in the free list or once handed on,
      and every other free block stays. */
  ghost predicate Releases(l: Local, uses: map<Block, int>, b: Block, e: Effect) {
    && Sound(e.local) && e.local.consume == l.consume && e.local.bump == l.bump
    && Goes(l, uses, b, e.local.queue, e.handed)
    && multiset(e.local.queue) + Handed(e) == multiset(l.queue) + Freed(uses, b)
    && Uses(e.uses, b) == Uses(uses, b) - 1 && forall c :: c != b ==> Uses(e.uses, c) == Uses(uses, c)
  }

  lemma ReleasedReleases(l: Local, uses: map<Block, int>, b: Block)
    requires Sound(l)
    ensures Releases(l, uses, b, Released(l, uses, b))
  {
    var e := Released(l, uses, b);
    if Uses(uses, b) == 1 && l.count < T {
      assert e.local.queue == [b] + l.queue;
    } else {
      assert e.local.queue == l.queue;
    }
  }

  /** An acquisition in the current block: the span begins where the last one ended. */
  ghost predicate CutsOn(l: Local, n: nat, e: Effect, span: Span) {
    && l.consume == Some(span.source) && span.offset == l.bump
    && e.local == l.(bump := l.bump + n) && e.handed == None
  }

  /** The free list once the current block, if there is one, is given up; and the block that is then handed on. */
  function ListBefore(l: Local, uses: map<Block, int>): seq<Block> {
    if l.consume.Some? && Uses(uses, l.consume.value) == 1 && |l.queue| < T then [l.consume.value] + l.queue
    else l.queue
  }

  function HandedBefore(l: Local, uses: map<Block, int>): Option<Block> {
    if l.consume.Some? && Uses(uses, l.consume.value) == 1 && |l.queue| == T then l.consume else None
  }

  /** The first free block is taken, or the first of the batch if there is none. */
  ghost predicate TakenFrom(queue: seq<Block>, batch: seq<Block>, b: Block, rest: seq<Block>) {
    [b] + rest == if queue == [] then batch else queue
  }

  /** An acquisition in a new block: the span begins at 0; the free blocks are those from before, the old block if it
      lost its last use, and the batch if there was none of these, less the new block and the one handed on. */
  ghost predicate CutsAnew(l: Local, uses: map<Block, int>, n: nat, batch: seq<Block>, e: Effect, span: Span) {
    var freed := if l.consume.Some? then Freed(uses, l.consume.value) else multiset{};
    && e.local.consume == Some(span.source) && span.offset == 0 && e.local.bump == n
    && TakenFrom(ListBefore(l, uses), batch, span.source, e.local.queue) && e.handed == HandedBefore(l, uses)
    && multiset(e.local.queue) + multiset{span.source} + Handed(e) ==
         multiset(l.queue) + freed + (if l.queue == [] && freed == multiset{} then multiset(batch) else multiset{})
  }

  /** The span is one use of its block; a new current block has one more, and the old one has one less. */
  function UsesGained(l: Local, n: nat, span: Span, c: Block): int {
    if n <= BLOCK_SIZE - l.bump then if c == span.source then 1 else 0
    else (if c == span.source then 2 else 0) - if l.consume == Some(c) then 1 else 0
  }

  /** The span is inside its block, and it begins after all spans cut from it before. */
  ghost predicate Acquires(l: Local, uses: map<Block, int>, n: nat, batch: seq<Block>, e: Effect, span: Span) {
    && Sound(e.local) && span.len == n && span.offset + span.len <= BLOCK_SIZE
    && (forall c :: Uses(e.uses, c) == Uses(uses, c) + UsesGained(l, n, span, c))
    && if n <= BLOCK_SIZE - l.bump then CutsOn(l, n, e, span) else CutsAnew(l, uses, n, batch, e, span)
  }

  /** Giving up the current block empties no list, and a block is handed on only from a full one. */
  lemma DroppedFrees(l: Local, uses: map<Block, int>)
    requires Sound(l)
    ensures
      var d := Dropped(l, uses);
      var freed := if l.consume.Some? then Freed(uses, l.consume.value) else multiset{};
      && d.local.queue == ListBefore(l, uses) && d.handed == HandedBefore(l, uses)
      && d.local.count == |d.local.queue| <= T && (d.local.queue == [] <==> l.queue == [] && freed == multiset{})
      && multiset(d.local.queue) + Handed(d) == multiset(l.queue) + freed
  {
    var l1 := l.(consume := None, bump := BLOCK_SIZE);
    if l.consume.Some? {
      ReleasedReleases(l1, uses, l.consume.value);
      assert Uses(uses, l.consume.value) == 1 ==> Dropped(l, uses).local.queue != [];
    }
  }

  lemma FirstAndRest(queue: seq<Block>)
    requires queue != []
    ensures multiset(queue) == multiset(queue[1..]) + multiset{queue[0]}
  {
    assert queue == [queue[0]] + queue[1..];
  }

  lemma SameSum(rest: multiset<Block>, first: multiset<Block>, handed: multiset<Block>, free: multiset<Block>,
                added: multiset<Block>)
    requires rest + first == free + added
    ensures rest + first + handed == free + handed + added
  {
  }

  lemma AllocatedTakesFirst(l: Local, uses: map<Block, int>, batch: seq<Block>)
    requires |batch| == T && Dropped(l, uses).local.count == |Dropped(l, uses).local.queue|
    ensures
      var e, d := Allocated(l, uses, batch), Dropped(l, uses);
      var queue := if d.local.queue == [] then batch else d.local.queue;
      queue != [] && e.local == Local(queue[1..], Some(queue[0]), 0, |queue| - 1) && e.handed == d.handed
  {
    assert batch + [] == batch;
  }

  lemma AllocatedFromList(l: Local, uses: map<Block, int>, batch: seq<Block>)
    requires Sound(l) && |batch| == T
    ensures
      var e := Allocated(l, uses, batch);
      && e.local.consume.Some? && Sound(e.local) && e.local.bump == 0 && e.handed == HandedBefore(l, uses)
      && TakenFrom(ListBefore(l, uses), batch, e.local.consume.value, e.local.queue)
  {
    DroppedFrees(l, uses);
    AllocatedTakesFirst(l, uses, batch);
  }

  lemma AllocatedConserves(l: Local, uses: map<Block, int>, batch: seq<Block>)
    requires Sound(l) && |batch| == T && Allocated(l, uses, batch).local.consume.Some?
    ensures
      var e := Allocated(l, uses, batch);
      var freed := if l.consume.Some? then Freed(uses, l.consume.value) else multiset{};
      multiset(e.local.queue) + multiset{e.local.consume.value} + Handed(e) ==
        multiset(l.queue) + freed + (if l.queue == [] && freed == multiset{} then multiset(batch) else multiset{})
  {
    DroppedFrees(l, uses);
    AllocatedTakesFirst(l, uses, batch);
    var e, d := Allocated(l, uses, batch), Dropped(l, uses);
    var queue := if d.local.queue == [] then batch else d.local.queue;
    FirstAndRest(queue);
    var added := if d.local.queue == [] then multiset(batch) else multiset{};
    assert multiset(queue) == multiset(d.local.queue) + added;
    SameSum(multiset(queue[1..]), multiset{queue[0]}, Handed(d), multiset(d.local.queue), added);
  }

  lemma AllocatedAnew(l: Local, uses: map<Block, int>, batch: seq<Block>)
    requires Sound(l) && |batch| == T
    ensures
      var e := Allocated(l, uses, batch);
      && e.local.consume.Some? && Sound(e.local) && e.local.bump == 0
      && CutsAnew(l, uses, 0, batch, e, Span(e.local.consume.value, 0, 0))
  {
    AllocatedFromList(l, uses, batch);
    AllocatedConserves(l, uses, batch);
  }

  lemma AcquiredAcquires(l: Local, uses: map<Block, int>, n: nat, batch: seq<Block>)
    requires Sound(l) && |batch| == T && 1 <= n <= BLOCK_SIZE
    ensures Acquires(l, uses, n, batch, Acquired(l, uses, n, batch).0, Acquired(l, uses, n, batch).1)
  {
    AcquiredUses(l, uses, n, batch);
    if n > BLOCK_SIZE - l.bump {
      AllocatedAnew(l, uses, batch);
      var e := Allocated(l, uses, batch);
      assert CutsAnew(l, uses, 0, batch, e, Span(e.local.consume.value, 0, 0));
    }
  }

  lemma AcquiredUses(l: Local, uses: map<Block, int>, n: nat, batch: seq<Block>)
    requires batch != [] && (l.consume == None ==> n > BLOCK_SIZE - l.bump)
    ensures
      var (e, span) := Acquired(l, uses, n, batch);
      forall c :: Uses(e.uses, c) == Uses(uses, c) + UsesGained(l, n, span, c)
  {
  }

  /** The use counts of all blocks, each an atomic. */
  class UseCounts {
    var uses: map<Block, int>

    method FetchAdd(b: Block, d: int) returns (was: int)
      modifies this
      ensures was == Uses(old(uses), b) && uses == old(uses)[b := was + d]
    {
      was := if b in uses then uses[b] else 0;
      uses := uses[b := was + d];
    }
  }

  class LocalSource {
    const counts: UseCounts
    var queue: seq<Block>
    var consume: Option<Block>
    var bump: nat
    var count: int

    function Value(): Local
      reads this
    {
      Local(queue, consume, bump, count)
    }

    constructor (counts: UseCounts)
      ensures Value() == Created() && this.counts == counts
    {
      this.counts := counts;
      queue, consume, bump, count := [], None, BLOCK_SIZE, 0;
    }

    /** Keeps a block without uses, or says that it goes to the shared source. */
    method Keep(b: Block) returns (handed: Option<Block>)
      modifies this`queue, this`count
      ensures Effect(Value(), counts.uses, handed) == Kept(Effect(old(Value()), counts.uses, None), b)
    {
      if count < T {
        queue := [b] + queue;
        count := count + 1;
        return None;
      }
      return Some(b);
    }

    /** Gives the current block up; it is current no more, though the field still names it. */
    method Drop() returns (handed: Option<Block>)
      modifies this`queue, this`count, counts
      ensures Effect(Value().(consume := None, bump := BLOCK_SIZE), counts.uses, handed) ==
        Dropped(old(Value()), old(counts.uses))
    {
      handed := None;
      if consume.Some? {
        var was := counts.FetchAdd(consume.value, -1);
        if was == 1 {
          handed := Keep(consume.value);
        }
      }
    }

    method Take()
      requires queue != []
      modifies this, counts
      ensures Effect(Value(), counts.uses, None) == Taken(old(Value()), old(counts.uses))
    {
      consume := Some(queue[0]);
      queue := queue[1..];
      bump := 0;
      var _ := counts.FetchAdd(consume.value, 1);
      count := count - 1;
    }

    method Allocate(batch: seq<Block>) returns (handed: Option<Block>)
      requires batch != []
      modifies this, counts
      ensures Effect(Value(), counts.uses, handed) == Allocated(old(Value()), old(counts.uses), batch)
    {
      handed := Drop();
      if queue == [] {
        queue := batch + queue;
        count := count + T;
      }
      Take();
    }

    method Acquire(n: nat, batch: seq<Block>) returns (span: Span, handed: Option<Block>)
      requires batch != [] && (consume == None ==> n > BLOCK_SIZE - bump)
      modifies this, counts
      ensures (Effect(Value(), counts.uses, handed), span) == Acquired(old(Value()), old(counts.uses), n, batch)
      ensures old(Sound(Value())) && |batch| == T && 1 <= n <= BLOCK_SIZE ==>
        Acquires(old(Value()), old(counts.uses), n, batch, Effect(Value(), counts.uses, handed), span)
    {
      if Sound(Value()) && |batch| == T && 1 <= n <= BLOCK_SIZE {
        AcquiredAcquires(Value(), counts.uses, n, batch);
      }
      handed := None;
      if BLOCK_SIZE - bump < n {
        handed := Allocate(batch);
      }
      var _ := counts.FetchAdd(consume.value, 1);
      span := Span(consume.value, bump, n);
      bump := bump + n;
    }

    method Release(span: Span) returns (handed: Option<Block>)
      modifies this`queue, this`count, counts
      ensures Effect(Value(), counts.uses, handed) == Released(old(Value()), old(counts.uses), span.source)
      ensures old(Sound(Value())) ==>
        Releases(old(Value()), old(counts.uses), span.source, Effect(Value(), counts.uses, handed))
    {
      if Sound(Value()) {
        ReleasedReleases(Value(), counts.uses, span.source);
      }
      handed := None;
      var was := counts.FetchAdd(span.source, -1);
      if was == 1 {
        handed := Keep(span.source);
      }
    }
  }
}

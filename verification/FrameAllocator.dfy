/** The allocator of coroutine frames: a stack of frames over a list of chunks, each frame behind a prefix that saves
    the cursor from before its push. Addresses are numbers. */
module FrameAllocator {
  import opened Sequences

  const ALIGN := 16           // also the size of either prefix
  const MIN_CAPACITY := 1024
  const GROWTH_FACTOR := 2

  function RoundUp(x: nat): (r: nat)
    ensures x <= r < x + ALIGN && r % ALIGN == 0
  {
    (x + ALIGN - 1) / ALIGN * ALIGN
  }

  lemma AlignedSum(a: nat, b: nat)
    requires a % ALIGN == 0 && b % ALIGN == 0
    ensures (a + b) % ALIGN == 0
  {
  }

  class Chunk {
    const base: nat
    const limit: nat
    var next: Chunk?

    constructor (base: nat, limit: nat)
      ensures this.base == base && this.limit == limit && next == null
    {
      this.base, this.limit := base, limit;
      next := null;
    }

    function Start(): nat {
      base + ALIGN
    }
  }

  /** What is written in front of a frame. */
  datatype Prefix = Prefix(chunk: Chunk, bump: nat)

  /** A live frame: its chunk, its prefix's address, its extent and the size asked for; and the cursor before its
      push. */
  datatype Frame = Frame(c: nat, bump: nat, n: nat, size: nat, savedC: nat, savedBump: nat)

  ghost predicate ChunkOk(c: Chunk) {
    c.base % ALIGN == 0 && c.limit % ALIGN == 0 && c.Start() <= c.limit
  }

  ghost predicate Apart(chunks: seq<Chunk>, i: nat, j: nat)
    requires i < |chunks| && j < |chunks|
  {
    chunks[i].limit <= chunks[j].base || chunks[j].limit <= chunks[i].base
  }

  /** The memory of the chunks is aligned and disjoint. */
  ghost predicate ChunksOk(chunks: seq<Chunk>) {
    && (forall i :: 0 <= i < |chunks| ==> ChunkOk(chunks[i]))
    && (forall i, j :: 0 <= i < j < |chunks| ==> Apart(chunks, i, j))
  }

  /** A frame is in its chunk, with room to spare for the size asked for; it begins where the cursor stood, or at the
      start of a later chunk. */
  ghost predicate FrameOk(chunks: seq<Chunk>, f: Frame) {
    && f.savedC <= f.c < |chunks|
    && chunks[f.c].Start() <= f.bump && f.bump + ALIGN + f.n <= chunks[f.c].limit
    && f.bump % ALIGN == 0 && f.n % ALIGN == 0 && ALIGN + f.size <= f.n
    && f.bump == if f.savedC == f.c then f.savedBump else chunks[f.c].Start()
  }

  /** What is written in front of a frame is the cursor that it saved. */
  ghost predicate PrefixOk(chunks: seq<Chunk>, prefixes: map<nat, Prefix>, f: Frame) {
    f.savedC < |chunks| && f.bump in prefixes && prefixes[f.bump] == Prefix(chunks[f.savedC], f.savedBump)
  }

  ghost predicate PrefixesOk(chunks: seq<Chunk>, prefixes: map<nat, Prefix>, frames: seq<Frame>) {
    forall k :: 0 <= k < |frames| ==> PrefixOk(chunks, prefixes, frames[k])
  }

  /** The cursor after the first k frames: a chunk and an address. */
  ghost function Cursor(chunks: seq<Chunk>, frames: seq<Frame>): (nat, nat)
    requires chunks != []
  {
    if frames == [] then (0, chunks[0].Start())
    else (frames[|frames| - 1].c, frames[|frames| - 1].bump + frames[|frames| - 1].n)
  }

  ghost predicate StackOk(chunks: seq<Chunk>, frames: seq<Frame>)
    requires frames != [] ==> chunks != []
  {
    && (forall k :: 0 <= k < |frames| ==> FrameOk(chunks, frames[k]))
    && (forall k :: 0 <= k < |frames| ==> SavedOk(chunks, frames, k))
  }

  /** A frame has saved the cursor that the frames below it leave. */
  ghost predicate SavedOk(chunks: seq<Chunk>, frames: seq<Frame>, k: nat)
    requires k < |frames| && chunks != []
  {
    (frames[k].savedC, frames[k].savedBump) == Cursor(chunks, frames[..k])
  }

  /** A search for n bytes that begins at an address of chunk `from` finds no room before chunk `to`. */
  ghost predicate NoRoom(chunks: seq<Chunk>, from: nat, bump: nat, to: nat, n: nat)
    requires to <= |chunks|
  {
    forall k :: from <= k < to ==> (if k == from then bump else chunks[k].Start()) + ALIGN + n > chunks[k].limit
  }

  /** A frame is in the first place with room: behind the cursor that it saved, else at the start of the first later
      chunk with room; and chunks were added to those from before only if none of these had room. */
  ghost predicate FirstFit(before: seq<Chunk>, chunks: seq<Chunk>, f: Frame) {
    && f.savedC <= f.c < |chunks| && f.bump + ALIGN + f.n <= chunks[f.c].limit
    && f.bump == (if f.c == f.savedC then f.savedBump else chunks[f.c].Start())
    && NoRoom(chunks, f.savedC, f.savedBump, f.c, f.n)
    && (|chunks| > |before| ==> f.c == |chunks| - 1)
  }

  lemma FitsBehindCursor(before: seq<Chunk>, chunks: seq<Chunk>, f: Frame)
    requires FirstFit(before, chunks, f) && before <= chunks && f.savedC < |before|
    requires f.savedBump + ALIGN + f.n <= chunks[f.savedC].limit
    ensures f.c == f.savedC && f.bump == f.savedBump && chunks == before
  {
  }

  ghost predicate FramesApart(a: Frame, b: Frame) {
    a.bump + a.n <= b.bump || b.bump + b.n <= a.bump
  }

  /** A frame lies before every later one: in an earlier chunk, or below it. */
  lemma {:induction false} FramesInOrder(chunks: seq<Chunk>, frames: seq<Frame>, i: nat, j: nat)
    requires chunks != [] && StackOk(chunks, frames) && i < j < |frames|
    ensures frames[i].c < frames[j].c || (frames[i].c == frames[j].c && frames[i].bump + frames[i].n <= frames[j].bump)
    decreases j
  {
    assert SavedOk(chunks, frames, j) && FrameOk(chunks, frames[j]) && FrameOk(chunks, frames[j - 1]);
    assert frames[..j][j - 1] == frames[j - 1];
    if i < j - 1 {
      FramesInOrder(chunks, frames, i, j - 1);
    }
  }

  lemma FramesAreApart(chunks: seq<Chunk>, frames: seq<Frame>, i: nat, j: nat)
    requires chunks != [] && ChunksOk(chunks) && StackOk(chunks, frames) && i < j < |frames|
    ensures FramesApart(frames[i], frames[j]) && frames[i].bump != frames[j].bump
  {
    FramesInOrder(chunks, frames, i, j);
    assert FrameOk(chunks, frames[i]) && FrameOk(chunks, frames[j]);
    if frames[i].c < frames[j].c {
      assert Apart(chunks, frames[i].c, frames[j].c);
    }
  }

  datatype Region = Region(base: nat, limit: nat)

  /** The system's allocator: aligned memory, apart from all it has given out. */
  class System {
    var top: nat
    ghost var given: seq<Region>

    ghost predicate Valid()
      reads this
    {
      forall i :: 0 <= i < |given| ==> given[i].limit <= top
    }

    constructor ()
      ensures Valid() && given == []
    {
      top, given := 0, [];
    }

    method New(n: nat) returns (p: nat)
      requires Valid()
      modifies this
      ensures Valid() && p % ALIGN == 0 && given == old(given) + [Region(p, p + n)]
      ensures forall i :: 0 <= i < |old(given)| ==> old(given)[i].limit <= p || p + n <= old(given)[i].base
    {
      p := RoundUp(top);
      top := p + n;
      given := given + [Region(p, p + n)];
    }
  }

  ghost predicate Linked(chunks: seq<Chunk>, i: nat)
    requires i < |chunks|
    reads chunks[i]
  {
    chunks[i].next == if i + 1 < |chunks| then chunks[i + 1] else null
  }

  ghost predicate AllLinked(chunks: seq<Chunk>)
    reads chunks
  {
    forall i :: 0 <= i < |chunks| ==> Linked(chunks, i)
  }

  /** Links a chunk behind the last one. */
  method Attach(ghost chunks: seq<Chunk>, last: Chunk, c: Chunk)
    requires AllLinked(chunks) && Distinct(chunks) && chunks != [] && last == chunks[|chunks| - 1]
    requires c !in chunks && c.next == null
    modifies last
    ensures AllLinked(chunks + [c])
  {
    last.next := c;
    forall i | 0 <= i < |chunks + [c]|
      ensures Linked(chunks + [c], i)
    {
      if i < |chunks| - 1 {
        assert old(Linked(chunks, i)) && Differ(chunks, i, |chunks| - 1);
      }
    }
  }

  ghost predicate Given(c: Chunk, given: seq<Region>) {
    Region(c.base, c.limit) in given
  }

  /** The chunks own their memory. */
  ghost predicate GivenOk(chunks: seq<Chunk>, given: seq<Region>) {
    forall i :: 0 <= i < |chunks| ==> Given(chunks[i], given)
  }

  /** A chunk in memory that is apart from all memory given out before. */
  lemma GivenMore(chunks: seq<Chunk>, given: seq<Region>, c: Chunk)
    requires ChunksOk(chunks) && Distinct(chunks) && GivenOk(chunks, given) && ChunkOk(c) && c !in chunks
    requires forall i :: 0 <= i < |given| ==> given[i].limit <= c.base || c.limit <= given[i].base
    ensures GivenOk(chunks + [c], given + [Region(c.base, c.limit)])
    ensures ChunksOk(chunks + [c]) && Distinct(chunks + [c])
  {
    forall i | 0 <= i < |chunks|
      ensures chunks[i].limit <= c.base || c.limit <= chunks[i].base
    {
      assert Given(chunks[i], given);
    }
    AppendedOk(chunks, c);
    forall i | 0 <= i < |chunks + [c]|
      ensures Given((chunks + [c])[i], given + [Region(c.base, c.limit)])
    {
      if i < |chunks| {
        assert Given(chunks[i], given);
      }
    }
  }

  class FrameAllocator {
    const system: System
    var chunk: Chunk?
    var curChunk: Chunk?
    var curBump: nat
    var nextCap: nat
    var prefixes: map<nat, Prefix>   // the memory in front of the frames, by address
    ghost var chunks: seq<Chunk>
    ghost var frames: seq<Frame>     // live ones, oldest first

    /** The list of chunks, the memory it owns, and the capacity of the next one. */
    ghost predicate Shape()
      reads this`chunk, this`chunks, this`nextCap, system, chunks
    {
      && system.Valid() && ChunksOk(chunks) && Distinct(chunks)
      && AllLinked(chunks)
      && GivenOk(chunks, system.given)
      && chunk == (if chunks == [] then null else chunks[0])
      && nextCap >= MIN_CAPACITY && nextCap % ALIGN == 0
    }

    ghost predicate ListOk()
      reads this, system, chunks
    {
      Shape() && (curChunk == null <==> chunks == []) && (curChunk != null ==> curChunk in chunks)
    }

    ghost predicate Valid()
      reads this, system, chunks
    {
      && ListOk()
      && (chunks == [] ==> frames == [])
      && StackOk(chunks, frames)
      && PrefixesOk(chunks, prefixes, frames)
      && (chunks != [] ==>
            var (c, bump) := Cursor(chunks, frames);
            c < |chunks| && (curChunk, curBump) == (chunks[c], bump))
    }

    constructor (system: System)
      requires system.Valid()
      ensures Valid() && frames == [] && chunks == [] && this.system == system && nextCap == MIN_CAPACITY
    {
      this.system := system;
      chunk, curChunk, curBump, nextCap := null, null, 0, MIN_CAPACITY;
      prefixes, chunks, frames := map[], [], [];
    }

    method NewChunk(cap: nat) returns (c: Chunk)
      requires system.Valid() && ChunksOk(chunks) && Distinct(chunks) && GivenOk(chunks, system.given)
        && cap % ALIGN == 0
      modifies system
      ensures fresh(c) && c.next == null && c.limit == c.Start() + cap
      ensures system.Valid() && ChunksOk(chunks + [c]) && Distinct(chunks + [c]) && GivenOk(chunks + [c], system.given)
    {
      ghost var given := system.given;
      var n := ALIGN + cap;
      var p := system.New(n);
      c := new Chunk(p, p + n);
      GivenMore(chunks, given, c);
    }

    /** Appends a chunk to the list, behind the current one, which must be the last. The caller makes it current. */
    method AllocateChunk(hint: nat) returns (c: Chunk)
      requires ListOk() && hint % ALIGN == 0 && (curChunk != null ==> curChunk == chunks[|chunks| - 1])
      modifies this`chunk, this`nextCap, this`chunks, system, curChunk
      ensures chunks == old(chunks) + [c] && c !in old(chunks)
      ensures c.Start() + hint <= c.limit && nextCap == GROWTH_FACTOR * (c.limit - c.Start())
      ensures c.limit - c.Start() == if old(nextCap) < hint then hint else old(nextCap)
      ensures hint >= ALIGN ==> (c.Start() + ALIGN + hint <= c.limit <==> hint < old(nextCap))
      ensures Shape() && fresh(c)
    {
      var cap := if nextCap < hint then hint else nextCap;
      c := NewChunk(cap);
      if curChunk == null {
        chunk := c;
      } else {
        Attach(chunks, curChunk, c);
      }
      AlignedSum(cap, cap);
      if hint >= ALIGN {
        NewChunkFits(nextCap, hint);
      }
      nextCap := cap * GROWTH_FACTOR;
      chunks := chunks + [c];
    }

    /** The chunk of the cursor, by its index. */
    ghost predicate CurrentIs(c: nat)
      reads this`chunks, this`curChunk
    {
      c < |chunks| && curChunk == chunks[c]
    }

    /** Pushes a frame: in the current chunk if that has room behind the cursor, else at the start of the first later
        one with room. Chunks are added, two at most, only if no chunk from the current one on has room. */
    method PushStackFrame(size: nat) returns (r: nat)
      requires Valid()
      modifies this, system, chunks
      ensures Valid() && old(chunks) <= chunks && |chunks| <= |old(chunks)| + 2
      ensures |frames| == |old(frames)| + 1 && frames[..|old(frames)|] == old(frames)
      ensures
        var f := frames[|old(frames)|];
        && f.size == size && r == f.bump + ALIGN && f.savedC < |chunks|
        && (old(chunks) != [] ==> (chunks[f.savedC], f.savedBump) == (old(curChunk), old(curBump)))
      ensures frames[|old(frames)|].n == RoundUp(ALIGN + size) && FirstFit(old(chunks), chunks, frames[|old(frames)|])
      ensures old(curChunk) != null && old(curBump) + ALIGN + RoundUp(ALIGN + size) <= old(curChunk).limit ==>
        r == old(curBump) + ALIGN && chunks == old(chunks)
    {
      var n := RoundUp(ALIGN + size);
      Begin(n);
      r := PushAtCursor(size, n, old(chunks));
      ghost var f := frames[|old(frames)|];
      if old(curChunk) != null && old(curBump) + ALIGN + n <= old(curChunk).limit {
        FitsBehindCursor(old(chunks), chunks, f);
      }
    }

    /** The same once there is a chunk. */
    method PushAtCursor(size: nat, n: nat, ghost before: seq<Chunk>) returns (r: nat)
      requires chunks != [] && Searching(before, n, Cursor(chunks, frames).0) && curBump == Cursor(chunks, frames).1
      requires (before == [] ==> frames == []) && StackOk(before, frames) && PrefixesOk(before, prefixes, frames)
      requires ALIGN + size <= n
      modifies this, system, chunks
      ensures Valid() && old(chunks) <= chunks && before <= chunks && |chunks| <= |before| + 2
      ensures |frames| == |old(frames)| + 1 && frames[..|old(frames)|] == old(frames)
      ensures
        var f := frames[|old(frames)|];
        && f.size == size && f.n == n && r == f.bump + ALIGN && f.savedC < |old(chunks)| && FirstFit(before, chunks, f)
        && (chunks[f.savedC], f.savedBump) == (old(curChunk), old(curBump))
    {
      var savedChunk, savedBump := curChunk, curBump;
      ghost var savedC := Cursor(chunks, frames).0;
      ghost var c := Search(n, before, savedC);
      r := Place(size, n, savedChunk, savedBump, savedC, c, before);
    }

    /** Sees that there is a chunk. */
    method Begin(n: nat)
      requires Valid() && n % ALIGN == 0 && n >= ALIGN
      modifies this`chunk, this`curChunk, this`curBump, this`nextCap, this`chunks, system, chunks
      ensures old(chunks) != [] ==> chunks == old(chunks) && (curChunk, curBump) == (old(curChunk), old(curBump))
      ensures chunks != [] && Searching(old(chunks), n, Cursor(chunks, frames).0) && curBump == Cursor(chunks, frames).1
      ensures |chunks| > |old(chunks)| ==> fresh(chunks[0]) && |chunks| == 1
    {
      if curChunk == null {
        Extend(n);
      }
      CursorInside(chunks, frames);
    }

    /** Moves the cursor on until n bytes and a prefix fit behind it. */
    method Search(n: nat, ghost before: seq<Chunk>, ghost c: nat) returns (ghost end: nat)
      requires Searching(before, n, c)
      modifies this`chunk, this`curChunk, this`curBump, this`nextCap, this`chunks, system, chunks
      ensures Searching(before, n, end) && curBump + ALIGN + n <= curChunk.limit && c <= end
      ensures curBump == if end == c then old(curBump) else curChunk.Start()
      ensures old(chunks) <= chunks
      ensures NoRoom(chunks, c, old(curBump), end, n)
    {
      end := c;
      while curBump + ALIGN + n > curChunk.limit
        invariant Searching(before, n, end) && c <= end && old(chunks) <= chunks
        invariant curBump == if end == c then old(curBump) else curChunk.Start()
        invariant NoRoom(chunks, c, old(curBump), end, n)
        invariant forall i :: |old(chunks)| <= i < |chunks| ==> fresh(chunks[i])
        decreases |before| + 2 - |chunks|, |chunks| - end
      {
        end := NextChunk(n, before, end);
      }
    }

    /** While room is searched for: the chunks from before are still there, and of at most two new ones the last is
        current and has room for n bytes; a second one has room for n bytes and a prefix. */
    ghost predicate Searching(before: seq<Chunk>, n: nat, c: nat)
      reads this, system, chunks
    {
      && ListOk() && CurrentIs(c) && before <= chunks && |chunks| <= |before| + 2
      && curBump % ALIGN == 0 && curChunk.Start() <= curBump && n >= ALIGN && n % ALIGN == 0
      && (|chunks| > |before| ==>
            && c == |chunks| - 1 && curBump == curChunk.Start()
            && curBump + n <= curChunk.limit && nextCap == GROWTH_FACTOR * (curChunk.limit - curBump))
      && (|chunks| == |before| + 2 ==> curBump + ALIGN + n <= curChunk.limit)
    }

    /** One round of the search. */
    method NextChunk(n: nat, ghost before: seq<Chunk>, ghost c: nat) returns (ghost next: nat)
      requires Searching(before, n, c) && curBump + ALIGN + n > curChunk.limit
      modifies this`chunk, this`curChunk, this`curBump, this`nextCap, this`chunks, system, curChunk
      ensures Searching(before, n, next) && next == c + 1 && curBump == curChunk.Start()
      ensures chunks == old(chunks) ||
        (old(chunks) == chunks[..|chunks| - 1] && fresh(chunks[|chunks| - 1]) && next == |chunks| - 1)
    {
      next := c + 1;
      if curChunk.next != null {
        MoveOn(n, before, c);
      } else {
        OnlyLastEnds(chunks, c);
        ExtendSearch(n, before, c);
      }
    }

    method MoveOn(n: nat, ghost before: seq<Chunk>, ghost c: nat)
      requires Searching(before, n, c) && curChunk.next != null
      modifies this`curChunk, this`curBump
      ensures Searching(before, n, c + 1) && curBump == curChunk.Start()
    {
      assert Linked(chunks, c);
      curChunk := curChunk.next;
      curBump := curChunk.Start();
      assert ChunkOk(chunks[c + 1]);
    }

    /** A second new chunk has room in any case: the first one was as large as the frame needs. */
    method ExtendSearch(n: nat, ghost before: seq<Chunk>, ghost c: nat)
      requires Searching(before, n, c) && curBump + ALIGN + n > curChunk.limit && c == |chunks| - 1
      modifies this`chunk, this`curChunk, this`curBump, this`nextCap, this`chunks, system, curChunk
      ensures Searching(before, n, c + 1) && curBump == curChunk.Start()
      ensures |chunks| == |old(chunks)| + 1 && old(chunks) == chunks[..|chunks| - 1] && fresh(chunks[|chunks| - 1])
    {
      assert ChunkOk(chunks[c]);
      Extend(n);
      assert ChunkOk(chunks[c + 1]);
    }

    /** Writes the prefix at the cursor and moves the cursor behind the frame. */
    method Place(size: nat, n: nat, savedChunk: Chunk, savedBump: nat, ghost savedC: nat, ghost c: nat,
                 ghost before: seq<Chunk>)
      returns (r: nat)
      requires ListOk() && CurrentIs(c) && before <= chunks && (before == [] ==> frames == [])
      requires StackOk(before, frames) && PrefixesOk(before, prefixes, frames)
      requires (savedC, savedBump) == Cursor(chunks, frames) && savedC <= c && savedChunk == chunks[savedC]
      requires curBump == if c == savedC then savedBump else curChunk.Start()
      requires curBump % ALIGN == 0 && curChunk.Start() <= curBump
      requires curBump + ALIGN + n <= curChunk.limit && n % ALIGN == 0 && ALIGN + size <= n
      modifies this`prefixes, this`curBump, this`frames
      ensures Valid() && r == old(curBump) + ALIGN
      ensures frames == old(frames) + [Frame(c, old(curBump), n, size, savedC, savedBump)]
    {
      ghost var f := Frame(c, curBump, n, size, savedC, savedBump);
      StackGrows(before, chunks, frames, f);
      prefixes := prefixes[curBump := Prefix(savedChunk, savedBump)];
      r := curBump + ALIGN;
      curBump := curBump + n;
      frames := frames + [f];
      forall k | 0 <= k < |frames|
        ensures PrefixOk(chunks, prefixes, frames[k])
      {
        if k < |frames| - 1 {
          assert PrefixOk(before, old(prefixes), frames[k]);
          FramesAreApart(chunks, frames, k, |frames| - 1);
        }
      }
    }

    /** Pops the last frame: the cursor is again where it was before its push. */
    method PopStackFrame(fr: nat)
      requires Valid() && frames != [] && fr == frames[|frames| - 1].bump + ALIGN
      modifies this`curChunk, this`curBump, this`frames
      ensures Valid() && frames == old(frames)[..|old(frames)| - 1]
      ensures
        var f := old(frames)[|old(frames)| - 1];
        f.savedC < |chunks| && (curChunk, curBump) == (chunks[f.savedC], f.savedBump)
    {
      PrefixRestores(chunks, prefixes, frames);
      var pr := prefixes[fr - ALIGN];
      curChunk := pr.chunk;
      curBump := pr.bump;
      frames := frames[..|frames| - 1];
    }

    /** A new chunk becomes the current one. */
    method Extend(hint: nat)
      requires ListOk() && hint % ALIGN == 0 && (curChunk != null ==> curChunk == chunks[|chunks| - 1])
      modifies this`chunk, this`curChunk, this`curBump, this`nextCap, this`chunks, system, curChunk
      ensures ListOk() && fresh(curChunk) && |chunks| == |old(chunks)| + 1 && old(chunks) == chunks[..|old(chunks)|]
      ensures curChunk == chunks[|chunks| - 1] && curBump == curChunk.Start()
      ensures curChunk.Start() + hint <= curChunk.limit
        && nextCap == GROWTH_FACTOR * (curChunk.limit - curChunk.Start())
      ensures curChunk.limit - curChunk.Start() == if old(nextCap) < hint then hint else old(nextCap)
    {
      var c := AllocateChunk(hint);
      curChunk := c;
      curBump := c.Start();
    }
  }

  lemma OnlyLastEnds(chunks: seq<Chunk>, c: nat)
    requires c < |chunks| && AllLinked(chunks) && chunks[c].next == null
    ensures c == |chunks| - 1
  {
    assert Linked(chunks, c);
  }

  lemma CursorInside(chunks: seq<Chunk>, frames: seq<Frame>)
    requires chunks != [] && ChunksOk(chunks) && StackOk(chunks, frames)
    ensures
      var (c, bump) := Cursor(chunks, frames);
      c < |chunks| && bump % ALIGN == 0 && chunks[c].Start() <= bump
  {
    if frames != [] {
      var f := frames[|frames| - 1];
      assert FrameOk(chunks, f);
      AlignedSum(f.bump, f.n);
    } else {
      assert ChunkOk(chunks[0]);
    }
  }

  lemma StackGrows(chunks: seq<Chunk>, more: seq<Chunk>, frames: seq<Frame>, f: Frame)
    requires chunks <= more && more != [] && (frames != [] ==> chunks != []) && StackOk(chunks, frames)
    requires FrameOk(more, f) && (f.savedC, f.savedBump) == Cursor(more, frames)
    ensures StackOk(more, frames + [f])
  {
    forall k | 0 <= k < |frames + [f]|
      ensures FrameOk(more, (frames + [f])[k]) && SavedOk(more, frames + [f], k)
    {
      assert (frames + [f])[..k] == if k < |frames| then frames[..k] else frames;
      if k < |frames| {
        assert FrameOk(chunks, frames[k]) && SavedOk(chunks, frames, k);
      }
    }
  }

  lemma StackShrinks(chunks: seq<Chunk>, frames: seq<Frame>)
    requires chunks != [] && frames != [] && StackOk(chunks, frames)
    ensures StackOk(chunks, frames[..|frames| - 1])
  {
    var rest := frames[..|frames| - 1];
    forall k | 0 <= k < |rest|
      ensures FrameOk(chunks, rest[k]) && SavedOk(chunks, rest, k)
    {
      assert rest[..k] == frames[..k];
      assert FrameOk(chunks, frames[k]) && SavedOk(chunks, frames, k);
    }
  }

  /** A new chunk asked for n bytes has room for n bytes and a prefix if and only if n is below the next capacity; the
      one after it always has. */
  lemma NewChunkFits(nextCap: nat, n: nat)
    requires nextCap % ALIGN == 0 && n % ALIGN == 0 && n >= ALIGN
    ensures
      var cap := if nextCap < n then n else nextCap;
      && (ALIGN + n <= cap <==> n < nextCap)
      && ALIGN + n <= GROWTH_FACTOR * cap
  {
  }

  /** An example: the first frame takes 1024 bytes with its prefix, and the first chunk has no room for it. */
  method FirstChunkTooSmall() returns (a: FrameAllocator, c: Chunk)
    ensures c.limit - c.Start() == MIN_CAPACITY && c.Start() + ALIGN + RoundUp(ALIGN + 1000) > c.limit
  {
    var system := new System();
    a := new FrameAllocator(system);
    c := a.AllocateChunk(RoundUp(ALIGN + 1000));
  }

  /** The prefix of the last frame holds the cursor that the frames below it leave. */
  lemma PrefixRestores(chunks: seq<Chunk>, prefixes: map<nat, Prefix>, frames: seq<Frame>)
    requires chunks != [] && frames != [] && StackOk(chunks, frames) && PrefixesOk(chunks, prefixes, frames)
    ensures
      var f, rest := frames[|frames| - 1], frames[..|frames| - 1];
      && StackOk(chunks, rest) && PrefixesOk(chunks, prefixes, rest)
      && f.savedC < |chunks| && f.bump in prefixes
      && (f.savedC, f.savedBump) == Cursor(chunks, rest) && prefixes[f.bump] == Prefix(chunks[f.savedC], f.savedBump)
  {
    StackShrinks(chunks, frames);
    assert PrefixOk(chunks, prefixes, frames[|frames| - 1]) && SavedOk(chunks, frames, |frames| - 1);
  }

  lemma AppendedOk(chunks: seq<Chunk>, c: Chunk)
    requires ChunksOk(chunks) && Distinct(chunks) && ChunkOk(c) && c !in chunks
    requires forall i :: 0 <= i < |chunks| ==> chunks[i].limit <= c.base || c.limit <= chunks[i].base
    ensures ChunksOk(chunks + [c]) && Distinct(chunks + [c])
  {
    var r := chunks + [c];
    forall i, j | 0 <= i < j < |r|
      ensures Apart(r, i, j)
    {
      assert j < |chunks| ==> Apart(chunks, i, j);
    }
    forall i, j | 0 <= i < |r| && 0 <= j < |r| && i != j
      ensures Differ(r, i, j)
    {
      assert i < |chunks| && j < |chunks| ==> Differ(chunks, i, j);
      assert i < |chunks| ==> chunks[i] in chunks;
      assert j < |chunks| ==> chunks[j] in chunks;
    }
  }
}

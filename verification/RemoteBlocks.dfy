/** The shared source of blocks: a ring of slots that each fill up to a batch of T blocks, between a head that pushes
    fill and a tail that pops empty. Head and tail are the halves of one packed word. */
module RemoteBlocks {
  import opened Sequences
  import opened BlockMemory

  const N := 16          // allocations at most
  const M := 64          // blocks an allocation
  const K := 64          // slots: N * M / T
  const HALF := 0x1_0000_0000

  datatype Slot = Slot(blocks: seq<Block>, n: nat)

  datatype Ring = Ring(slots: seq<Slot>, head: nat, tail: nat)

  /** The packed word: the head in the low half, the tail in the high half. */
  function Unpacked(slots: seq<Slot>, state: nat): Ring {
    Ring(slots, state % HALF, state / HALF)
  }

  lemma NextHead(state: nat)
    requires state % HALF + 1 < HALF
    ensures (state + 1) % HALF == state % HALF + 1 && (state + 1) / HALF == state / HALF
  {
  }

  lemma NextTail(state: nat)
    ensures (state + HALF) % HALF == state % HALF && (state + HALF) / HALF == state / HALF + 1
  {
  }

  function HeadSlot(r: Ring): Slot
    requires |r.slots| == K
  {
    r.slots[r.head % K]
  }

  function Unfilled(): Ring {
    Ring(seq(K, i => Slot([], 0)), 0, 0)
  }

  /** A block is pushed at the head; the push that fills the slot hands it over. */
  function Pushed(r: Ring, b: Block): Ring
    requires |r.slots| == K
  {
    var s := HeadSlot(r);
    Ring(r.slots[r.head % K := Slot([b] + s.blocks, s.n + 1)], if s.n + 1 == T then r.head + 1 else r.head, r.tail)
  }

  /** The batch at the tail; nothing if no slot has been handed over. */
  function Popped(r: Ring): (Ring, seq<Block>)
    requires |r.slots| == K
  {
    if r.head == r.tail then (r, [])
    else
      var i := r.tail % K;
      (Ring(r.slots[i := Slot([], 0)], r.head, r.tail + 1), Reversed(r.slots[i].blocks))
  }

  /** How a refill ends: done, with an index behind the end of the array of new blocks, or waiting for a full slot. */
  datatype Refilling = Done(ring: Ring) | OutOfRange | Blocked

  /** One round hands over the head slot, filled up with the new blocks from index k on. */
  function Round(r: Ring, added: seq<Block>, k: nat): Ring
    requires |r.slots| == K && HeadSlot(r).n < T && k + T - HeadSlot(r).n <= |added|
  {
    var s := HeadSlot(r);
    Ring(r.slots[r.head % K := Slot(added[k..k + T - s.n] + s.blocks, T)], r.head + 1, r.tail)
  }

  function Refill(r: Ring, added: seq<Block>, k: nat): Refilling
    requires |r.slots| == K
    decreases |added| - k
  {
    if k >= |added| then Done(r)
    else if HeadSlot(r).n >= T then Blocked
    else if k + T - HeadSlot(r).n > |added| then OutOfRange
    else Refill(Round(r, added, k), added, k + T - HeadSlot(r).n)
  }

  class RemoteSource {
    var slots: seq<Slot>
    var state: nat

    function Value(): Ring
      reads this
    {
      Unpacked(slots, state)
    }

    constructor ()
      ensures Value() == Unfilled()
    {
      slots := seq(K, i => Slot([], 0));
      state := 0;
    }

    /** Whether the head slot had room; if not, the source tries again. */
    method Push(b: Block) returns (done: bool)
      requires |slots| == K && Value().head + 1 < HALF
      modifies this
      ensures done == (HeadSlot(old(Value())).n != T)
      ensures Value() == if done then Pushed(old(Value()), b) else old(Value())
    {
      var i := state % HALF % K;
      var n := slots[i].n;
      if n == T {
        return false;
      }
      slots := slots[i := Slot([b] + slots[i].blocks, n + 1)];
      if n + 1 == T {
        NextHead(state);
        state := state + 1;
      }
      return true;
    }

    method TryPop() returns (batch: seq<Block>)
      requires |slots| == K && Value().tail <= Value().head
      modifies this
      ensures old(state) < HALF * HALF ==> state < HALF * HALF
      ensures (Value(), batch) == Popped(old(Value()))
    {
      if state % HALF == state / HALF {
        return [];
      }
      var i := state / HALF % K;
      NextTail(state);
      state := state + HALF;
      batch := Reversed(slots[i].blocks);
      slots := slots[i := Slot([], 0)];
    }

    method HandOver(i: nat, prefix: seq<Block>)
      requires i < |slots| && Value().head + 1 < HALF
      modifies this
      ensures slots == old(slots)[i := Slot(prefix + old(slots[i]).blocks, T)]
      ensures Value().head == old(Value().head) + 1 && Value().tail == old(Value().tail)
    {
      NextHead(state);
      slots := slots[i := Slot(prefix + slots[i].blocks, T)];
      state := state + 1;
    }

    /** Refills from an array of new blocks, unless it runs into a full slot or behind the end of the array. */
    method Prepend(added: seq<Block>) returns (done: bool)
      requires |slots| == K && Value().head + |added| < HALF
      modifies this
      ensures done <==> Refill(old(Value()), added, 0).Done?
      ensures done ==> Refill(old(Value()), added, 0) == Done(Value())
    {
      var k := 0;
      var rest := added;
      while rest != []
        invariant |slots| == K && k <= |added| && rest == added[k..] && Value().head + |rest| < HALF
        invariant Refill(old(Value()), added, 0) == Refill(Value(), added, k)
        decreases |rest|
      {
        var i := state % HALF % K;
        var n := slots[i].n;
        if n >= T {
          return false;
        }
        var r := T - n;
        if k + r > |added| {
          return false;
        }
        assert rest[..r] == added[k..k + r];
        HandOver(i, rest[..r]);
        rest := rest[r..];
        k := k + r;
      }
      return true;
    }
  }

  // ----- the invariant -----

  function Contents(slots: seq<Slot>): multiset<Block> {
    if slots == [] then multiset{} else multiset(slots[0].blocks) + Contents(slots[1..])
  }

  ghost predicate SlotOk(r: Ring, k: nat)
    requires |r.slots| == K
  {
    var s := r.slots[k % K];
    && s.n == |s.blocks|
    && (r.tail <= k < r.head ==> s.n == T)
    && (k == r.head ==> s.n < T)
    && (k > r.head ==> s.n == 0)
  }

  /** From the tail to the head the slots hold a batch each; the head slot is filling; the rest is empty. */
  ghost predicate Valid(r: Ring) {
    && |r.slots| == K && r.head < HALF && r.tail <= r.head <= r.tail + K
    && (forall k :: r.tail <= k < r.tail + K ==> SlotOk(r, k))
    && |Contents(r.slots)| == T * (r.head - r.tail) + Filling(r)
  }

  /** How much of the next batch there is. */
  function Filling(r: Ring): nat
    requires |r.slots| == K
  {
    if r.head < r.tail + K then |HeadSlot(r).blocks| else 0
  }

  // ----- the contents of slots -----

  lemma {:induction false} ContentsUpdated(slots: seq<Slot>, i: nat, s: Slot)
    requires i < |slots|
    ensures Contents(slots[i := s]) + multiset(slots[i].blocks) == Contents(slots) + multiset(s.blocks)
  {
    if i == 0 {
      assert slots[i := s][1..] == slots[1..];
    } else {
      ContentsUpdated(slots[1..], i - 1, s);
      assert slots[i := s][1..] == slots[1..][i - 1 := s];
      assert slots[1..][i - 1] == slots[i] && slots[i := s][0] == slots[0];
      var first, rest := multiset(slots[0].blocks), Contents(slots[1..]);
      var changed := Contents(slots[1..][i - 1 := s]);
      assert (first + changed) + multiset(slots[i].blocks) == first + (changed + multiset(slots[i].blocks));
      assert (first + rest) + multiset(s.blocks) == first + (rest + multiset(s.blocks));
    }
  }

  lemma OtherSlot(a: nat, b: nat)
    requires a < b < a + K
    ensures a % K != b % K
  {
  }

  lemma SameSlot(a: nat)
    ensures (a + K) % K == a % K
  {
  }

  // ----- push, pop and refill keep it -----

  /** A slot changes, and with it the contents. */
  lemma ContentsGrow(slots: seq<Slot>, i: nat, s: Slot, more: multiset<Block>)
    requires i < |slots| && multiset(s.blocks) == multiset(slots[i].blocks) + more
    ensures Contents(slots[i := s]) == Contents(slots) + more
    ensures |Contents(slots[i := s])| == |Contents(slots)| + |more|
  {
    ContentsUpdated(slots, i, s);
    var a, b, old_ := Contents(slots[i := s]), Contents(slots), multiset(slots[i].blocks);
    assert a + old_ == (b + more) + old_;
    assert (a + old_) - old_ == a && ((b + more) + old_) - old_ == b + more;
  }

  lemma ContentsShrink(slots: seq<Slot>, i: nat)
    requires i < |slots|
    ensures Contents(slots) == Contents(slots[i := Slot([], 0)]) + multiset(slots[i].blocks)
    ensures |Contents(slots)| == |Contents(slots[i := Slot([], 0)])| + |slots[i].blocks|
  {
    ContentsUpdated(slots, i, Slot([], 0));
  }

  lemma SlotKept(r: Ring, r': Ring, i: nat, k: nat)
    requires |r.slots| == |r'.slots| == K && SlotOk(r, k) && i % K != k % K
    requires r'.slots == r.slots[i % K := r'.slots[i % K]] && r'.head >= r.head && r'.tail >= r.tail
    requires r'.head == r.head || r'.head == r.head + 1
    requires k >= r'.tail && (r'.head > r.head ==> k != r.head)
    ensures SlotOk(r', k)
  {
  }

  /** A push into a head slot with room. */
  ghost predicate Pushable(r: Ring) {
    Valid(r) && HeadSlot(r).n < T && r.head < r.tail + K && r.head + 1 < HALF
  }

  lemma PushMoves(r: Ring, b: Block)
    requires Pushable(r)
    ensures Pushed(r, b).head == r.head + if HeadSlot(r).n + 1 == T then 1 else 0
    ensures Pushed(r, b).tail == r.tail && Pushed(r, b).head < HALF
  {
  }

  lemma PushKeepsSlot(r: Ring, b: Block, k: nat)
    requires Pushable(r) && r.tail <= k < r.tail + K
    ensures SlotOk(Pushed(r, b), k)
  {
    var r' := Pushed(r, b);
    var h := r.head;
    PushMoves(r, b);
    assert SlotOk(r, k);
    if k < h {
      OtherSlot(k, h);
      SlotKept(r, r', h, k);
    } else if k > h {
      OtherSlot(h, k);
      SlotKept(r, r', h, k);
    }
  }

  lemma PushGrows(r: Ring, b: Block)
    requires Pushable(r)
    ensures Contents(Pushed(r, b).slots) == Contents(r.slots) + multiset{b}
    ensures |Contents(Pushed(r, b).slots)| == |Contents(r.slots)| + 1
  {
    var s := HeadSlot(r);
    assert multiset([b] + s.blocks) == multiset(s.blocks) + multiset{b};
    ContentsGrow(r.slots, r.head % K, Slot([b] + s.blocks, s.n + 1), multiset{b});
  }

  lemma PushFills(r: Ring, b: Block)
    requires Pushable(r)
    ensures Filling(Pushed(r, b)) == if HeadSlot(r).n + 1 == T then 0 else Filling(r) + 1
  {
    var h := r.head;
    PushMoves(r, b);
    assert SlotOk(r, h);
    if HeadSlot(r).n + 1 == T && h + 1 < r.tail + K {
      PushKeepsSlot(r, b, h + 1);
      assert SlotOk(r, h + 1);
      OtherSlot(h, h + 1);
    }
  }

  lemma PushKeepsValid(r: Ring, b: Block)
    requires Pushable(r)
    ensures Valid(Pushed(r, b))
    ensures Contents(Pushed(r, b).slots) == Contents(r.slots) + multiset{b}
  {
    PushMoves(r, b);
    PushGrows(r, b);
    PushFills(r, b);
    assert SlotOk(r, r.head);
    forall k | r.tail <= k < r.tail + K
      ensures SlotOk(Pushed(r, b), k)
    {
      PushKeepsSlot(r, b, k);
    }
  }

  lemma PopMoves(r: Ring)
    requires Valid(r) && r.head != r.tail
    ensures Popped(r).0.head == r.head && Popped(r).0.tail == r.tail + 1 && Popped(r).0.head < HALF
  {
  }

  lemma PopKeepsSlot(r: Ring, k: nat)
    requires Valid(r) && r.head != r.tail && r.tail < k <= r.tail + K
    ensures SlotOk(Popped(r).0, k)
  {
    PopMoves(r);
    if k < r.tail + K {
      assert SlotOk(r, k);
      OtherSlot(r.tail, k);
      SlotKept(r, Popped(r).0, r.tail, k);
    } else {
      SameSlot(r.tail);
    }
  }

  lemma PopShrinks(r: Ring)
    requires Valid(r) && r.head != r.tail
    ensures |Popped(r).1| == T
    ensures Contents(r.slots) == Contents(Popped(r).0.slots) + multiset(Popped(r).1)
    ensures |Contents(r.slots)| == |Contents(Popped(r).0.slots)| + T
  {
    assert SlotOk(r, r.tail);
    ContentsShrink(r.slots, r.tail % K);
    ReversedElements(r.slots[r.tail % K].blocks);
  }

  lemma PopFilling(r: Ring)
    requires Valid(r) && r.head != r.tail
    ensures Filling(Popped(r).0) == Filling(r)
  {
    PopMoves(r);
    if r.head < r.tail + K {
      OtherSlot(r.tail, r.head);
    }
  }

  /** A pop takes a whole batch. */
  lemma PopKeepsValid(r: Ring)
    requires Valid(r) && r.head != r.tail
    ensures Valid(Popped(r).0) && |Popped(r).1| == T
    ensures Contents(r.slots) == Contents(Popped(r).0.slots) + multiset(Popped(r).1)
  {
    PopMoves(r);
    PopShrinks(r);
    PopFilling(r);
    forall k | r.tail + 1 <= k < r.tail + 1 + K
      ensures SlotOk(Popped(r).0, k)
    {
      PopKeepsSlot(r, k);
    }
  }

  /** The head slot is full only when the ring is, and the ring is full only when it holds every block there may be. */
  lemma FullOnlyWithAllBlocks(r: Ring)
    requires Valid(r) && |Contents(r.slots)| < N * M
    ensures r.head < r.tail + K && HeadSlot(r).n < T && HeadSlot(r).n == |HeadSlot(r).blocks| == Filling(r)
  {
    assert SlotOk(r, r.head);
  }

  // ----- refilling -----

  /** A round of a refill: there is room at the head and the new blocks suffice. */
  ghost predicate Fillable(r: Ring, added: seq<Block>, k: nat) {
    Pushable(r) && k + T - HeadSlot(r).n <= |added|
  }

  lemma RoundMoves(r: Ring, added: seq<Block>, k: nat)
    requires Fillable(r, added, k)
    ensures Round(r, added, k).head == r.head + 1 && Round(r, added, k).tail == r.tail
    ensures Round(r, added, k).head < HALF
  {
  }

  lemma RoundKeepsSlot(r: Ring, added: seq<Block>, k: nat, j: nat)
    requires Fillable(r, added, k) && r.tail <= j < r.tail + K
    ensures SlotOk(Round(r, added, k), j)
  {
    var r' := Round(r, added, k);
    var h := r.head;
    RoundMoves(r, added, k);
    assert SlotOk(r, j) && SlotOk(r, h);
    if j < h {
      OtherSlot(j, h);
      SlotKept(r, r', h, j);
    } else if j > h {
      OtherSlot(h, j);
      SlotKept(r, r', h, j);
    }
  }

  lemma RoundGrows(r: Ring, added: seq<Block>, k: nat)
    requires Fillable(r, added, k)
    ensures
      var batch := added[k..k + T - HeadSlot(r).n];
      && Contents(Round(r, added, k).slots) == Contents(r.slots) + multiset(batch)
      && |Contents(Round(r, added, k).slots)| == |Contents(r.slots)| + |batch|
  {
    var s := HeadSlot(r);
    var batch := added[k..k + T - s.n];
    assert Round(r, added, k).slots == r.slots[r.head % K := Slot(batch + s.blocks, T)];
    assert multiset(batch + s.blocks) == multiset(s.blocks) + multiset(batch);
    ContentsGrow(r.slots, r.head % K, Slot(batch + s.blocks, T), multiset(batch));
  }

  lemma RoundFills(r: Ring, added: seq<Block>, k: nat)
    requires Fillable(r, added, k)
    ensures Filling(Round(r, added, k)) == 0
  {
    var h := r.head;
    RoundMoves(r, added, k);
    if h + 1 < r.tail + K {
      assert SlotOk(r, h + 1);
      OtherSlot(h, h + 1);
    }
  }

  lemma RoundKeepsValid(r: Ring, added: seq<Block>, k: nat)
    requires Fillable(r, added, k)
    ensures Valid(Round(r, added, k)) && Filling(Round(r, added, k)) == 0
  {
    RoundMoves(r, added, k);
    RoundGrows(r, added, k);
    RoundFills(r, added, k);
    assert SlotOk(r, r.head);
    forall j | r.tail <= j < r.tail + K
      ensures SlotOk(Round(r, added, k), j)
    {
      RoundKeepsSlot(r, added, k, j);
    }
  }

  /** All of one round. */
  lemma RoundDone(r: Ring, added: seq<Block>, k: nat)
    requires Fillable(r, added, k)
    ensures
      var r', k' := Round(r, added, k), k + T - HeadSlot(r).n;
      && Refill(r, added, k) == Refill(r', added, k')
      && Valid(r') && Filling(r') == 0 && r'.head == r.head + 1 && r'.tail == r.tail
      && Contents(r'.slots) == Contents(r.slots) + multiset(added[k..k'])
      && |Contents(r'.slots)| == |Contents(r.slots)| + k' - k
  {
    RoundKeepsValid(r, added, k);
    RoundGrows(r, added, k);
  }

  lemma RestSplits(added: seq<Block>, k: nat)
    requires k + T <= |added|
    ensures multiset(added[k..]) == multiset(added[k..k + T]) + multiset(added[k + T..])
  {
    assert added[k..] == added[k..k + T] + added[k + T..];
  }

  lemma WholeBatches(x: nat)
    ensures (x + T) % T == x % T
  {
  }

  ghost predicate Refillable(r: Ring, added: seq<Block>, k: nat) {
    && Valid(r) && Filling(r) == 0 && k <= |added| && |Contents(r.slots)| + |added| - k <= N * M
    && r.head + |added| - k < HALF
  }

  lemma {:induction false} RefillWhole(r: Ring, added: seq<Block>, k: nat)
    requires Refillable(r, added, k) && (|added| - k) % T == 0
    ensures Refill(r, added, k).Done? && Valid(Refill(r, added, k).ring) && Filling(Refill(r, added, k).ring) == 0
    ensures Contents(Refill(r, added, k).ring.slots) == Contents(r.slots) + multiset(added[k..])
    decreases |added| - k
  {
    if k < |added| {
      FullOnlyWithAllBlocks(r);
      RoundDone(r, added, k);
      WholeBatches(|added| - k - T);
      RefillWhole(Round(r, added, k), added, k + T);
      RestSplits(added, k);
    } else {
      assert added[k..] == [];
    }
  }

  lemma {:induction false} RefillBroken(r: Ring, added: seq<Block>, k: nat)
    requires Refillable(r, added, k) && (|added| - k) % T != 0
    ensures Refill(r, added, k).OutOfRange?
    decreases |added| - k
  {
    FullOnlyWithAllBlocks(r);
    if k + T <= |added| {
      RoundDone(r, added, k);
      WholeBatches(|added| - k - T);
      RefillBroken(Round(r, added, k), added, k + T);
    }
  }

  /** From an empty head slot on, a refill hands over batch after batch and ends well exactly if the rest of the new
      blocks makes whole batches. */
  lemma RefillFromEmpty(r: Ring, added: seq<Block>, k: nat)
    requires Refillable(r, added, k)
    ensures Refill(r, added, k).Done? <==> (|added| - k) % T == 0
    ensures (|added| - k) % T == 0 ==>
      && Valid(Refill(r, added, k).ring) && Filling(Refill(r, added, k).ring) == 0
      && Contents(Refill(r, added, k).ring.slots) == Contents(r.slots) + multiset(added[k..])
    ensures (|added| - k) % T != 0 ==> Refill(r, added, k).OutOfRange?
  {
    if (|added| - k) % T == 0 {
      RefillWhole(r, added, k);
    } else {
      RefillBroken(r, added, k);
    }
  }

  /** A refill moves the head by its batches. */
  lemma {:induction false} RefillMoves(r: Ring, added: seq<Block>, k: nat)
    requires Valid(r) && Filling(r) == 0 && k <= |added| && |Contents(r.slots)| + |added| - k <= N * M
    requires r.head + |added| - k < HALF && Refill(r, added, k).Done?
    ensures T * Refill(r, added, k).ring.head == T * r.head + |added| - k && Refill(r, added, k).ring.tail == r.tail
    decreases |added| - k
  {
    if k < |added| {
      FullOnlyWithAllBlocks(r);
      RoundDone(r, added, k);
      RefillMoves(Round(r, added, k), added, k + T);
    }
  }

  /** A refill stays inside its array of new blocks if and only if it begins at an empty head slot; it never waits. */
  lemma RefillInRange(r: Ring, added: seq<Block>)
    requires Valid(r) && |added| == M && |Contents(r.slots)| + M <= N * M && r.head + M < HALF
    ensures Refill(r, added, 0).Done? <==> HeadSlot(r).n == 0
    ensures Refill(r, added, 0).OutOfRange? <==> HeadSlot(r).n != 0
    ensures Refill(r, added, 0).Done? ==>
      && Valid(Refill(r, added, 0).ring)
      && Contents(Refill(r, added, 0).ring.slots) == Contents(r.slots) + multiset(added)
      && Refill(r, added, 0).ring.head == r.head + M / T && Refill(r, added, 0).ring.tail == r.tail
  {
    FullOnlyWithAllBlocks(r);
    var n := HeadSlot(r).n;
    if n == 0 {
      RefillFromEmpty(r, added, 0);
      RefillMoves(r, added, 0);
      assert added[0..] == added;
    } else {
      RefillFromPartial(r, added);
    }
  }

  lemma PartialRest(n: nat)
    requires 0 < n < T
    ensures (M - (T - n)) % T == n
  {
  }

  lemma RefillFromPartial(r: Ring, added: seq<Block>)
    requires Pushable(r) && |added| == M && |Contents(r.slots)| + M <= N * M && r.head + M < HALF
    requires HeadSlot(r).n != 0
    ensures Refill(r, added, 0).OutOfRange?
  {
    var k := T - HeadSlot(r).n;
    RoundDone(r, added, 0);
    PartialRest(HeadSlot(r).n);
    RefillRest(Round(r, added, 0), added, k);
  }

  lemma RefillRest(r: Ring, added: seq<Block>, k: nat)
    requires Valid(r) && Filling(r) == 0 && k < |added| == M && (M - k) % T != 0
    requires |Contents(r.slots)| + M - k <= N * M && r.head + M - k < HALF
    ensures Refill(r, added, k).OutOfRange?
  {
    RefillFromEmpty(r, added, k);
  }

  lemma UnfilledIsValid()
    ensures Valid(Unfilled()) && Contents(Unfilled().slots) == multiset{}
  {
    NothingInside(Unfilled().slots);
    forall k | 0 <= k < K
      ensures SlotOk(Unfilled(), k)
    {
    }
  }

  lemma {:induction false} NothingInside(slots: seq<Slot>)
    requires forall i :: 0 <= i < |slots| ==> slots[i].blocks == []
    ensures Contents(slots) == multiset{}
  {
    if slots != [] {
      NothingInside(slots[1..]);
    }
  }

  // ----- runs -----

  datatype State = State(
    ring: Ring,
    refills: nat,
    // history
    outside: multiset<Block>,    // popped and not pushed back
    all: multiset<Block>)        // every block there is

  ghost predicate Init(s: State) {
    s == State(Unfilled(), 0, multiset{}, multiset{})
  }

  datatype Step = Push(b: Block) | Pop | Allocate(added: seq<Block>)

  /** There are fewer hand-overs than a half word counts; a refill begins at an empty head slot. */
  ghost predicate Enabled(s: State, step: Step) {
    && |s.ring.slots| == K && s.ring.head + M < HALF
    && match step
       case Push(b) => b in s.outside
       case Pop => true
       case Allocate(added) =>
         s.refills < N && HeadSlot(s.ring).n == 0 && |added| == M && Distinct(added)
           && forall b :: b in added ==> b !in s.all
  }

  ghost function Do(s: State, step: Step): State
    requires Enabled(s, step)
  {
    match step
    case Push(b) =>
      if HeadSlot(s.ring).n == T then s   // tries again
      else s.(ring := Pushed(s.ring, b), outside := s.outside - multiset{b})
    case Pop => s.(ring := Popped(s.ring).0, outside := s.outside + multiset(Popped(s.ring).1))
    case Allocate(added) =>
      s.(ring := if Refill(s.ring, added, 0).Done? then Refill(s.ring, added, 0).ring else s.ring,
         refills := s.refills + 1, all := s.all + multiset(added))
  }

  ghost predicate Inv(s: State) {
    && Valid(s.ring) && Contents(s.ring.slots) + s.outside == s.all
    && s.refills <= N && |s.all| == M * s.refills && forall b :: s.all[b] <= 1
  }

  /** A thread that holds a block finds room for it: K slots of T blocks are as many as there are blocks. */
  lemma OutsideLeavesRoom(s: State, b: Block)
    requires Inv(s) && b in s.outside
    ensures |Contents(s.ring.slots)| < N * M
  {
    assert |Contents(s.ring.slots) + s.outside| == |Contents(s.ring.slots)| + |s.outside|;
    assert s.outside == multiset{b} + (s.outside - multiset{b});
  }

  lemma AllocateKeepsInv(s: State, added: seq<Block>)
    requires Inv(s) && Enabled(s, Allocate(added))
    ensures Inv(Do(s, Allocate(added)))
  {
    assert |Contents(s.ring.slots) + s.outside| == |Contents(s.ring.slots)| + |s.outside|;
    RefillInRange(s.ring, added);
    var all' := s.all + multiset(added);
    assert |all'| == |s.all| + |added|;
    forall b
      ensures all'[b] <= 1
    {
      DistinctCounts(added, b);
      assert b in added <==> b in multiset(added);
    }
  }

  lemma PushKeepsInv(s: State, b: Block)
    requires Inv(s) && Enabled(s, Push(b))
    ensures Inv(Do(s, Push(b)))
  {
    OutsideLeavesRoom(s, b);
    FullOnlyWithAllBlocks(s.ring);
    PushKeepsValid(s.ring, b);
    assert Contents(s.ring.slots) + multiset{b} + (s.outside - multiset{b}) == Contents(s.ring.slots) + s.outside;
  }

  lemma PopKeepsInv(s: State)
    requires Inv(s) && Enabled(s, Pop)
    ensures Inv(Do(s, Pop))
  {
    if s.ring.head != s.ring.tail {
      PopKeepsValid(s.ring);
    }
  }

  /** Every push, pop and refill keeps the invariant. */
  lemma StepKeepsInv(s: State, step: Step)
    requires Inv(s) && Enabled(s, step)
    ensures Inv(Do(s, step))
  {
    match step {
      case Push(b) =>
        PushKeepsInv(s, b);
      case Pop =>
        PopKeepsInv(s);
      case Allocate(added) => AllocateKeepsInv(s, added);
    }
  }

  ghost predicate StepOf(s: State, s': State) {
    exists step :: Enabled(s, step) && s' == Do(s, step)
  }

  ghost predicate StepAt(run: seq<State>, i: nat)
    requires i + 1 < |run|
  {
    StepOf(run[i], run[i + 1])
  }

  ghost predicate Run(run: seq<State>) {
    |run| >= 1 && Init(run[0]) && forall i :: 0 <= i < |run| - 1 ==> StepAt(run, i)
  }

  lemma InitHolds(s: State)
    requires Init(s)
    ensures Inv(s)
  {
    UnfilledIsValid();
  }

  lemma StepAtKeepsInv(run: seq<State>, i: nat)
    requires Run(run) && i + 1 < |run| && Inv(run[i])
    ensures Inv(run[i + 1])
  {
    assert StepAt(run, i);
    var step :| Enabled(run[i], step) && run[i + 1] == Do(run[i], step);
    StepKeepsInv(run[i], step);
  }

  lemma {:induction false} RunKeepsInv(run: seq<State>, i: nat)
    requires Run(run) && i < |run|
    ensures Inv(run[i])
  {
    if i == 0 {
      InitHolds(run[0]);
    } else {
      RunKeepsInv(run, i - 1);
      StepAtKeepsInv(run, i - 1);
    }
  }

  /** No block is lost or duplicated: each is once in the ring or once outside. */
  lemma BlocksConserved(run: seq<State>, i: nat, b: Block)
    requires Run(run) && i < |run|
    ensures Contents(run[i].ring.slots)[b] + run[i].outside[b] == run[i].all[b] <= 1
  {
    RunKeepsInv(run, i);
    assert (Contents(run[i].ring.slots) + run[i].outside)[b] == run[i].all[b];
  }

  /** A push never finds the head slot full. */
  lemma PushNeverWaits(run: seq<State>, i: nat, b: Block)
    requires Run(run) && i < |run| && b in run[i].outside
    ensures |run[i].ring.slots| == K && HeadSlot(run[i].ring).n < T
  {
    RunKeepsInv(run, i);
    OutsideLeavesRoom(run[i], b);
    FullOnlyWithAllBlocks(run[i].ring);
  }

  /** Handed-over slots hold a batch each, counted right, and a pop yields a whole batch or nothing. */
  lemma BatchesAreWhole(run: seq<State>, i: nat, k: nat)
    requires Run(run) && i < |run|
    ensures |run[i].ring.slots| == K
    ensures run[i].ring.tail <= k < run[i].ring.tail + K ==>
      run[i].ring.slots[k % K].n == |run[i].ring.slots[k % K].blocks| <= T
    ensures run[i].ring.tail <= k < run[i].ring.head ==> |run[i].ring.slots[k % K].blocks| == T
    ensures |Popped(run[i].ring).1| == if run[i].ring.head == run[i].ring.tail then 0 else T
  {
    RunKeepsInv(run, i);
    var r := run[i].ring;
    if r.tail <= k < r.tail + K {
      assert SlotOk(r, k);
    }
    if r.head != r.tail {
      PopShrinks(r);
    }
  }

  // ----- a refill that leaves its array -----

  /** A ring whose every batch has been taken. */
  ghost predicate Drained(s: State, h: nat) {
    Inv(s) && s.ring.head == s.ring.tail == h && HeadSlot(s.ring).n == 0 && s.outside == s.all && s.refills == 1
  }

  /** Pops until k batches are left. */
  ghost predicate Draining(s: State, k: nat) {
    && Inv(s) && s.ring.head == M / T && s.ring.tail + k == s.ring.head && Filling(s.ring) == 0 && s.refills == 1
  }

  lemma AllocateFills(s: State, added: seq<Block>)
    requires Init(s) && |added| == M && Distinct(added)
    ensures Enabled(s, Allocate(added)) && Draining(Do(s, Allocate(added)), M / T)
    ensures Do(s, Allocate(added)).all == multiset(added)
  {
    InitHolds(s);
    assert HeadSlot(s.ring).n == 0;
    AllocateMoves(s, added);
  }

  lemma AllocateMoves(s: State, added: seq<Block>)
    requires Inv(s) && Enabled(s, Allocate(added)) && |s.all| == 0
    ensures Do(s, Allocate(added)).ring.head == s.ring.head + M / T && Do(s, Allocate(added)).ring.tail == s.ring.tail
    ensures Inv(Do(s, Allocate(added))) && Filling(Do(s, Allocate(added)).ring) == 0
  {
    StepKeepsInv(s, Allocate(added));
    assert |Contents(s.ring.slots) + s.outside| == |Contents(s.ring.slots)| + |s.outside|;
    RefillInRange(s.ring, added);
    assert |Contents(s.ring.slots) + multiset(added)| == |Contents(s.ring.slots)| + |added|;
  }

  lemma PopDrains(s: State, k: nat)
    requires Draining(s, k + 1)
    ensures Enabled(s, Pop) && Draining(Do(s, Pop), k) && Do(s, Pop).all == s.all
  {
    StepKeepsInv(s, Pop);
    PopMoves(s.ring);
    PopFilling(s.ring);
  }

  lemma NothingLeft(s: State)
    requires Draining(s, 0)
    ensures Drained(s, M / T)
  {
    FullOnlyWithAllBlocks(s.ring);
    assert |Contents(s.ring.slots)| == 0;
    assert Contents(s.ring.slots) == multiset{};
  }

  /** One block comes back, and the next refill begins at a head slot that is not empty. */
  lemma PushThenRefill(s: State, b: Block)
    requires Drained(s, M / T) && b in s.all
    ensures Enabled(s, Push(b)) && Inv(Do(s, Push(b)))
    ensures
      var r := Do(s, Push(b)).ring;
      && r.head == r.tail == M / T && HeadSlot(r).n == 1
      && forall added: seq<Block> :: |added| == M ==> Refill(r, added, 0).OutOfRange?
  {
    StepKeepsInv(s, Push(b));
    OutsideLeavesRoom(s, b);
    FullOnlyWithAllBlocks(s.ring);
    PushMoves(s.ring, b);
    PushGrows(s.ring, b);
    var r := Do(s, Push(b)).ring;
    forall added: seq<Block> | |added| == M
      ensures Refill(r, added, 0).OutOfRange?
    {
      RefillInRange(r, added);
    }
  }

  lemma RunGoesOn(run: seq<State>, step: Step)
    requires Run(run) && Enabled(run[|run| - 1], step)
    ensures Run(run + [Do(run[|run| - 1], step)])
  {
    var more := run + [Do(run[|run| - 1], step)];
    forall i | 0 <= i < |more| - 1
      ensures StepAt(more, i)
    {
      if i < |run| - 1 {
        assert StepAt(run, i);
      } else {
        assert StepOf(run[i], more[i + 1]);
      }
    }
  }

  lemma FirstAllocation(added: seq<Block>) returns (run: seq<State>)
    requires |added| == M && Distinct(added)
    ensures Run(run) && |run| == 2 && Draining(run[1], M / T) && run[1].all == multiset(added)
  {
    var s := State(Unfilled(), 0, multiset{}, multiset{});
    AllocateFills(s, added);
    RunGoesOn([s], Allocate(added));
    run := [s] + [Do(s, Allocate(added))];
  }

  lemma PopOnce(run: seq<State>, k: nat) returns (more: seq<State>)
    requires Run(run) && Draining(run[|run| - 1], k + 1)
    ensures Run(more) && |more| == |run| + 1 && Draining(more[|run|], k) && more[|run|].all == run[|run| - 1].all
  {
    PopDrains(run[|run| - 1], k);
    RunGoesOn(run, Pop);
    more := run + [Do(run[|run| - 1], Pop)];
  }

  lemma {:induction false} PopAll(run: seq<State>, k: nat) returns (more: seq<State>)
    requires Run(run) && Draining(run[|run| - 1], k)
    ensures Run(more) && |more| == |run| + k && Draining(more[|more| - 1], 0)
    ensures more[|more| - 1].all == run[|run| - 1].all
    decreases k
  {
    more := run;
    if k > 0 {
      more := PopOnce(run, k - 1);
      more := PopAll(more, k - 1);
    }
  }

  /** An example: the first blocks are allocated, all four batches are taken and one block comes back. Any refill then
      leaves its array. */
  lemma RefillOutOfRange(added: seq<Block>) returns (run: seq<State>)
    requires |added| == M && Distinct(added)
    ensures Run(run) && |run| == 7 && |run[6].ring.slots| == K
    ensures run[6].ring.head == run[6].ring.tail == M / T && HeadSlot(run[6].ring).n == 1
    ensures forall more: seq<Block> :: |more| == M ==> Refill(run[6].ring, more, 0).OutOfRange?
  {
    run := FirstAllocation(added);
    run := PopAll(run, M / T);
    var s := run[5];
    NothingLeft(s);
    assert added[0] in multiset(added);
    PushThenRefill(s, added[0]);
    RunGoesOn(run, Push(added[0]));
    run := run + [Do(s, Push(added[0]))];
  }
}

/** The submission ring shared with the kernel: entries, an index array, and 32-bit positions that wrap. */
module SubmissionRing {

  type Op = nat

  const U32 := 0x1_0000_0000

  /** What the operation filled in, and what the queue added for the completion to name it by. */
  datatype Sqe = Sqe(prepared: Op, userData: Op)

  datatype Ring = Ring(head: nat, tail: nat, indices: seq<nat>, sqes: seq<Sqe>)

  /** The kernel's ring sizes are powers of two, so that masking a position is taking its remainder. */
  predicate Size(n: nat) {
    0 < n < U32 && U32 % n == 0
  }

  predicate Shape(ring: Ring) {
    |ring.indices| == |ring.sqes| && Size(|ring.sqes|)
  }

  function Minus(a: nat, b: nat): nat {
    (a - b) % U32
  }

  function Min(a: nat, b: nat): nat {
    if a < b then a else b
  }

  /** The operation fills the entry at the position. */
  function Prepared(ring: Ring, tail: nat, op: Op): Ring
    requires Shape(ring)
  {
    var m := tail % |ring.sqes|;
    ring.(sqes := ring.sqes[m := ring.sqes[m].(prepared := op)])
  }

  /** The entry is named and entered in the index array. */
  function Placed(ring: Ring, tail: nat, op: Op): (r: Ring)
    requires Shape(ring)
    ensures Shape(r) && |r.sqes| == |ring.sqes|
  {
    var m := tail % |ring.sqes|;
    ring.(sqes := ring.sqes[m := Sqe(op, op)], indices := ring.indices[m := m])
  }

  /** The room that a call to submit sees. */
  function Room(ring: Ring, max: nat): nat
    requires Shape(ring)
  {
    Min(max, Minus(|ring.sqes|, Minus(ring.tail, ring.head)))
  }

  /** Stopped operations prepare the same entry one after another, and it is not published. */
  function PreparedLast(ring: Ring, tail: nat, ops: seq<Op>): (r: Ring)
    requires Shape(ring)
    ensures Shape(r) && |r.sqes| == |ring.sqes|
  {
    if ops == [] then ring else Prepared(ring, tail, ops[|ops| - 1])
  }

  lemma PreparedNext(ring: Ring, tail: nat, ops: seq<Op>, op: Op)
    requires Shape(ring)
    ensures Prepared(PreparedLast(ring, tail, ops), tail, op) == PreparedLast(ring, tail, ops + [op])
  {
    var m := tail % |ring.sqes|;
    assert PreparedLast(ring, tail, ops).sqes[m := Sqe(op, ring.sqes[m].userData)]
      == ring.sqes[m := Sqe(op, ring.sqes[m].userData)];
  }

  lemma PreparedPlaced(ring: Ring, tail: nat, op: Op)
    requires Shape(ring)
    ensures Placed(Prepared(ring, tail, op), tail, op) == Placed(ring, tail, op)
  {
    var m := tail % |ring.sqes|;
    assert Prepared(ring, tail, op).sqes[m := Sqe(op, op)] == ring.sqes[m := Sqe(op, op)];
  }

  /** All of a list placed from a position on. */
  function PlacedAll(ring: Ring, tail: nat, ops: seq<Op>): (r: Ring)
    requires Shape(ring)
    ensures Shape(r) && |r.sqes| == |ring.sqes| && r.head == ring.head && r.tail == ring.tail
    decreases |ops|
  {
    if ops == [] then ring
    else Placed(PlacedAll(ring, tail, ops[..|ops| - 1]), (tail + |ops| - 1) % U32, ops[|ops| - 1])
  }

  /** Entries a remainder apart from the new ones are left alone; the new ones are where the positions say. */
  lemma {:induction false} PlacedAllAt(ring: Ring, tail: nat, ops: seq<Op>, i: nat)
    requires Shape(ring) && |ops| <= |ring.sqes| && i < |ring.sqes|
    ensures
      var r := PlacedAll(ring, tail % U32, ops);
      var m := (tail + i) % |ring.sqes|;
      if i < |ops| then r.indices[m] == m && r.sqes[m] == Sqe(ops[i], ops[i])
      else r.indices[m] == ring.indices[m] && r.sqes[m] == ring.sqes[m]
    decreases |ops|
  {
    if ops != [] {
      var n := |ops| - 1;
      PlacedAllAt(ring, tail, ops[..n], i);
      MaskOfSum(tail, n, |ring.sqes|);
      if i != n {
        OtherSlots(tail, i, n, |ring.sqes|);
      }
    }
  }

  // ----- arithmetic -----

  /** A remainder by the ring's size survives the wrap of the position. */
  lemma MaskOfWrapped(a: nat, n: nat)
    requires Size(n)
    ensures a % U32 % n == a % n
  {
    var q, k := a / U32, U32 / n;
    assert a == q * U32 + a % U32;
    assert U32 == k * n;
    assert q * U32 == (q * k) * n;
    RemainderOfSum(q * k, a % U32, n);
  }

  lemma MultipleBounds(c: int, n: int)
    requires n >= 0
    ensures c >= 1 ==> c * n >= n
    ensures c <= -1 ==> c * n <= -n
  {
    assert c * n == (c - 1) * n + n;
    assert c * n == (c + 1) * n - n;
  }

  lemma NextPosition(a: nat)
    ensures (a % U32 + 1) % U32 == (a + 1) % U32
  {
  }

  lemma RemainderOfSum(q: nat, r: nat, n: nat)
    requires n > 0
    ensures (q * n + r) % n == r % n
  {
    var a, b := (q * n + r) / n, r / n;
    assert (a - q - b) * n == r % n - (q * n + r) % n;
    MultipleBounds(a - q - b, n);
  }

  lemma MaskOfSum(tail: nat, i: nat, n: nat)
    requires Size(n)
    ensures (tail % U32 + i) % U32 % n == (tail + i) % n
  {
    assert (tail % U32 + i) % U32 == (tail + i) % U32;
    MaskOfWrapped(tail + i, n);
  }

  /** Positions less than one turn apart use different entries. */
  lemma OtherSlots(tail: nat, i: nat, j: nat, n: nat)
    requires n > 0 && i < n && j < n && i != j
    ensures (tail + i) % n != (tail + j) % n
  {
    var a, b := (tail + i) / n, (tail + j) / n;
    assert (a - b) * n == i - j - ((tail + i) % n - (tail + j) % n);
    MultipleBounds(a - b, n);
  }

  lemma PlacedAllNext(ring: Ring, tail: nat, ops: seq<Op>, r: nat)
    requires Shape(ring) && r < |ops|
    ensures PlacedAll(ring, tail, ops[..r + 1]) == Placed(PlacedAll(ring, tail, ops[..r]), (tail + r) % U32, ops[r])
  {
    assert ops[..r + 1][..r] == ops[..r];
  }

  class SubmissionQueue {
    var head: nat               // moved by the kernel
    var tail: nat
    const indices: array<nat>
    const sqes: array<Sqe>

    ghost function Value(): Ring
      reads this, indices, sqes
    {
      Ring(head, tail, indices[..], sqes[..])
    }

    constructor (n: nat)
      requires Size(n)
      ensures fresh(indices) && fresh(sqes) && Shape(Value()) && sqes.Length == n && head == tail == 0
    {
      head, tail := 0, 0;
      indices := new nat[n](i => 0);
      sqes := new Sqe[n](i => Sqe(0, 0));
    }

    method Prepare(t: nat, op: Op)
      requires Shape(Value())
      modifies sqes
      ensures Value() == Prepared(old(Value()), t, op)
    {
      var m := t % sqes.Length;
      sqes[m] := sqes[m].(prepared := op);
    }

    method Place(t: nat, op: Op)
      requires Shape(Value()) && sqes[t % sqes.Length].prepared == op
      modifies indices, sqes
      ensures Value() == Placed(old(Value()), t, op)
    {
      var m := t % sqes.Length;
      sqes[m] := sqes[m].(userData := op);
      indices[m] := m;
    }

    /** The room between tail and head, and no more than max. */
    method FindRoom(max: nat) returns (room: nat)
      requires Shape(Value())
      ensures room == Room(Value(), max)
    {
      var n := Minus(tail, head);
      room := Min(max, Minus(sqes.Length, n));
    }

    /** Publishes nothing yet; says where the next operation goes. */
    method PlaceNext(t: nat, op: Op, ghost start: Ring, ghost from: nat, ghost queue: seq<Op>,
                     ghost r: nat) returns (next: nat)
      requires Shape(start) && r < |queue| && op == queue[r] && t == (from + r) % U32
      requires Value() == Prepared(PlacedAll(start, from, queue[..r]), t, op)
      modifies indices, sqes
      ensures next == (from + r + 1) % U32 && Value() == PlacedAll(start, from, queue[..r + 1])
    {
      Place(t, op);
      next := (t + 1) % U32;
      PreparedPlaced(PlacedAll(start, from, queue[..r]), t, op);
      PlacedAllNext(start, from, queue, r);
      NextPosition(from + r);
    }

    /** One operation, the i-th of the queue, is placed or stopped. */
    method Round(t: nat, op: Op, stop: bool, ghost start: Ring, ghost queue: seq<Op>, ghost i: nat) returns (next: nat)
      requires Shape(start) && i < |queue| && op == queue[i] && At(start, queue, stop, i, Value(), t)
      modifies indices, sqes
      ensures At(start, queue, stop, i + 1, Value(), next)
    {
      Prepare(t, op);
      if stop {
        next := t;
        assert queue[..i] + [op] == queue[..i + 1];
        PreparedNext(start, start.tail, queue[..i], op);
      } else {
        next := PlaceNext(t, op, start, start.tail, queue, i);
      }
    }

    /** Moves operations from the front of the queue into the ring, or stops them all, while there is room. The
        operations come in the order of the queue; a stopped one uses up no entry. */
    method Submit(queue: seq<Op>, max: nat, stop: bool) returns (r: nat, rest: seq<Op>, stopped: seq<Op>)
      requires Shape(Value()) && head < U32 && tail < U32
      modifies this`tail, indices, sqes
      ensures stop ==> r == 0 && tail == old(tail)
      ensures stop && Room(old(Value()), max) > 0 ==> stopped == queue && rest == []
      ensures stop && Room(old(Value()), max) == 0 ==> stopped == [] && rest == queue
      ensures !stop ==> r == Min(|queue|, Room(old(Value()), max)) && queue == queue[..r] + rest && stopped == []
      ensures !stop ==>
        Value() == PlacedAll(old(Value()), old(tail), queue[..r]).(tail := (old(tail) + r) % U32)
      ensures stop ==> Value() == PreparedLast(old(Value()), old(tail), stopped)
    {
      var t := tail;
      r := 0;
      var room := FindRoom(max);
      rest, stopped := queue, [];
      ghost var i := 0;
      AtBegin(Value(), queue, stop);
      while rest != [] && r < room
        invariant i <= |queue| && At(old(Value()), queue, stop, i, Value(), t) && tail == old(tail)
        invariant rest == queue[i..] && (room == 0 ==> i == 0)
        invariant if stop then r == 0 && stopped == queue[..i] else r == i <= room && stopped == []
        decreases |rest|
      {
        var op := rest[0];
        rest := rest[1..];
        t := Round(t, op, stop, old(Value()), queue, i);
        if stop {
          stopped := stopped + [op];
        } else {
          r := r + 1;
        }
        i := i + 1;
      }
      tail := t;
    }
  }

  /** The ring after i operations of a call that began at `start`, and where the next one goes. */
  ghost predicate At(start: Ring, queue: seq<Op>, stop: bool, i: nat, ring: Ring, t: nat)
    requires Shape(start) && i <= |queue|
  {
    if stop then t == start.tail && ring == PreparedLast(start, start.tail, queue[..i])
    else t == (start.tail + i) % U32 && ring == PlacedAll(start, start.tail, queue[..i])
  }

  lemma AtBegin(start: Ring, queue: seq<Op>, stop: bool)
    requires Shape(start) && start.tail < U32
    ensures At(start, queue, stop, 0, start, start.tail)
  {
  }
}

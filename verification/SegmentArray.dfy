/** An array that grows by segments of doubling size and never moves an element. */
module SegmentArray {
  import opened Options

  type Value = nat

  function Pow2(n: nat): (r: nat)
    ensures r > 0
  {
    if n == 0 then 1 else 2 * Pow2(n - 1)
  }

  /** The position of the highest bit: what counting leading zeros gives. */
  function Log2(x: nat): nat {
    if x <= 1 then 0 else 1 + Log2(x / 2)
  }

  function BitWidth(x: nat): nat {
    if x == 0 then 0 else Log2(x) + 1
  }

  datatype Location = Location(seg: nat, pos: nat)

  function Locate(w: nat): Location {
    var n := Log2(w + 1);
    Log2Bounds(w + 1);
    Location(n, w - (Pow2(n) - 1))
  }

  lemma {:induction false} Log2Bounds(x: nat)
    requires x > 0
    ensures Pow2(Log2(x)) <= x < 2 * Pow2(Log2(x))
  {
    if x > 1 {
      Log2Bounds(x / 2);
    }
  }

  lemma {:induction false} Pow2Monotone(a: nat, b: nat)
    requires a <= b
    ensures Pow2(a) <= Pow2(b)
  {
    if a < b {
      Pow2Monotone(a, b - 1);
    }
  }

  lemma Log2Unique(x: nat, n: nat)
    requires Pow2(n) <= x < 2 * Pow2(n)
    ensures Log2(x) == n
  {
    Log2Bounds(x);
    Pow2Below(x, Log2(x), n);
    Pow2Below(x, n, Log2(x));
  }

  lemma Pow2Below(x: nat, a: nat, b: nat)
    requires Pow2(a) <= x < 2 * Pow2(b)
    ensures a <= b
  {
    if a > b {
      Pow2Monotone(b + 1, a);
    }
  }

  /** Positions and locations correspond one to one, and the positions below a bound use the segments below its width.
      */
  lemma LocateIsBijection(w: nat, loc: Location, max: nat)
    ensures loc == Locate(w) <==> w == Pow2(loc.seg) - 1 + loc.pos && loc.pos < Pow2(loc.seg)
    ensures w < max ==> Locate(w).seg < BitWidth(max)
  {
    Log2Bounds(w + 1);
    if w == Pow2(loc.seg) - 1 + loc.pos && loc.pos < Pow2(loc.seg) {
      Log2Unique(w + 1, loc.seg);
    }
    if w < max {
      Log2Monotone(w + 1, max);
    }
  }

  lemma Log2Monotone(a: nat, b: nat)
    requires 0 < a <= b
    ensures Log2(a) <= Log2(b)
  {
    Log2Bounds(a);
    Log2Bounds(b);
    Pow2Below(b, Log2(a), Log2(b));
  }

  /** The positions of one segment follow each other, and the next segment follows the last. */
  lemma LocateInSegment(n: nat, m: nat)
    requires m < Pow2(n)
    ensures Locate(Pow2(n) - 1 + m) == Location(n, m)
  {
    LocateIsBijection(Pow2(n) - 1 + m, Location(n, m), 0);
  }

  function FoldLeft<A, V>(f: (A, V) -> A, init: A, s: seq<V>): A {
    if s == [] then init else f(FoldLeft(f, init, s[..|s| - 1]), s[|s| - 1])
  }

  lemma FoldLeftNext<A, V>(f: (A, V) -> A, init: A, s: seq<V>, k: nat)
    requires k < |s|
    ensures FoldLeft(f, init, s[..k + 1]) == f(FoldLeft(f, init, s[..k]), s[k])
  {
    assert s[..k + 1][..k] == s[..k];
  }

  /** The array as one thread uses it. */
  class Segments {
    const table: array<array?<Value>>
    const max: nat
    var count: nat
    ghost var items: seq<Value>

    ghost predicate SegmentOk(n: nat)
      reads this, table
      requires n < table.Length
    {
      table[n] != null ==> table[n].Length == Pow2(n)
    }

    /** Segments are there as far as they are needed, of their sizes and apart; the items are where they belong. */
    ghost predicate Valid()
      reads this, table, set n | 0 <= n < table.Length && table[n] != null :: table[n]
    {
      && table.Length == BitWidth(max) && count == |items| <= max
      && (forall n :: 0 <= n < table.Length ==> SegmentOk(n))
      && (forall a, b :: 0 <= a < b < table.Length && table[a] != null ==> table[a] != table[b])
      && forall w :: 0 <= w < |items| ==> ItemOk(w)
    }

    ghost predicate ItemOk(w: nat)
      reads this, table, set n | 0 <= n < table.Length && table[n] != null :: table[n]
      requires w < |items|
    {
      var loc := Locate(w);
      && loc.seg < table.Length && table[loc.seg] != null && loc.pos < table[loc.seg].Length
      && table[loc.seg][loc.pos] == items[w]
    }

    constructor (max: nat)
      ensures Valid() && items == [] && this.max == max && fresh(table)
    {
      this.max := max;
      table := new array?<Value>[BitWidth(max)](i => null);
      count, items := 0, [];
    }

    /** The segment, allocated if it is not there. */
    method Segment(n: nat) returns (seg: array<Value>)
      requires Valid() && n < table.Length
      modifies table
      ensures Valid() && seg == table[n] && seg.Length == Pow2(n)
      ensures old(table[n]) != null ==> table[..] == old(table[..])
      ensures old(table[n]) == null ==> fresh(seg)
      ensures forall k :: 0 <= k < table.Length && k != n ==> table[k] == old(table[k])
    {
      if table[n] != null {
        assert SegmentOk(n);
        return table[n];
      }
      seg := new Value[Pow2(n)];
      table[n] := seg;
      forall w | 0 <= w < |items|
        ensures ItemOk(w)
      {
        assert old(ItemOk(w));
      }
      forall k | 0 <= k < table.Length
        ensures SegmentOk(k)
      {
        assert old(SegmentOk(k));
      }
    }

    method PushBack(v: Value) returns (index: nat)
      requires Valid() && count < max
      modifies this`count, this`items, table, set n | 0 <= n < table.Length && table[n] != null :: table[n]
      ensures Valid() && index == old(|items|) && items == old(items) + [v]
    {
      index := count;
      var loc := Locate(index);
      LocateIsBijection(index, loc, max);
      var seg := Segment(loc.seg);
      seg[loc.pos] := v;
      count := index + 1;
      items := items + [v];
      forall w | 0 <= w < |items|
        ensures ItemOk(w)
      {
        if w < index {
          assert old(ItemOk(w));
          LocateIsBijection(w, loc, max);
        }
      }
      forall k | 0 <= k < table.Length
        ensures SegmentOk(k)
      {
        assert old(SegmentOk(k));
      }
    }

    method FoldSegment<A>(f: (A, Value) -> A, ghost init: A, r0: A, seg: array<Value>, ghost n: nat, ghost w: nat,
                          mm: nat)
      returns (r: A)
      requires Valid() && w == Pow2(n) - 1 && w + mm <= |items| && mm <= Pow2(n) && n < table.Length && seg == table[n]
      requires r0 == FoldLeft(f, init, items[..w])
      ensures r == FoldLeft(f, init, items[..w + mm])
    {
      r := r0;
      assert SegmentOk(n);
      for m := 0 to mm
        invariant r == FoldLeft(f, init, items[..w + m])
      {
        LocateInSegment(n, m);
        assert ItemOk(w + m);
        FoldLeftNext(f, init, items, w + m);
        r := f(r, seg[m]);
      }
    }

    /** Segment by segment, but in effect the left fold over the items. */
    method FoldInplace<A>(f: (A, Value) -> A, init: A) returns (r: A)
      requires Valid()
      ensures r == FoldLeft(f, init, items)
    {
      r := init;
      var w, n := 0, 0;
      while w < count
        invariant w <= count && (w < count ==> w == Pow2(n) - 1)
        invariant r == FoldLeft(f, init, items[..w])
        decreases count - w
      {
        LocateInSegment(n, 0);
        assert ItemOk(w);
        var seg: array<Value> := table[n];
        var mm := if Pow2(n) < count - w then Pow2(n) else count - w;
        r := FoldSegment(f, init, r, seg, n, w, mm);
        w := w + mm;
        n := n + 1;
      }
      assert items[..w] == items;
    }
  }
}

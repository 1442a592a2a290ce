/** Positions of a complete binary tree, addressed by the bits of the size.
    Position 1 is the root; the children of position i are 2*i and 2*i + 1. */
module PathBits {

  /** The least power of two that is not below x (see BitCeilIsLeast). */
  function BitCeil(x: nat): nat {
    if x <= 1 then 1 else 2 * BitCeil((x + 1) / 2)
  }

  function PathBitMask(n: nat): nat {
    BitCeil(n + 1) / 4
  }

  predicate IsPowerOfTwo(m: nat) {
    m == 1 || (m > 1 && m % 2 == 0 && IsPowerOfTwo(m / 2))
  }

  predicate IsMask(mask: nat) {
    mask == 0 || IsPowerOfTwo(mask)
  }

  /** k without the bits that lie below the single bit of `mask`. */
  function ShiftDown(k: nat, mask: nat): nat {
    if mask <= 1 then k else ShiftDown(k / 2, mask / 2)
  }

  /** The test `(mask & k) != 0` for a mask of one bit. */
  predicate HasBit(k: nat, mask: nat) {
    ShiftDown(k, mask) % 2 == 1
  }

  /** The position reached on the way to position k while `mask` is still to be read. */
  function Prefix(k: nat, mask: nat): nat {
    if mask == 0 then k else ShiftDown(k, mask) / 2
  }

  lemma {:induction false} BitCeilIsLeast(x: nat, m: nat)
    ensures IsPowerOfTwo(BitCeil(x)) && x <= BitCeil(x)
    ensures IsPowerOfTwo(m) && x <= m ==> BitCeil(x) <= m
  {
    if x > 1 {
      BitCeilIsLeast((x + 1) / 2, m / 2);
    }
  }

  lemma {:induction false} ShiftOnce(k: nat, mask: nat)
    requires IsPowerOfTwo(mask)
    ensures ShiftDown(k, 2 * mask) == ShiftDown(k, mask) / 2
  {
    assert 2 * mask / 2 == mask;
    if mask > 1 {
      ShiftOnce(k / 2, mask / 2);
      assert 2 * (mask / 2) == mask;
    }
  }

  /** Reading one bit of k moves to the left or to the right child. */
  lemma PrefixStep(k: nat, mask: nat)
    requires IsPowerOfTwo(mask)
    ensures IsMask(mask / 2) && mask / 2 < mask
    ensures Prefix(k, mask / 2) == 2 * Prefix(k, mask) + if HasBit(k, mask) then 1 else 0
  {
    if mask > 1 {
      ShiftOnce(k, mask / 2);
      assert 2 * (mask / 2) == mask;
    }
  }

  lemma MultipleOfFour(c: nat)
    requires IsPowerOfTwo(c) && c >= 3
    ensures c % 4 == 0 && IsPowerOfTwo(c / 4)
  {
    assert IsPowerOfTwo(c / 2) && c / 2 >= 2;
    assert c / 2 / 2 == c / 4;
  }

  lemma MaskDoubles(k: nat)
    requires k >= 4
    ensures IsPowerOfTwo(PathBitMask(k / 2))
    ensures PathBitMask(k) == 2 * PathBitMask(k / 2)
  {
    var c := BitCeil(k / 2 + 1);
    assert (k + 2) / 2 == k / 2 + 1;
    assert BitCeil(k + 1) == 2 * c;
    BitCeilIsLeast(k / 2 + 1, 1);
    MultipleOfFour(c);
  }

  /** The mask of k leaves exactly the top bit of k, which is the root. */
  lemma {:induction false} PathStart(k: nat)
    requires k >= 1
    ensures IsMask(PathBitMask(k))
    ensures Prefix(k, PathBitMask(k)) == 1
  {
    if k >= 4 {
      PathStart(k / 2);
      MaskDoubles(k);
      var m := PathBitMask(k / 2);
      assert 2 * m / 2 == m;
      assert ShiftDown(k, 2 * m) == ShiftDown(k / 2, m);
    } else if k == 1 {
      assert BitCeil(2) == 2;
    } else {
      assert BitCeil(k + 1) == 4 by { assert (k + 2) / 2 == 2; }
    }
  }

  lemma {:induction false} ShiftIsSmaller(k: nat, mask: nat)
    ensures ShiftDown(k, mask) <= k
  {
    if mask > 1 {
      ShiftIsSmaller(k / 2, mask / 2);
    }
  }

  /** Every position on the path before the last lies strictly above position k. */
  lemma PrefixInside(k: nat, mask: nat)
    requires k >= 1 && mask >= 1
    ensures Prefix(k, mask) < k
  {
    ShiftIsSmaller(k, mask);
  }

  /** One step of the walk to position k, from a position above k to its child. */
  lemma PrefixDescends(k: nat, mask: nat)
    requires k >= 1 && IsPowerOfTwo(mask) && 1 <= Prefix(k, mask)
    ensures IsMask(mask / 2) && mask / 2 < mask
    ensures Prefix(k, mask) < k && Prefix(k, mask / 2) <= k
    ensures Prefix(k, mask / 2) == if HasBit(k, mask) then 2 * Prefix(k, mask) + 1 else 2 * Prefix(k, mask)
  {
    PrefixStep(k, mask);
    PrefixInside(k, mask);
    if mask / 2 != 0 {
      PrefixInside(k, mask / 2);
    }
  }
}

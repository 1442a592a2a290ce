/** An intrusive binary heap: a complete binary tree that is held only in the
    left, right and prev links of its nodes. */
module IntrusiveHeap {
  import opened Ordering
  import opened PathBits
  import opened Sequences

  class Node<K> {
    const key: K
    var prev: Node?<K>
    var left: Node?<K>
    var right: Node?<K>

    constructor (key: K)
      ensures this.key == key && prev == null && left == null && right == null
    {
      this.key := key;
      prev, left, right := null, null, null;
    }
  }

  /** Where a pointer to a node is stored (the `_Node **` of the source). */
  datatype Slot<!K> = RootSlot | LeftOf(owner: Node<K>) | RightOf(owner: Node<K>)

  // ----- arrangements: the node at position i is arr[i - 1] -----

  ghost function At<K>(arr: seq<Node<K>>, i: int): Node?<K> {
    if 1 <= i <= |arr| then arr[i - 1] else null
  }

  ghost predicate ChildrenAt<K>(arr: seq<Node<K>>, i: int)
    requires 1 <= i <= |arr|
    reads arr`left, arr`right
  {
    arr[i - 1].left == At(arr, 2 * i) && arr[i - 1].right == At(arr, 2 * i + 1)
  }

  ghost predicate PrevAt<K>(arr: seq<Node<K>>, i: int)
    requires 1 <= i <= |arr|
    reads arr`prev
  {
    arr[i - 1].prev == At(arr, i / 2)
  }

  /** Every left and right link names the node at the child position. */
  ghost predicate LinkedDown<K>(arr: seq<Node<K>>)
    reads arr`left, arr`right
  {
    forall i :: 1 <= i <= |arr| ==> ChildrenAt(arr, i)
  }

  /** Every prev link names the parent, except at position j and just below it. */
  ghost predicate LinkedUpExcept<K>(arr: seq<Node<K>>, j: int)
    reads arr`prev
  {
    forall i :: 1 <= i <= |arr| && i != j && i / 2 != j ==> PrevAt(arr, i)
  }

  ghost predicate LinkedUp<K>(arr: seq<Node<K>>)
    reads arr`prev
  {
    forall i :: 1 <= i <= |arr| ==> PrevAt(arr, i)
  }

  /** The slot that holds the pointer to the node at position i. */
  ghost function SlotOf<K>(arr: seq<Node<K>>, i: int): Slot<K>
    requires i == 1 || 1 <= i / 2 <= |arr|
  {
    if i == 1 then RootSlot
    else if i % 2 == 0 then LeftOf(arr[i / 2 - 1])
    else RightOf(arr[i / 2 - 1])
  }

  /** The same nodes, with the same root. */
  ghost predicate Rearranged<T>(next: seq<T>, arr: seq<T>) {
    && |next| == |arr| && multiset(next) == multiset(arr) && Elements(next) == Elements(arr)
    && (|arr| > 0 ==> next[0] == arr[0])
  }

  /** The same nodes, and the first k of them in the same places. */
  ghost predicate SameFrom<T>(next: seq<T>, arr: seq<T>, k: int) {
    && |next| == |arr| && multiset(next) == multiset(arr) && Elements(next) == Elements(arr)
    && forall i :: 0 <= i < k && i < |arr| ==> next[i] == arr[i]
  }

  // ----- the heap order -----

  ghost predicate NotAbove<K>(lt: (K, K) -> bool, a: Node<K>, b: Node<K>) {
    !lt(b.key, a.key)
  }

  ghost predicate EdgeAt<K>(lt: (K, K) -> bool, arr: seq<Node<K>>, i: int)
    requires 2 <= i <= |arr|
  {
    NotAbove(lt, arr[i / 2 - 1], arr[i - 1])
  }

  ghost predicate SkipAt<K>(lt: (K, K) -> bool, arr: seq<Node<K>>, i: int)
    requires 4 <= i <= |arr|
  {
    NotAbove(lt, arr[i / 2 / 2 - 1], arr[i - 1])
  }

  ghost predicate HeapOrdered<K>(lt: (K, K) -> bool, arr: seq<Node<K>>) {
    forall i :: 2 <= i <= |arr| ==> EdgeAt(lt, arr, i)
  }

  /** In order, except that the node at j may be above its children. */
  ghost predicate SinkingAt<K>(lt: (K, K) -> bool, arr: seq<Node<K>>, j: int) {
    && (forall i :: 2 <= i <= |arr| && i / 2 != j ==> EdgeAt(lt, arr, i))
    && (j >= 2 ==> forall i :: 4 <= i <= |arr| && i / 2 == j ==> SkipAt(lt, arr, i))
  }

  /** In order, except that the node at j may be below its parent. */
  ghost predicate ClimbingAt<K>(lt: (K, K) -> bool, arr: seq<Node<K>>, j: int) {
    && (forall i :: 2 <= i <= |arr| && i != j ==> EdgeAt(lt, arr, i))
    && (j >= 2 ==> forall i :: 4 <= i <= |arr| && i / 2 == j ==> SkipAt(lt, arr, i))
  }

  ghost predicate IsMinimum<K>(lt: (K, K) -> bool, n: Node<K>, arr: seq<Node<K>>) {
    forall i :: 0 <= i < |arr| ==> NotAbove(lt, n, arr[i])
  }

  lemma NotAboveTrans<K(!new)>(lt: (K, K) -> bool, a: Node<K>, b: Node<K>, c: Node<K>)
    requires StrictWeakOrder(lt)
    requires NotAbove(lt, a, b) && NotAbove(lt, b, c)
    ensures NotAbove(lt, a, c)
  {
  }

  lemma BelowIsNotAbove<K(!new)>(lt: (K, K) -> bool, a: Node<K>, b: Node<K>)
    requires StrictWeakOrder(lt) && lt(a.key, b.key)
    ensures NotAbove(lt, a, b)
  {
  }

  /** The root of a heap is a minimum. */
  lemma {:induction false} RootIsMinimum<K(!new)>(lt: (K, K) -> bool, arr: seq<Node<K>>, i: int)
    requires StrictWeakOrder(lt) && HeapOrdered(lt, arr) && 1 <= i <= |arr|
    ensures NotAbove(lt, arr[0], arr[i - 1])
  {
    if i > 1 {
      RootIsMinimum(lt, arr, i / 2);
      assert EdgeAt(lt, arr, i);
      NotAboveTrans(lt, arr[0], arr[i / 2 - 1], arr[i - 1]);
    }
  }

  /** One climbing step: the node at j changes places with its parent. */
  lemma ClimbStep<K(!new)>(lt: (K, K) -> bool, arr: seq<Node<K>>, j: int)
    requires StrictWeakOrder(lt) && 2 <= j <= |arr| && ClimbingAt(lt, arr, j)
    requires lt(arr[j - 1].key, arr[j / 2 - 1].key)
    ensures ClimbingAt(lt, Swapped(arr, j - 1, j / 2 - 1), j / 2)
  {
    var h := j / 2;
    var next := Swapped(arr, j - 1, h - 1);
    var p, parent := arr[j - 1], arr[h - 1];
    BelowIsNotAbove(lt, p, parent);
    forall i | 2 <= i <= |next| && i != h
      ensures EdgeAt(lt, next, i)
    {
      if i != j {
        assert EdgeAt(lt, arr, i);
        if i / 2 == j {
          assert SkipAt(lt, arr, i);
        } else if i / 2 == h {
          NotAboveTrans(lt, p, parent, arr[i - 1]);
        }
      }
    }
    if h >= 2 {
      forall i | 4 <= i <= |next| && i / 2 == h
        ensures SkipAt(lt, next, i)
      {
        assert EdgeAt(lt, arr, h);
        if i != j {
          assert EdgeAt(lt, arr, i);
          NotAboveTrans(lt, arr[h / 2 - 1], parent, arr[i - 1]);
        }
      }
    }
  }

  lemma ClimbDone<K>(lt: (K, K) -> bool, arr: seq<Node<K>>, j: int)
    requires 2 <= j <= |arr| && ClimbingAt(lt, arr, j)
    requires !lt(arr[j - 1].key, arr[j / 2 - 1].key)
    ensures HeapOrdered(lt, arr)
  {
    assert EdgeAt(lt, arr, j);
  }

  /** One sinking step: the node at j changes places with its least child c. */
  lemma SinkStep<K(!new)>(lt: (K, K) -> bool, arr: seq<Node<K>>, j: int, c: int)
    requires StrictWeakOrder(lt) && 1 <= j && 2 <= c <= |arr| && c / 2 == j && SinkingAt(lt, arr, j)
    requires lt(arr[c - 1].key, arr[j - 1].key)
    requires forall i :: 2 <= i <= |arr| && i / 2 == j && i != c ==> NotAbove(lt, arr[c - 1], arr[i - 1])
    ensures SinkingAt(lt, Swapped(arr, c - 1, j - 1), c)
  {
    var next := Swapped(arr, c - 1, j - 1);
    BelowIsNotAbove(lt, arr[c - 1], arr[j - 1]);
    forall i | 2 <= i <= |next| && i / 2 != c
      ensures EdgeAt(lt, next, i)
    {
      if i == j {
        if j >= 2 {
          assert SkipAt(lt, arr, c);
        }
      } else if i / 2 == j {
        assert NotAbove(lt, arr[c - 1], arr[i - 1]);
      } else {
        assert EdgeAt(lt, arr, i);
      }
    }
    forall i | 4 <= i <= |next| && i / 2 == c
      ensures SkipAt(lt, next, i)
    {
      assert EdgeAt(lt, arr, i);
    }
  }

  lemma SinkDone<K>(lt: (K, K) -> bool, arr: seq<Node<K>>, j: int)
    requires SinkingAt(lt, arr, j)
    requires forall i :: 2 <= i <= |arr| && i / 2 == j ==> NotAbove(lt, arr[j - 1], arr[i - 1])
    requires 1 <= j <= |arr|
    ensures HeapOrdered(lt, arr)
  {
    forall i | 2 <= i <= |arr|
      ensures EdgeAt(lt, arr, i)
    {
      if i / 2 == j {
        assert NotAbove(lt, arr[j - 1], arr[i - 1]);
      }
    }
  }

  /** A prefix of a heap is a heap, and putting any node at j keeps all other edges. */
  lemma ReplacedOrder<K(!new)>(lt: (K, K) -> bool, arr: seq<Node<K>>, j: int, p: Node<K>)
    requires StrictWeakOrder(lt) && HeapOrdered(lt, arr) && 1 <= j <= |arr|
    ensures j >= 2 && lt(p.key, arr[j / 2 - 1].key) ==> ClimbingAt(lt, arr[j - 1 := p], j)
    ensures j == 1 || !lt(p.key, arr[j / 2 - 1].key) ==> SinkingAt(lt, arr[j - 1 := p], j)
  {
    var next := arr[j - 1 := p];
    forall i | 2 <= i <= |arr| && i != j && i / 2 != j
      ensures EdgeAt(lt, next, i)
    {
      assert EdgeAt(lt, arr, i);
    }
    if j >= 2 {
      var parent := arr[j / 2 - 1];
      assert EdgeAt(lt, arr, j);
      forall i | 4 <= i <= |arr| && i / 2 == j
        ensures SkipAt(lt, next, i)
        ensures lt(p.key, parent.key) ==> EdgeAt(lt, next, i)
      {
        assert EdgeAt(lt, arr, i);
        NotAboveTrans(lt, parent, arr[j - 1], arr[i - 1]);
        if lt(p.key, parent.key) {
          BelowIsNotAbove(lt, p, parent);
          NotAboveTrans(lt, p, parent, arr[i - 1]);
        }
      }
    }
  }

  class Heap<K(!new)> {
    const lt: (K, K) -> bool
    var root: Node?<K>
    var size: nat
    ghost var nodes: seq<Node<K>>  // the node at position i is nodes[i - 1]

    ghost predicate IsHeap(arr: seq<Node<K>>)
      reads this, Elements(arr)
    {
      && Distinct(arr) && LinkedDown(arr) && LinkedUp(arr)
      && root == At(arr, 1) && HeapOrdered(lt, arr)
    }

    ghost predicate Shaped()
      reads this, nodes
    {
      size == |nodes| && Formed()
    }

    ghost predicate Formed()
      reads this, nodes
    {
      && StrictWeakOrder(lt)
      && root == At(nodes, 1)
      && Distinct(nodes)
      && LinkedDown(nodes)
    }

    ghost predicate Valid()
      reads this, nodes
    {
      size == |nodes| && StrictWeakOrder(lt) && IsHeap(nodes)
    }

    constructor (lt: (K, K) -> bool)
      requires StrictWeakOrder(lt)
      ensures Valid() && nodes == [] && this.lt == lt
    {
      this.lt := lt;
      root, size := null, 0;
      nodes := [];
    }

    static ghost function Owner(pp: Slot<K>): set<Node<K>> {
      match pp
      case RootSlot => {}
      case LeftOf(n) => {n}
      case RightOf(n) => {n}
    }

    function Load(pp: Slot<K>): Node?<K>
      reads this, Owner(pp)
    {
      match pp
      case RootSlot => root
      case LeftOf(n) => n.left
      case RightOf(n) => n.right
    }

    method Store(pp: Slot<K>, v: Node?<K>)
      modifies this`root, Owner(pp)`left, Owner(pp)`right
      ensures root == if pp.RootSlot? then v else old(root)
      ensures forall n <- Owner(pp) ::
        n.left == (if pp.LeftOf? then v else old(n.left)) && n.right == (if pp.RightOf? then v else old(n.right))
    {
      match pp
      case RootSlot => root := v;
      case LeftOf(n) => n.left := v;
      case RightOf(n) => n.right := v;
    }

    method RemoveLeastLeaf() returns (p: Node<K>)
      requires Shaped() && size >= 1
      modifies this`root, nodes`left, nodes`right
      ensures p == nodes[|nodes| - 1]
      ensures LinkedDown(nodes[..|nodes| - 1]) && root == At(nodes[..|nodes| - 1], 1)
    {
      var mask := PathBitMask(size);
      PathStart(size);
      var pp: Slot<K> := RootSlot;
      var q := root;
      while mask != 0
        invariant IsMask(mask)
        invariant 1 <= Prefix(size, mask) <= size
        invariant pp == SlotOf(nodes, Prefix(size, mask))
        invariant q == At(nodes, Prefix(size, mask))
        modifies {}
        decreases mask
      {
        PrefixDescends(size, mask);
        assert ChildrenAt(nodes, Prefix(size, mask));
        if HasBit(size, mask) {
          pp := RightOf(q);
          q := q.right;
        } else {
          pp := LeftOf(q);
          q := q.left;
        }
        mask := mask / 2;
      }
      CutLast(pp);
      return q;
    }

    /** Clears the slot of the last position. */
    method CutLast(pp: Slot<K>)
      requires Formed() && |nodes| >= 1 && pp == SlotOf(nodes, |nodes|)
      modifies this`root, nodes`left, nodes`right
      ensures LinkedDown(nodes[..|nodes| - 1]) && root == At(nodes[..|nodes| - 1], 1)
    {
      Store(pp, null);
      ghost var rest, n := nodes[..|nodes| - 1], |nodes|;
      forall i | 1 <= i <= |rest|
        ensures ChildrenAt(rest, i)
      {
        assert old(ChildrenAt(nodes, i));
        assert n > 1 && i != n / 2 ==> Differ(nodes, i - 1, n / 2 - 1);
      }
    }

    static method SwapWithRightChild(parent: Node<K>, child: Node<K>)
      requires parent != child
      modifies parent`left, parent`right, child`left, child`right
      ensures parent.left == old(child.left) && parent.right == old(child.right)
      ensures child.left == old(parent.left) && child.right == parent
    {
      parent.right := child.right;
      child.right := parent;
      var tmp := parent.left;
      parent.left := child.left;
      child.left := tmp;
    }

    static method SwapWithLeftChild(parent: Node<K>, child: Node<K>)
      requires parent != child
      modifies parent`left, parent`right, child`left, child`right
      ensures parent.left == old(child.left) && parent.right == old(child.right)
      ensures child.right == old(parent.right) && child.left == parent
    {
      var tmp := parent.right;
      parent.right := child.right;
      child.right := tmp;
      parent.left := child.left;
      child.left := parent;
    }

    static ghost predicate WaitsOrNames(arr: seq<Node<K>>, c: int, px: Node?<K>, parent: Node<K>)
      reads arr`prev
    {
      1 <= c <= |arr| ==> arr[c - 1] == px || arr[c - 1].prev == parent
    }

    /** Writes through a pointer to a prev link; null stands for the local sentinel. */
    static method StorePrev(owner: Node?<K>, v: Node?<K>)
      modifies (if owner == null then {} else {owner})`prev
      ensures owner != null ==> owner.prev == v
    {
      if owner != null {
        owner.prev := v;
      }
    }

    /** What the climb keeps: the node p at j still has stale links above and below it.
        Its child px waits for its prev link, the other child already names `parent`. */
    static ghost predicate Climbing(arr: seq<Node<K>>, j: int, p: Node<K>, parent: Node<K>, px: Node?<K>)
      reads arr
    {
      && Distinct(arr) && 2 <= j <= |arr| && arr[j - 1] == p && arr[j / 2 - 1] == parent
      && LinkedDown(arr) && LinkedUpExcept(arr, j)
      && (px == null || px == At(arr, 2 * j) || px == At(arr, 2 * j + 1))
      && WaitsOrNames(arr, 2 * j, px, parent) && WaitsOrNames(arr, 2 * j + 1, px, parent)
    }

    static ghost predicate LinkedDownExcept(arr: seq<Node<K>>, h: int)
      reads Elements(arr)`left, Elements(arr)`right
    {
      forall i :: 1 <= i <= |arr| && i != h ==> ChildrenAt(arr, i)
    }

    /** The child links are right, except for the slot that should hold the node at h. */
    static ghost predicate SlotOpen(arr: seq<Node<K>>, h: int)
      reads Elements(arr)`left, Elements(arr)`right
    {
      && 1 <= h <= |arr|
      && LinkedDownExcept(arr, h / 2)
      && (h >= 2 ==>
        if h % 2 == 0 then arr[h / 2 - 1].right == At(arr, h + 1) else arr[h / 2 - 1].left == At(arr, h - 1))
    }

    static method SwapSides(parent: Node<K>, child: Node<K>, right: bool)
      requires parent != child
      modifies {parent, child}`left, {parent, child}`right
      ensures parent.left == old(child.left) && parent.right == old(child.right)
      ensures child.left == if right then old(parent.left) else parent
      ensures child.right == if right then parent else old(parent.right)
    {
      if right {
        SwapWithRightChild(parent, child);
      } else {
        SwapWithLeftChild(parent, child);
      }
    }

    /** The two that have changed places have each other's children, and the upper one the lower one. */
    static lemma SwappedPair(parent: Node<K>, child: Node<K>, right: bool, arr: seq<Node<K>>, c: int)
      requires 2 <= c <= |arr| && arr[c - 1] == child && arr[c / 2 - 1] == parent && right == (c % 2 == 1)
      requires Differ(arr, c - 1, c / 2 - 1) && Distinct(arr)
      requires child.left == (if right then At(arr, c - 1) else parent)
      requires child.right == (if right then parent else At(arr, c + 1))
      requires parent.left == At(arr, 2 * c) && parent.right == At(arr, 2 * c + 1)
      ensures ChildrenAt(Swapped(arr, c - 1, c / 2 - 1), c) && ChildrenAt(Swapped(arr, c - 1, c / 2 - 1), c / 2)
    {
    }

    /** The nodes at c and c / 2 change places, seen from themselves and from below;
        the slot that led to c / 2 is left as it was. */
    static method SwapWithChild(parent: Node<K>, child: Node<K>, right: bool, ghost arr: seq<Node<K>>, ghost c: int)
      requires Distinct(arr) && LinkedDown(arr)
      requires 2 <= c <= |arr| && arr[c - 1] == child && arr[c / 2 - 1] == parent
      requires right == (c % 2 == 1)
      modifies {parent, child}`left, {parent, child}`right
      ensures SlotOpen(Swapped(arr, c - 1, c / 2 - 1), c / 2)
    {
      var next, h := Swapped(arr, c - 1, c / 2 - 1), c / 2;
      assert ChildrenAt(arr, c);
      assert ChildrenAt(arr, h);
      assert Differ(arr, c - 1, h - 1);
      if h >= 2 {
        assert ChildrenAt(arr, h / 2);
        assert Differ(arr, c - 1, h / 2 - 1);
        assert Differ(arr, h - 1, h / 2 - 1);
      }
      SwapSides(parent, child, right);
      SwappedPair(parent, child, right, arr, c);
      forall i | 1 <= i <= |next| && i != h / 2
        ensures ChildrenAt(next, i)
      {
        if i != c && i != h {
          assert old(ChildrenAt(arr, i));
          assert Differ(arr, i - 1, c - 1);
          assert Differ(arr, i - 1, h - 1);
        }
      }
    }

    /** p at j changes places with its parent in the child links.
        Needs the grandparent and the sibling of p to exist. */
    static method SwapUp(p: Node<K>, parent: Node<K>, grandParent: Node<K>, ghost arr: seq<Node<K>>, ghost j: int)
      returns (sibling: Node<K>)
      requires Distinct(arr) && LinkedDown(arr)
      requires 4 <= j <= |arr| && arr[j - 1] == p && arr[j / 2 - 1] == parent && arr[j / 2 / 2 - 1] == grandParent
      requires j % 2 == 1 || j + 1 <= |arr|
      modifies Elements(arr)`left, Elements(arr)`right
      ensures LinkedDown(Swapped(arr, j - 1, j / 2 - 1))
      ensures sibling == At(arr, if j % 2 == 0 then j + 1 else j - 1)
    {
      assert ChildrenAt(arr, j / 2);
      assert j % 2 == 0 ==> Differ(arr, j - 1, j);
      GrandParentSide(parent, grandParent, arr, j / 2);
      assert Differ(arr, j - 1, j / 2 / 2 - 1);
      assert Differ(arr, j / 2 - 1, j / 2 / 2 - 1);
      if parent.right == p {
        sibling := parent.left;
        SwapWithChild(parent, p, true, arr, j);
      } else {
        sibling := parent.right;
        SwapWithChild(parent, p, false, arr, j);
      }
      ghost var next := Swapped(arr, j - 1, j / 2 - 1);
      SwappedDistinct(arr, j - 1, j / 2 - 1);
      LinkGrandParent(p, parent, grandParent, next, j / 2);
    }

    static lemma GrandParentSide(parent: Node<K>, grandParent: Node<K>, arr: seq<Node<K>>, h: int)
      requires Distinct(arr) && LinkedDown(arr)
      requires 2 <= h <= |arr| && arr[h - 1] == parent && arr[h / 2 - 1] == grandParent
      ensures (grandParent.right == parent) == (h % 2 == 1)
    {
      assert ChildrenAt(arr, h / 2);
      assert h % 2 == 0 && h < |arr| ==> Differ(arr, h - 1, h);
    }

    /** The grandparent of p, now its parent, gets its child link. */
    static method LinkGrandParent(p: Node<K>, parent: Node<K>, grandParent: Node<K>, ghost arr: seq<Node<K>>,
                                  ghost h: int)
      requires Distinct(arr) && SlotOpen(arr, h)
      requires h >= 2 && arr[h - 1] == p && arr[h / 2 - 1] == grandParent
      requires (grandParent.right == parent) == (h % 2 == 1)
      modifies grandParent`left, grandParent`right
      ensures LinkedDown(arr)
    {
      if grandParent.right == parent {
        grandParent.right := p;
      } else {
        grandParent.left := p;
      }
      assert ChildrenAt(arr, h / 2);
      forall i | 1 <= i <= |arr| && i != h / 2
        ensures ChildrenAt(arr, i)
      {
        assert old(ChildrenAt(arr, i));
        assert Differ(arr, i - 1, h / 2 - 1);
      }
    }

    static ghost predicate ChildrenName(arr: seq<Node<K>>, j: int, parent: Node<K>)
      reads arr`prev
    {
      forall c :: 1 <= c <= |arr| && c / 2 == j ==> arr[c - 1].prev == parent
    }

    /** The prev links after p at j and its parent have changed places: the old parent
        already names its new parent, the sibling waits. */
    static lemma ClimbedUpLinks(arr: seq<Node<K>>, j: int, p: Node<K>, parent: Node<K>, grandParent: Node<K>,
                                sibling: Node<K>)
      requires 4 <= j <= |arr| && LinkedUpExcept(arr, j) && ChildrenName(arr, j, parent)
      requires p == arr[j - 1] && parent == arr[j / 2 - 1] && grandParent == arr[j / 2 / 2 - 1]
      requires sibling == At(arr, if j % 2 == 0 then j + 1 else j - 1)
      requires
        var next := Swapped(arr, j - 1, j / 2 - 1);
        Distinct(next) && LinkedDown(next)
      ensures
        var next := Swapped(arr, j - 1, j / 2 - 1);
        && Climbing(next, j / 2, p, grandParent, sibling)
        && grandParent.prev == At(next, j / 2 / 2 / 2)
        && {At(next, 2 * (j / 2)), At(next, 2 * (j / 2) + 1)} == {sibling, parent}
    {
      var next := Swapped(arr, j - 1, j / 2 - 1);
      assert PrevAt(arr, j / 2);
      assert PrevAt(arr, j / 2 / 2);
      forall i | 1 <= i <= |next| && i != j / 2 && i / 2 != j / 2
        ensures PrevAt(next, i)
      {
        assert next[i - 1] == arr[i - 1];
        if i / 2 != j {
          assert PrevAt(arr, i);
        }
      }
    }

    static lemma ClimbedOrder(lt: (K, K) -> bool, arr: seq<Node<K>>, j: int)
      requires StrictWeakOrder(lt) && Distinct(arr) && 4 <= j <= |arr| && ClimbingAt(lt, arr, j)
      requires lt(arr[j - 1].key, arr[j / 2 - 1].key)
      ensures
        var next := Swapped(arr, j - 1, j / 2 - 1);
        Rearranged(next, arr) && Distinct(next) && ClimbingAt(lt, next, j / 2)
    {
      ClimbStep(lt, arr, j);
      SwappedDistinct(arr, j - 1, j / 2 - 1);
      SameElements(Swapped(arr, j - 1, j / 2 - 1), arr);
    }

    /** Writing the waiting link of px leaves both children of p naming its parent. */
    static method LinkWaiting(px: Node?<K>, p: Node<K>, parent: Node<K>, ghost arr: seq<Node<K>>, ghost j: int)
      requires Climbing(arr, j, p, parent, px)
      modifies Elements(arr)`prev
      ensures LinkedUpExcept(arr, j) && ChildrenName(arr, j, parent)
    {
      StorePrev(px, parent);
      forall i | 1 <= i <= |arr| && i != j && i / 2 != j
        ensures PrevAt(arr, i)
      {
        assert old(PrevAt(arr, i));
        assert 2 * j <= |arr| ==> Differ(arr, i - 1, 2 * j - 1);
        assert 2 * j + 1 <= |arr| ==> Differ(arr, i - 1, 2 * j);
      }
    }

    /** One round of the climb. */
    static method ClimbOnce(lt: (K, K) -> bool, p: Node<K>, parent: Node<K>, grandParent: Node<K>, px: Node?<K>,
                            ghost arr: seq<Node<K>>, ghost j: int)
      returns (nx: Node<K>, ghost next: seq<Node<K>>)
      requires StrictWeakOrder(lt) && Climbing(arr, j, p, parent, px)
      requires ClimbingAt(lt, arr, j) && lt(p.key, parent.key)
      requires j >= 4 && arr[j / 2 / 2 - 1] == grandParent
      requires j % 2 == 1 || j + 1 <= |arr|
      modifies Elements(arr)
      ensures Rearranged(next, arr)
      ensures Climbing(next, j / 2, p, grandParent, nx) && ClimbingAt(lt, next, j / 2)
      ensures grandParent.prev == At(next, j / 2 / 2 / 2)
      ensures {At(next, 2 * (j / 2)), At(next, 2 * (j / 2) + 1)} == {nx, parent}
    {
      LinkWaiting(px, p, parent, arr, j);
      nx := SwapUp(p, parent, grandParent, arr, j);
      next := Swapped(arr, j - 1, j / 2 - 1);
      ClimbedOrder(lt, arr, j);
      ClimbedUpLinks(arr, j, p, parent, grandParent, nx);
    }

    /** The last writes of the climb: both children of p, and p itself, get their prev. */
    static method LinkClimbed(lt: (K, K) -> bool, px: Node<K>, py: Node<K>, p: Node<K>, parent: Node<K>,
                              ghost arr: seq<Node<K>>, ghost j: int)
      requires Climbing(arr, j, p, parent, px)
      requires {At(arr, 2 * j), At(arr, 2 * j + 1)} == {px, py}
      requires ClimbingAt(lt, arr, j) && !lt(p.key, parent.key)
      modifies Elements(arr)`prev
      ensures LinkedUp(arr) && HeapOrdered(lt, arr)
    {
      ClimbDone(lt, arr, j);
      px.prev := p;
      py.prev := p;
      p.prev := parent;
      forall i | 1 <= i <= |arr|
        ensures PrevAt(arr, i)
      {
        assert i != j ==> Differ(arr, i - 1, j - 1);
        if i != j && i / 2 != j {
          assert old(PrevAt(arr, i));
          assert Differ(arr, i - 1, 2 * j - 1) && Differ(arr, i - 1, 2 * j);
        }
      }
    }

    /** The first write of the climb: the right child of p names the parent of p. */
    static method LinkRight(p: Node<K>, parent: Node<K>, ghost arr: seq<Node<K>>, ghost j: int)
      requires Distinct(arr) && LinkedDown(arr) && LinkedUpExcept(arr, j)
      requires 2 <= j <= |arr| && arr[j - 1] == p && arr[j / 2 - 1] == parent
      modifies Elements(arr)`prev
      ensures Climbing(arr, j, p, parent, p.left)
    {
      assert ChildrenAt(arr, j);
      if p.right != null {
        p.right.prev := parent;
      }
      forall i | 1 <= i <= |arr| && i != j && i / 2 != j
        ensures PrevAt(arr, i)
      {
        assert old(PrevAt(arr, i));
        assert 2 * j + 1 <= |arr| ==> Differ(arr, i - 1, 2 * j);
      }
    }

    static method HeapUpPercolate(lt: (K, K) -> bool, p: Node<K>, parent: Node<K>, ghost arr: seq<Node<K>>,
                                  ghost j: int)
      returns (ghost final: seq<Node<K>>)
      requires StrictWeakOrder(lt) && Distinct(arr) && LinkedDown(arr) && LinkedUpExcept(arr, j)
      requires 2 <= j <= |arr| && arr[j - 1] == p && arr[j / 2 - 1] == parent
      requires j % 2 == 1 || j + 1 <= |arr|
      requires ClimbingAt(lt, arr, j)
      requires lt(p.key, parent.key) && !lt(p.key, arr[0].key)
      modifies Elements(arr)
      ensures Rearranged(final, arr) && Distinct(final)
      ensures LinkedDown(final) && LinkedUp(final) && HeapOrdered(lt, final)
    {
      var above: Node<K> := parent;
      assert ChildrenAt(arr, j);
      var px := p.left;
      LinkRight(p, parent, arr, j);
      var grandParent := parent.prev;
      assert PrevAt(arr, j / 2);
      var py: Node<K>;
      ghost var cur, pos := arr, j;
      while true
        invariant Climbing(cur, pos, p, above, px)
        invariant Rearranged(cur, arr)
        invariant pos % 2 == 1 || pos + 1 <= |cur|
        invariant grandParent == At(cur, pos / 2 / 2)
        invariant ClimbingAt(lt, cur, pos) && lt(p.key, above.key) && !lt(p.key, arr[0].key)
        decreases pos
      {
        assert pos / 2 != 1;
        py := above;
        px, cur := ClimbOnce(lt, p, above, grandParent, px, cur, pos);
        pos := pos / 2;
        above := grandParent;
        grandParent := above.prev;
        if !lt(p.key, above.key) {
          break;
        }
      }
      LinkClimbed(lt, px, py, p, above, cur, pos);
      final := cur;
    }

    /** Every prev link names the parent, except at top, at j and just below j. */
    static ghost predicate LinkedUpAround(arr: seq<Node<K>>, j: int, top: int)
      reads Elements(arr)`prev
    {
      forall i :: 1 <= i <= |arr| && i != j && i / 2 != j && i != top ==> PrevAt(arr, i)
    }

    /** What the sink keeps: p at j has stale links above and below it, top is repaired at the end,
        and below top the children of p already name the parent of p. */
    static ghost predicate Sinking(arr: seq<Node<K>>, j: int, top: int, p: Node<K>)
      reads Elements(arr)
    {
      && Distinct(arr) && 1 <= top <= j <= |arr| && arr[j - 1] == p
      && LinkedDown(arr) && LinkedUpAround(arr, j, top)
      && (j != top ==> ChildrenName(arr, j, arr[j / 2 - 1]))
    }

    static lemma SunkLinks(arr: seq<Node<K>>, j: int, c: int, top: int, p: Node<K>)
      requires Distinct(arr) && 1 <= top <= j && 2 <= c <= |arr| && c / 2 == j && arr[j - 1] == p
      requires LinkedUpAround(arr, j, top)
      requires j != top ==> arr[c - 1].prev == arr[j / 2 - 1]
      requires forall o :: 1 <= o <= |arr| && o / 2 == j && o != c ==> arr[o - 1].prev == arr[c - 1]
      requires LinkedDown(Swapped(arr, c - 1, j - 1))
      ensures Sinking(Swapped(arr, c - 1, j - 1), c, top, p)
    {
      var next := Swapped(arr, c - 1, j - 1);
      SwappedDistinct(arr, c - 1, j - 1);
      forall i | 1 <= i <= |next| && i != c && i / 2 != c && i != top
        ensures PrevAt(next, i)
      {
        if i != j {
          assert next[i - 1] == arr[i - 1];
          if i / 2 != j {
            assert PrevAt(arr, i);
          }
        }
      }
      forall k | 1 <= k <= |next| && k / 2 == c
        ensures next[k - 1].prev == next[j - 1]
      {
        assert PrevAt(arr, k);
      }
    }

    /** Writes the open slot. */
    method FillSlot(pp: Slot<K>, v: Node<K>, ghost arr: seq<Node<K>>, ghost h: int)
      requires Distinct(arr) && SlotOpen(arr, h) && arr[h - 1] == v
      requires pp == SlotOf(arr, h)
      requires h >= 2 ==> root == arr[0]
      modifies this`root, Elements(arr)`left, Elements(arr)`right
      ensures LinkedDown(arr) && root == arr[0]
    {
      Store(pp, v);
      forall i | 1 <= i <= |arr|
        ensures ChildrenAt(arr, i)
      {
        if i != h / 2 {
          assert old(ChildrenAt(arr, i));
          assert h >= 2 ==> Differ(arr, i - 1, h / 2 - 1);
        }
      }
    }

    /** The child links of one sinking step: p at j changes places with its child. */
    method SinkChildLinks(p: Node<K>, child: Node<K>, right: bool, pp: Slot<K>, ghost arr: seq<Node<K>>, ghost c: int)
      requires Distinct(arr) && LinkedDown(arr) && root == At(arr, 1)
      requires 2 <= c <= |arr| && arr[c - 1] == child && arr[c / 2 - 1] == p && right == (c % 2 == 1)
      requires pp == SlotOf(arr, c / 2)
      modifies this`root, Elements(arr)`left, Elements(arr)`right
      ensures LinkedDown(Swapped(arr, c - 1, c / 2 - 1)) && root == Swapped(arr, c - 1, c / 2 - 1)[0]
    {
      SwapWithChild(p, child, right, arr, c);
      ghost var next := Swapped(arr, c - 1, c / 2 - 1);
      SwappedDistinct(arr, c - 1, c / 2 - 1);
      SameElements(next, arr);
      FillSlot(pp, child, next, c / 2);
    }

    /** The prev link of one sinking step: the other child of p names the child that rises. */
    static method SinkPrevLink(child: Node<K>, other: Node?<K>, ghost arr: seq<Node<K>>, ghost j: int, ghost c: int,
                               ghost top: int)
      requires Distinct(arr) && 1 <= j && 2 <= c <= |arr| && c / 2 == j && arr[c - 1] == child
      requires other == At(arr, if c % 2 == 1 then 2 * j else 2 * j + 1)
      requires LinkedUpAround(arr, j, top)
      modifies Elements(arr)`prev
      ensures LinkedUpAround(arr, j, top)
      ensures forall o :: 1 <= o <= |arr| && o / 2 == j && o != c ==> arr[o - 1].prev == child
      ensures child.prev == old(child.prev)
    {
      StorePrev(other, child);
      forall i | 1 <= i <= |arr| && i != j && i / 2 != j && i != top
        ensures PrevAt(arr, i)
      {
        assert old(PrevAt(arr, i));
        assert 2 * j <= |arr| ==> Differ(arr, i - 1, 2 * j - 1);
        assert 2 * j + 1 <= |arr| ==> Differ(arr, i - 1, 2 * j);
      }
      assert 2 * j + 1 <= |arr| ==> Differ(arr, 2 * j - 1, 2 * j);
    }

    ghost predicate SinkState(arr: seq<Node<K>>, j: int, top: int, p: Node<K>, parent: Node?<K>, pp: Slot<K>)
      reads this, Elements(arr)
    {
      && Sinking(arr, j, top, p) && SinkingAt(lt, arr, j)
      && pp == SlotOf(arr, j) && parent == At(arr, j / 2) && root == arr[0]
    }

    /** p at j changes places with its least child. */
    method SinkOnce(p: Node<K>, child: Node<K>, other: Node?<K>, right: bool, parent: Node?<K>, pp: Slot<K>,
                    ghost arr: seq<Node<K>>, ghost j: int, ghost top: int)
      returns (ghost next: seq<Node<K>>)
      requires StrictWeakOrder(lt) && SinkState(arr, j, top, p, parent, pp)
      requires child == At(arr, if right then 2 * j + 1 else 2 * j)
      requires other == At(arr, if right then 2 * j else 2 * j + 1)
      requires lt(child.key, p.key) && (other != null ==> NotAbove(lt, child, other))
      modifies this`root, Elements(arr)
      ensures SinkState(next, if right then 2 * j + 1 else 2 * j, top, p, child,
                        if right then RightOf(child) else LeftOf(child))
      ensures SameFrom(next, arr, top - 1)
    {
      ghost var c := if right then 2 * j + 1 else 2 * j;
      next := Swapped(arr, c - 1, j - 1);
      SinkChildLinks(p, child, right, pp, arr, c);
      SinkPrevLink(child, other, arr, j, c, top);
      SunkLinks(arr, j, c, top, p);
      SinkSame(arr, j, c, top);
      SinkStep(lt, arr, j, c);
    }

    static lemma SinkSame(arr: seq<Node<K>>, j: int, c: int, top: int)
      requires 1 <= top <= j < c <= |arr|
      ensures SameFrom(Swapped(arr, c - 1, j - 1), arr, top - 1)
    {
      SameElements(Swapped(arr, c - 1, j - 1), arr);
    }

    /** The last writes of the sink: the children of p and p itself get their prev. */
    static method LinkSettled(p: Node<K>, l: Node?<K>, r: Node?<K>, parent: Node?<K>, ghost arr: seq<Node<K>>,
                              ghost j: int, ghost top: int)
      requires Sinking(arr, j, top, p)
      requires l == At(arr, 2 * j) && r == At(arr, 2 * j + 1) && parent == At(arr, j / 2)
      modifies Elements(arr)`prev
      ensures forall i :: 1 <= i <= |arr| && i != top ==> PrevAt(arr, i)
    {
      StorePrev(r, p);
      StorePrev(l, p);
      p.prev := parent;
      forall i | 1 <= i <= |arr| && i != top
        ensures PrevAt(arr, i)
      {
        assert i != j ==> Differ(arr, i - 1, j - 1);
        if i != j && i / 2 != j {
          assert old(PrevAt(arr, i));
          assert 2 * j <= |arr| ==> Differ(arr, i - 1, 2 * j - 1);
          assert 2 * j + 1 <= |arr| ==> Differ(arr, i - 1, 2 * j);
        }
      }
    }

    static lemma SettledOrder(lt: (K, K) -> bool, arr: seq<Node<K>>, j: int, p: Node<K>, l: Node?<K>, r: Node?<K>)
      requires StrictWeakOrder(lt) && 1 <= j <= |arr| && arr[j - 1] == p && SinkingAt(lt, arr, j)
      requires l == At(arr, 2 * j) && r == At(arr, 2 * j + 1)
      requires l != null ==> NotAbove(lt, p, l)
      requires r != null ==> NotAbove(lt, p, r)
      ensures HeapOrdered(lt, arr)
    {
      forall i | 2 <= i <= |arr| && i / 2 == j
        ensures NotAbove(lt, arr[j - 1], arr[i - 1])
      {
        assert i == 2 * j || i == 2 * j + 1;
      }
      SinkDone(lt, arr, j);
    }

    /** One round of the sink: p changes places with its lesser child if that is less than p. */
    method SinkRound(p: Node<K>, l: Node<K>, r: Node?<K>, parent: Node?<K>, pp: Slot<K>,
                     ghost arr: seq<Node<K>>, ghost j: int, ghost top: int)
      returns (moved: bool, parent': Node?<K>, pp': Slot<K>, ghost arr': seq<Node<K>>, ghost j': int)
      requires StrictWeakOrder(lt) && SinkState(arr, j, top, p, parent, pp)
      requires l == At(arr, 2 * j) && r == At(arr, 2 * j + 1)
      modifies this`root, Elements(arr)
      ensures SinkState(arr', j', top, p, parent', pp') && SameFrom(arr', arr, top - 1)
      ensures moved ==> j' > j
      ensures !moved ==>
        arr' == arr && j' == j && p.left == old(p.left) && p.right == old(p.right) && HeapOrdered(lt, arr)
    {
      moved, parent', pp', arr', j' := false, parent, pp, arr, j;
      if r != null && lt(r.key, l.key) {
        BelowIsNotAbove(lt, r, l);
        if lt(r.key, p.key) {
          arr' := SinkOnce(p, r, l, true, parent, pp, arr, j, top);
          moved, parent', pp', j' := true, r, RightOf(r), 2 * j + 1;
        } else {
          NotAboveTrans(lt, p, r, l);
          SettledOrder(lt, arr, j, p, l, r);
        }
      } else {
        if lt(l.key, p.key) {
          arr' := SinkOnce(p, l, r, false, parent, pp, arr, j, top);
          moved, parent', pp', j' := true, l, LeftOf(l), 2 * j;
        } else {
          if r != null {
            NotAboveTrans(lt, p, l, r);
          }
          SettledOrder(lt, arr, j, p, l, r);
        }
      }
    }

    method HeapDownSink(p: Node<K>, slot: Slot<K>, above: Node?<K>, ghost arr: seq<Node<K>>, ghost j: int)
      returns (ghost final: seq<Node<K>>)
      requires StrictWeakOrder(lt) && SinkState(arr, j, j, p, above, slot)
      modifies this`root, Elements(arr)
      ensures SameFrom(final, arr, j - 1) && Distinct(final)
      ensures LinkedDown(final) && root == final[0] && HeapOrdered(lt, final)
      ensures forall i :: 1 <= i <= |final| && i != j ==> PrevAt(final, i)
    {
      var pp, parent := slot, above;
      assert ChildrenAt(arr, j);
      var r := p.right;
      var l := p.left;
      ghost var cur, pos := arr, j;
      while l != null
        invariant SinkState(cur, pos, j, p, parent, pp) && SameFrom(cur, arr, j - 1)
        invariant l == At(cur, 2 * pos) && r == At(cur, 2 * pos + 1)
        decreases |arr| - pos
      {
        var moved;
        moved, parent, pp, cur, pos := SinkRound(p, l, r, parent, pp, cur, pos, j);
        if !moved {
          break;
        }
        assert ChildrenAt(cur, pos);
        l := p.left;
        r := p.right;
      }
      if l == null {
        SettledOrder(lt, cur, pos, p, l, r);
      }
      LinkSettled(p, l, r, parent, cur, pos, j);
      final := cur;
    }

    // ----- push -----

    /** `node` hangs in the slot of position pos and displaces p, which is still arr[pos - 1]. */
    ghost predicate Hanging(arr: seq<Node<K>>, pos: int, node: Node<K>, p: Node?<K>)
      reads this, Elements(arr), node
    {
      && Distinct(arr) && node !in arr && 1 <= pos <= |arr| + 1 && p == At(arr, pos)
      && SlotHolds(arr, pos, node)
      && node.prev == At(arr, pos / 2) && (p != null ==> p.prev == node)
      && (forall i :: 1 <= i <= |arr| && i != pos ==> PrevAt(arr, i))
    }

    ghost predicate Shifting(arr: seq<Node<K>>, pos: int, node: Node<K>, p: Node?<K>)
      reads this, Elements(arr), node
    {
      Hanging(arr, pos, node, p) && (pos == |arr| + 1 ==> node.right == null)
    }

    ghost predicate SlotHolds(arr: seq<Node<K>>, pos: int, node: Node<K>)
      reads this, Elements(arr)
    {
      && LinkedDownExcept(arr, pos / 2)
      && root == (if pos == 1 then node else At(arr, 1))
      && (2 <= pos && pos / 2 <= |arr| ==>
        if pos % 2 == 0
        then arr[pos / 2 - 1].left == node && arr[pos / 2 - 1].right == At(arr, pos + 1)
        else arr[pos / 2 - 1].right == node && arr[pos / 2 - 1].left == At(arr, pos - 1))
    }

    /** The order while the path is shifted: node fits between the parent of pos and p. */
    static ghost predicate ShiftOrdered(lt: (K, K) -> bool, arr: seq<Node<K>>, pos: int, node: Node<K>) {
      && HeapOrdered(lt, arr)
      && (2 <= pos && pos / 2 <= |arr| ==> NotAbove(lt, arr[pos / 2 - 1], node))
      && (1 <= pos <= |arr| ==> NotAbove(lt, node, arr[pos - 1]))
    }

    static lemma ShiftOrder(lt: (K, K) -> bool, arr: seq<Node<K>>, pos: int, node: Node<K>, next: int)
      requires StrictWeakOrder(lt) && 1 <= pos <= |arr| && next / 2 == pos && ShiftOrdered(lt, arr, pos, node)
      ensures ShiftOrdered(lt, arr[pos - 1 := node], next, arr[pos - 1])
    {
      var arr' := arr[pos - 1 := node];
      forall i | 2 <= i <= |arr'|
        ensures EdgeAt(lt, arr', i)
      {
        assert EdgeAt(lt, arr, i);
        if i / 2 == pos {
          NotAboveTrans(lt, node, arr[pos - 1], arr[i - 1]);
        }
      }
      if next <= |arr| {
        assert EdgeAt(lt, arr, next);
      }
    }

    /** The same nodes, counting the one that is on its way. */
    static ghost predicate SameWith(next: seq<Node<K>>, p: Node<K>, arr: seq<Node<K>>, node: Node<K>) {
      && |next| == |arr|
      && Elements(next) + {p} == Elements(arr) + {node}
      && multiset(next) + multiset{p} == multiset(arr) + multiset{node}
    }

    static lemma ReplacedDistinct(arr: seq<Node<K>>, k: int, node: Node<K>)
      requires Distinct(arr) && node !in arr && 0 <= k < |arr|
      ensures Distinct(arr[k := node]) && arr[k] !in arr[k := node]
      ensures SameWith(arr[k := node], arr[k], arr, node)
    {
      var arr' := arr[k := node];
      forall a, b | 0 <= a < |arr'| && 0 <= b < |arr'| && a != b
        ensures Differ(arr', a, b)
      {
        assert Differ(arr, a, b);
      }
      forall b | 0 <= b < |arr'|
        ensures arr'[b] != arr[k]
      {
        assert b != k ==> Differ(arr, k, b);
      }
      forall x
        ensures x in arr' || x == arr[k] <==> x in arr || x == node
      {
        assert arr'[k] == node;
        if x in arr && x != arr[k] {
          var b :| 0 <= b < |arr| && arr[b] == x;
          assert arr'[b] == x;
        }
      }
    }

    static ghost function Just(n: Node?<K>): set<Node<K>> {
      if n == null then {} else {n}
    }

    /** node gets p as one child and the other child of p, which is told of its new parent. */
    static method TakeChildren(node: Node<K>, p: Node<K>, right: bool) returns (next: Node?<K>)
      requires node != p && (right ==> p.left != null)
      modifies node`left, node`right, Just(if right then p.left else p.right)`prev
      ensures next == if right then p.right else p.left
      ensures node.left == (if right then p.left else p) && node.right == if right then p else p.right
      ensures p.left == old(p.left) && p.right == old(p.right)
      ensures forall n :: n in Just(if right then p.left else p.right) ==> n.prev == node
    {
      if right {
        node.right := p;
        node.left := p.left;
        p.left.prev := node;
        next := p.right;
      } else {
        node.right := p.right;
        node.left := p;
        if p.right != null {
          p.right.prev := node;
        }
        next := p.left;
      }
    }

    /** The links of one round of the shift: node takes the place of p. */
    method ShiftLinks(node: Node<K>, p: Node<K>, right: bool, ghost arr: seq<Node<K>>, ghost pos: int)
      returns (next: Node?<K>)
      requires pos <= |arr| && Shifting(arr, pos, node, p)
      requires (if right then 2 * pos + 1 else 2 * pos) <= |arr| + 1
      requires Distinct(arr[pos - 1 := node]) && p !in arr[pos - 1 := node]
      modifies node`left, node`right, Elements(arr)`prev
      ensures Shifting(arr[pos - 1 := node], if right then 2 * pos + 1 else 2 * pos, p, next)
    {
      assert ChildrenAt(arr, pos);
      next := TakeChildren(node, p, right);
      ghost var arr' := arr[pos - 1 := node];
      ghost var np := if right then 2 * pos + 1 else 2 * pos;
      assert np <= |arr| ==> old(PrevAt(arr, np));
      assert 2 * pos + 1 <= |arr| ==> Differ(arr, 2 * pos - 1, 2 * pos);
      forall i | 1 <= i <= |arr'| && i != pos
        ensures ChildrenAt(arr', i)
      {
        if i != pos / 2 {
          assert old(ChildrenAt(arr, i));
        }
      }
      forall i | 1 <= i <= |arr'| && i != np
        ensures PrevAt(arr', i)
      {
        if i != pos && i / 2 != pos {
          assert old(PrevAt(arr, i));
          assert 2 * pos <= |arr| ==> Differ(arr, i - 1, 2 * pos - 1);
          assert 2 * pos + 1 <= |arr| ==> Differ(arr, i - 1, 2 * pos);
        }
      }
    }

    /** One round of the shift: node takes the place of p, and p moves on to the next position. */
    method ShiftOnce(node: Node<K>, p: Node<K>, right: bool, ghost arr: seq<Node<K>>, ghost pos: int, ghost below: int)
      returns (next: Node?<K>, ghost arr': seq<Node<K>>)
      requires StrictWeakOrder(lt) && pos <= |arr| && Shifting(arr, pos, node, p) && ShiftOrdered(lt, arr, pos, node)
      requires below == (if right then 2 * pos + 1 else 2 * pos) && below <= |arr| + 1
      modifies node`left, node`right, Elements(arr)`prev
      ensures Shifting(arr', below, p, next) && ShiftOrdered(lt, arr', below, p)
      ensures SameWith(arr', p, arr, node)
    {
      arr' := arr[pos - 1 := node];
      ReplacedDistinct(arr, pos - 1, node);
      ShiftOrder(lt, arr, pos, node, below);
      next := ShiftLinks(node, p, right, arr, pos);
    }

    /** The last free position takes the node that was left over. */
    static lemma PushDone(lt: (K, K) -> bool, arr: seq<Node<K>>, node: Node<K>)
      requires Distinct(arr) && node !in arr && ShiftOrdered(lt, arr, |arr| + 1, node)
      ensures Distinct(arr + [node]) && HeapOrdered(lt, arr + [node])
      ensures Elements(arr + [node]) == Elements(arr) + {node}
    {
      var all := arr + [node];
      forall i, j | 0 <= i < |all| && 0 <= j < |all| && i != j
        ensures Differ(all, i, j)
      {
        assert i < |arr| && j < |arr| ==> Differ(arr, i, j);
      }
      forall i | 2 <= i <= |all|
        ensures EdgeAt(lt, all, i)
      {
        assert i <= |arr| ==> EdgeAt(lt, arr, i);
      }
      forall x
        ensures x in all <==> x in arr || x == node
      {
      }
    }

    lemma PushLinked(arr: seq<Node<K>>, node: Node<K>)
      requires Shifting(arr, |arr| + 1, node, null) && node.left == null
      ensures LinkedDown(arr + [node]) && LinkedUp(arr + [node]) && root == (arr + [node])[0]
    {
      var all := arr + [node];
      forall i | 1 <= i <= |all|
        ensures ChildrenAt(all, i) && PrevAt(all, i)
      {
        if i <= |arr| {
          assert PrevAt(arr, i);
          assert i != |all| / 2 ==> ChildrenAt(arr, i);
        }
      }
    }

    /** The last write of a push. */
    method EndPath(last: Node<K>, ghost arr: seq<Node<K>>)
      requires Shifting(arr, |arr| + 1, last, null) && ShiftOrdered(lt, arr, |arr| + 1, last)
      modifies last`left
      ensures IsHeap(arr + [last])
    {
      last.left := null;
      PushDone(lt, arr, last);
      PushLinked(arr, last);
    }

    /** Moves every node of the rest of the path to position k down by one level. */
    method ShiftPath(first: Node<K>, displaced: Node<K>, start: nat, k: nat, ghost arr: seq<Node<K>>)
      returns (ghost final: seq<Node<K>>)
      requires IsPowerOfTwo(start) && k == |arr| + 1 && StrictWeakOrder(lt)
      requires 1 <= Prefix(k, start) && Shifting(arr, Prefix(k, start), first, displaced)
      requires ShiftOrdered(lt, arr, Prefix(k, start), first)
      modifies Elements(arr), first
      ensures IsHeap(final) && |final| == k && multiset(final) == multiset(arr) + multiset{first}
    {
      var node: Node<K>, p: Node?<K> := first, displaced;
      var mask := start;
      ghost var cur, pos := arr, Prefix(k, start);
      while mask != 0
        invariant IsMask(mask) && pos == Prefix(k, mask) && 1 <= pos <= k
        invariant Shifting(cur, pos, node, p) && ShiftOrdered(lt, cur, pos, node)
        invariant SameWith(cur, node, arr, first)
        decreases mask
      {
        PrefixDescends(k, mask);
        var next;
        next, cur := ShiftOnce(node, p, HasBit(k, mask), cur, pos, Prefix(k, mask / 2));
        node := p;
        p := next;
        mask := mask / 2;
        pos := Prefix(k, mask);
      }
      EndPath(node, cur);
      final := cur + [node];
    }

    /** Hangs the new node into the slot of position pos, above the node p that was there. */
    method HangAt(node: Node<K>, pp: Slot<K>, q: Node?<K>, p: Node?<K>, ghost pos: int)
      requires Formed() && LinkedUp(nodes) && node !in nodes
      requires 1 <= pos <= |nodes| + 1 && pp == SlotOf(nodes, pos) && p == At(nodes, pos) && q == At(nodes, pos / 2)
      modifies this`root, Elements(nodes), node
      ensures Hanging(nodes, pos, node, p)
      ensures node.left == old(node.left) && node.right == old(node.right)
    {
      node.prev := q;
      StorePrev(p, node);
      Store(pp, node);
      forall i | 1 <= i <= |nodes|
        ensures i != pos ==> PrevAt(nodes, i)
        ensures i != pos / 2 ==> ChildrenAt(nodes, i)
      {
        assert old(PrevAt(nodes, i)) && old(ChildrenAt(nodes, i));
        assert i != pos && pos <= |nodes| ==> Differ(nodes, i - 1, pos - 1);
        assert pos >= 2 && i != pos / 2 ==> Differ(nodes, i - 1, pos / 2 - 1);
      }
      assert pos >= 2 ==> old(ChildrenAt(nodes, pos / 2));
    }

    /** Walks from the root towards position k, down to the first node that node is less than. */
    method FindPlace(node: Node<K>, k: nat) returns (pp: Slot<K>, q: Node?<K>, p: Node?<K>, mask: nat)
      requires Formed() && HeapOrdered(lt, nodes) && k == |nodes| + 1
      ensures IsMask(mask) && 1 <= Prefix(k, mask) <= k && (mask != 0 ==> Prefix(k, mask) < k)
      ensures pp == SlotOf(nodes, Prefix(k, mask))
      ensures p == At(nodes, Prefix(k, mask)) && q == At(nodes, Prefix(k, mask) / 2)
      ensures ShiftOrdered(lt, nodes, Prefix(k, mask), node)
    {
      pp, p, q := RootSlot, root, null;
      mask := PathBitMask(k);
      PathStart(k);
      while mask != 0
        invariant IsMask(mask) && 1 <= Prefix(k, mask) <= k
        invariant pp == SlotOf(nodes, Prefix(k, mask))
        invariant p == At(nodes, Prefix(k, mask)) && q == At(nodes, Prefix(k, mask) / 2)
        invariant q != null ==> NotAbove(lt, q, node)
        decreases mask
      {
        PrefixDescends(k, mask);
        if lt(node.key, p.key) {
          BelowIsNotAbove(lt, node, p);
          break;
        }
        assert ChildrenAt(nodes, Prefix(k, mask));
        q := p;
        if HasBit(k, mask) {
          pp := RightOf(p);
          p := p.right;
        } else {
          pp := LeftOf(p);
          p := p.left;
        }
        mask := mask / 2;
      }
    }

    /** The new node takes the first free position itself. */
    method HangFree(node: Node<K>, pp: Slot<K>, q: Node?<K>)
      requires Formed() && LinkedUp(nodes) && node !in nodes
      requires pp == SlotOf(nodes, |nodes| + 1) && q == At(nodes, (|nodes| + 1) / 2)
      requires ShiftOrdered(lt, nodes, |nodes| + 1, node)
      modifies this`root, Elements(nodes), node
      ensures IsHeap(nodes + [node])
    {
      HangAt(node, pp, q, null, |nodes| + 1);
      node.right := null;
      EndPath(node, nodes);
    }

    method Push(node: Node<K>)
      requires Valid() && node !in nodes
      modifies this, Elements(nodes), node
      ensures Valid()
      ensures multiset(nodes) == multiset(old(nodes)) + multiset{node} && size == old(size) + 1
    {
      size := size + 1;
      var k := size;
      var pp, q, p, mask := FindPlace(node, k);
      if mask != 0 {
        HangAt(node, pp, q, p, Prefix(k, mask));
        nodes := ShiftPath(node, p, mask, k, nodes);
      } else {
        HangFree(node, pp, q);
        nodes := nodes + [node];
      }
    }

    // ----- pop and remove -----

    ghost predicate LeafDetached(rest: seq<Node<K>>, p: Node<K>)
      reads this, Elements(rest)
    {
      IsHeap(rest) && p !in rest
    }

    static lemma WithoutLast(arr: seq<Node<K>>)
      requires |arr| >= 1 && Distinct(arr)
      ensures
        var rest, p := arr[..|arr| - 1], arr[|arr| - 1];
        && Distinct(rest) && p !in rest
        && multiset(rest) + multiset{p} == multiset(arr) && Elements(rest) + {p} == Elements(arr)
    {
      var rest, p := arr[..|arr| - 1], arr[|arr| - 1];
      assert arr == rest + [p];
      assert forall i, j :: 0 <= i < |rest| && 0 <= j < |rest| && i != j ==> Differ(arr, i, j);
      forall i, j | 0 <= i < |rest| && 0 <= j < |rest| && i != j
        ensures Differ(rest, i, j)
      {
        assert Differ(arr, i, j);
      }
      forall i | 0 <= i < |rest|
        ensures rest[i] != p
      {
        assert Differ(arr, i, |arr| - 1);
      }
    }

    /** Detaches the last leaf; what is left is a heap. */
    method DetachLeaf() returns (p: Node<K>, ghost rest: seq<Node<K>>)
      requires Valid() && size >= 1
      modifies this`root, nodes`left, nodes`right
      ensures p == nodes[|nodes| - 1] && rest == nodes[..|nodes| - 1]
      ensures LeafDetached(rest, p)
      ensures multiset(rest) + multiset{p} == multiset(nodes) && Elements(rest) + {p} == Elements(nodes)
    {
      rest := nodes[..|nodes| - 1];
      WithoutLast(nodes);
      p := RemoveLeastLeaf();
      forall i | 1 <= i <= |rest|
        ensures PrevAt(rest, i)
        ensures i >= 2 ==> EdgeAt(lt, rest, i)
      {
        assert PrevAt(nodes, i);
        assert i >= 2 ==> EdgeAt(lt, nodes, i);
      }
    }

    /** The leaf p takes the place of node at position j. */
    method TakePlace(p: Node<K>, node: Node<K>, pp: Slot<K>, ghost rest: seq<Node<K>>, ghost j: int)
      requires LeafDetached(rest, p)
      requires 1 <= j <= |rest| && node == rest[j - 1] && pp == SlotOf(rest, j)
      modifies this`root, p`left, p`right, Elements(rest)`left, Elements(rest)`right
      ensures Distinct(rest[j - 1 := p]) && node !in rest[j - 1 := p]
      ensures LinkedDown(rest[j - 1 := p]) && LinkedUpExcept(rest[j - 1 := p], j)
      ensures root == rest[j - 1 := p][0]
      ensures SameWith(rest[j - 1 := p], node, rest, p)
    {
      ghost var arr := rest[j - 1 := p];
      ReplacedDistinct(rest, j - 1, p);
      p.right := node.right;
      p.left := node.left;
      Store(pp, p);
      forall i | 1 <= i <= |arr|
        ensures ChildrenAt(arr, i)
      {
        assert old(ChildrenAt(rest, i));
        assert i != j ==> Differ(rest, i - 1, j - 1);
        assert j >= 2 && i != j / 2 ==> Differ(rest, i - 1, j / 2 - 1);
      }
      forall i | 1 <= i <= |arr| && i != j && i / 2 != j
        ensures PrevAt(arr, i)
      {
        assert PrevAt(rest, i);
      }
    }

    /** Sinks p from position j, then repairs the prev link of whatever is at j now. */
    method SinkAndLink(p: Node<K>, slot: Slot<K>, parent: Node?<K>, ghost arr: seq<Node<K>>, ghost j: int)
      returns (ghost final: seq<Node<K>>)
      requires StrictWeakOrder(lt) && SinkState(arr, j, j, p, parent, slot)
      modifies this`root, Elements(arr)
      ensures IsHeap(final) && |final| == |arr| && multiset(final) == multiset(arr) && Elements(final) == Elements(arr)
    {
      final := HeapDownSink(p, slot, parent, arr, j);
      assert j >= 2 ==> ChildrenAt(final, j / 2);
      label L:
      var top := Load(slot);
      top.prev := parent;
      forall i | 1 <= i <= |final|
        ensures PrevAt(final, i)
      {
        if i != j {
          assert old@L(PrevAt(final, i));
          assert Differ(final, i - 1, j - 1);
        }
      }
    }

    static lemma FirstIsMinimum(lt: (K, K) -> bool, arr: seq<Node<K>>)
      requires StrictWeakOrder(lt) && HeapOrdered(lt, arr) && |arr| >= 1
      ensures IsMinimum(lt, arr[0], arr)
    {
      forall i | 0 <= i < |arr|
        ensures NotAbove(lt, arr[0], arr[i])
      {
        RootIsMinimum(lt, arr, i + 1);
      }
    }

    method Pop()
      requires Valid()
      modifies this, Elements(nodes)
      ensures Valid()
      ensures size == if old(size) == 0 then 0 else old(size) - 1
      ensures old(size) >= 1 ==>
        && multiset(nodes) + multiset{old(nodes)[0]} == multiset(old(nodes))
        && IsMinimum(lt, old(nodes)[0], old(nodes)) && old(nodes)[0].prev == null
    {
      if size <= 1 {
        if size == 1 {
          FirstIsMinimum(lt, nodes);
          assert PrevAt(nodes, 1);
          assert nodes == [nodes[0]];
        }
        root := null;
        size := 0;
        nodes := [];
        return;
      }
      FirstIsMinimum(lt, nodes);
      assert PrevAt(nodes, 1);
      PopTop();
    }

    /** The last leaf takes the place of the root and sinks. */
    method PopTop()
      requires Valid() && size >= 2
      modifies this, Elements(nodes)
      ensures Valid() && size == old(size) - 1 && old(nodes)[0].prev == old(nodes[0].prev)
      ensures multiset(nodes) + multiset{old(nodes)[0]} == multiset(old(nodes))
    {
      var p;
      ghost var rest;
      p, rest := DetachLeaf();
      var top := root;
      TakePlace(p, top, RootSlot, rest, 1);
      size := size - 1;
      ReplacedOrder(lt, rest, 1, p);
      nodes := SinkAndLink(root, RootSlot, null, rest[0 := p], 1);
    }

    /** The slot that holds node, found through its prev link. */
    method SlotOfChild(parent: Node<K>, node: Node<K>, ghost arr: seq<Node<K>>, ghost j: int) returns (pp: Slot<K>)
      requires Distinct(arr) && LinkedDown(arr) && 2 <= j <= |arr| && arr[j - 1] == node && arr[j / 2 - 1] == parent
      ensures pp == SlotOf(arr, j)
    {
      GrandParentSide(node, parent, arr, j);
      if parent.right == node {
        pp := RightOf(parent);
      } else {
        pp := LeftOf(parent);
      }
    }

    /** Climbs p from position j of the heap `rest` in which it replaced a greater node. */
    method ClimbFrom(p: Node<K>, parent: Node<K>, ghost rest: seq<Node<K>>, ghost j: int)
      returns (ghost final: seq<Node<K>>)
      requires StrictWeakOrder(lt) && HeapOrdered(lt, rest) && 2 <= j <= |rest| && rest[j / 2 - 1] == parent
      requires
        var arr := rest[j - 1 := p];
        Distinct(arr) && LinkedDown(arr) && LinkedUpExcept(arr, j) && root == arr[0]
      requires lt(p.key, parent.key) && !lt(p.key, rest[0].key) && (j % 2 == 1 || j + 1 <= |rest|)
      modifies Elements(rest[j - 1 := p])
      ensures IsHeap(final) && |final| == |rest| && multiset(final) == multiset(rest[j - 1 := p])
      ensures Elements(final) == Elements(rest[j - 1 := p])
    {
      ReplacedOrder(lt, rest, j, p);
      final := HeapUpPercolate(lt, p, parent, rest[j - 1 := p], j);
    }

    /** The detached leaf p takes the place of node and moves on to where it belongs. */
    method Replace(node: Node<K>, p: Node<K>, parent: Node?<K>, ghost rest: seq<Node<K>>, ghost j: int)
      returns (ghost final: seq<Node<K>>)
      requires StrictWeakOrder(lt) && LeafDetached(rest, p)
      requires 1 <= j <= |rest| && rest[j - 1] == node && parent == At(rest, j / 2)
      requires parent != null && lt(p.key, parent.key) ==> !lt(p.key, rest[0].key) && (j % 2 == 1 || j + 1 <= |rest|)
      modifies this`root, Elements(rest), p
      ensures IsHeap(final) && |final| == |rest|
      ensures multiset(final) + multiset{node} == multiset(rest) + multiset{p}
      ensures node !in final && node.prev == null && Elements(final) <= Elements(rest) + {p}
    {
      var pp: Slot<K> := RootSlot;
      if parent != null {
        pp := SlotOfChild(parent, node, rest, j);
      }
      TakePlace(p, node, pp, rest, j);
      if parent != null && lt(p.key, parent.key) {
        final := ClimbFrom(p, parent, rest, j);
      } else {
        ReplacedOrder(lt, rest, j, p);
        final := SinkAndLink(p, pp, parent, rest[j - 1 := p], j);
      }
      assert node !in Elements(final);
      node.prev := null;
    }

    method Remove(node: Node<K>) returns (removed: bool)
      requires Valid() && (node in nodes || node.prev == null)
      modifies this, Elements(nodes)
      ensures Valid()
      ensures removed == (node in old(nodes))
      ensures !removed ==> nodes == old(nodes) && unchanged(this) && unchanged(nodes)
      ensures removed ==>
        && multiset(nodes) + multiset{node} == multiset(old(nodes)) && size == old(size) - 1
        && node !in nodes && node.prev == null
    {
      if node.prev == null && node != root {
        NotInHeap(node);
        return false;
      }
      ghost var j := PositionOf(node);
      var parent := node.prev;
      if parent != null {
        LeafNotBelow(lt, nodes, j);
      }
      var p;
      ghost var rest;
      p, rest := DetachLeaf();
      size := size - 1;
      if p == node {
        node.prev := null;
        nodes := rest;
      } else {
        nodes := Replace(node, p, parent, rest, j);
      }
      return true;
    }

    lemma PositionOf(node: Node<K>) returns (j: int)
      requires Valid() && (node in nodes || node.prev == null) && (node.prev != null || node == root)
      ensures node in nodes && 1 <= j <= |nodes| && nodes[j - 1] == node && PrevAt(nodes, j)
    {
      assert node == root ==> node == nodes[0];
      var i :| 0 <= i < |nodes| && nodes[i] == node;
      j := i + 1;
    }

    lemma NotInHeap(node: Node<K>)
      requires Valid() && node.prev == null && node != root
      ensures node !in nodes
    {
      forall i | 0 <= i < |nodes|
        ensures nodes[i] != node
      {
        assert PrevAt(nodes, i + 1);
      }
    }

    /** The moved leaf is not below the root; when it is below the parent of j, then j has its sibling. */
    static lemma LeafNotBelow(lt: (K, K) -> bool, arr: seq<Node<K>>, j: int)
      requires StrictWeakOrder(lt) && HeapOrdered(lt, arr) && 2 <= j <= |arr|
      ensures !lt(arr[|arr| - 1].key, arr[0].key)
      ensures j < |arr| && lt(arr[|arr| - 1].key, arr[j / 2 - 1].key) ==> j % 2 == 1 || j + 1 < |arr|
    {
      RootIsMinimum(lt, arr, |arr|);
      assert EdgeAt(lt, arr, |arr|);
    }
  }
}

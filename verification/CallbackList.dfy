/** The doubly linked list of stop callbacks: every prev link names the slot that
    points to its callback, the head slot or the next slot of another callback. */
module CallbackList {
  import opened Options
  import opened Sequences

  type Cb = nat

  datatype Slot = NoSlot | HeadSlot | NextOf(owner: Cb)

  datatype Links = Links(head: Option<Cb>, next: map<Cb, Option<Cb>>, prev: map<Cb, Slot>)

  function NextCb(l: Links, cb: Cb): Option<Cb> {
    if cb in l.next then l.next[cb] else None
  }

  function PrevSlot(l: Links, cb: Cb): Slot {
    if cb in l.prev then l.prev[cb] else NoSlot
  }

  // ----- the three edits of the source -----

  /** __cb is pushed before the head. */
  function PushFront(l: Links, cb: Cb): Links {
    var l1 := l.(next := l.next[cb := l.head], prev := l.prev[cb := HeadSlot]);
    var l2 := match l.head
              case None => l1
              case Some(h) => l1.(prev := l1.prev[h := NextOf(cb)]);
    l2.(head := Some(cb))
  }

  /** The notifier takes the head; the prev of a taken callback is null. */
  function PopFront(l: Links, cb: Cb): Links {
    var l1 := l.(prev := l.prev[cb := NoSlot], head := NextCb(l, cb));
    match l1.head
    case None => l1
    case Some(h) => l1.(prev := l1.prev[h := HeadSlot])
  }

  /** Unlinks cb through the slot its prev names. */
  function Unlink(l: Links, cb: Cb): Links {
    var n := NextCb(l, cb);
    var l1 := match PrevSlot(l, cb)
              case NoSlot => l
              case HeadSlot => l.(head := n)
              case NextOf(o) => l.(next := l.next[o := n]);
    match n
    case None => l1
    case Some(m) => l1.(prev := l1.prev[m := PrevSlot(l1, cb)])
  }

  // ----- well-formed lists -----

  ghost function Elem(list: seq<Cb>, i: int): Option<Cb> {
    if 0 <= i < |list| then Some(list[i]) else None
  }

  ghost predicate NodeAt(l: Links, list: seq<Cb>, i: int)
    requires 0 <= i < |list|
  {
    && NextCb(l, list[i]) == Elem(list, i + 1)
    && PrevSlot(l, list[i]) == if i == 0 then HeadSlot else NextOf(list[i - 1])
  }

  ghost predicate WellFormed(l: Links, list: seq<Cb>) {
    && Distinct(list) && l.head == Elem(list, 0)
    && forall i :: 0 <= i < |list| ==> NodeAt(l, list, i)
  }

  lemma PushFrontOk(l: Links, list: seq<Cb>, cb: Cb)
    requires WellFormed(l, list) && cb !in list
    ensures WellFormed(PushFront(l, cb), [cb] + list)
  {
    var all := [cb] + list;
    forall i, j | 0 <= i < |all| && 0 <= j < |all| && i != j
      ensures Differ(all, i, j)
    {
      assert i > 0 && j > 0 ==> Differ(list, i - 1, j - 1);
    }
    forall i | 0 <= i < |all|
      ensures NodeAt(PushFront(l, cb), all, i)
    {
      if i > 0 {
        assert NodeAt(l, list, i - 1);
        assert i > 1 ==> Differ(list, i - 1, 0);
      }
    }
  }

  lemma PopFrontOk(l: Links, list: seq<Cb>)
    requires WellFormed(l, list) && list != []
    ensures WellFormed(PopFront(l, list[0]), list[1..]) && list[0] !in list[1..]
  {
    var rest := list[1..];
    assert NodeAt(l, list, 0);
    forall i, j | 0 <= i < |rest| && 0 <= j < |rest| && i != j
      ensures Differ(rest, i, j)
    {
      assert Differ(list, i + 1, j + 1);
    }
    forall i | 0 <= i < |rest|
      ensures rest[i] != list[0]
      ensures NodeAt(PopFront(l, list[0]), rest, i)
    {
      assert NodeAt(l, list, i + 1);
      assert Differ(list, i + 1, 0);
      assert i > 0 ==> Differ(list, i + 1, 1);
    }
  }

  ghost function Without(list: seq<Cb>, k: nat): seq<Cb>
    requires k < |list|
  {
    list[..k] + list[k + 1..]
  }

  lemma WithoutElements(list: seq<Cb>, k: nat)
    requires Distinct(list) && k < |list|
    ensures Distinct(Without(list, k))
    ensures forall c :: c in Without(list, k) <==> c in list && c != list[k]
  {
    var rest := Without(list, k);
    forall i, j | 0 <= i < |rest| && 0 <= j < |rest| && i != j
      ensures Differ(rest, i, j)
    {
      assert Differ(list, if i < k then i else i + 1, if j < k then j else j + 1);
    }
    forall c
      ensures c in rest <==> c in list && c != list[k]
    {
      if c in list && c != list[k] {
        var i :| 0 <= i < |list| && list[i] == c;
        assert rest[if i < k then i else i - 1] == c;
      }
      if c in rest {
        var i :| 0 <= i < |rest| && rest[i] == c;
        assert Differ(list, if i < k then i else i + 1, k);
      }
    }
  }

  lemma UnlinkOk(l: Links, list: seq<Cb>, k: nat)
    requires WellFormed(l, list) && k < |list|
    ensures WellFormed(Unlink(l, list[k]), Without(list, k))
  {
    var rest := Without(list, k);
    WithoutElements(list, k);
    assert NodeAt(l, list, k);
    if k + 1 < |list| {
      assert NodeAt(l, list, k + 1);
      assert Differ(list, k, k + 1);
    }
    forall i | 0 <= i < |rest|
      ensures NodeAt(Unlink(l, list[k]), rest, i)
    {
      var i' := if i < k then i else i + 1;
      assert NodeAt(l, list, i');
      assert Differ(list, i', k);
      assert k > 0 && i' != k - 1 ==> Differ(list, i', k - 1);
      assert k + 1 < |list| && i' != k + 1 ==> Differ(list, i', k + 1);
    }
  }
}

/** A singly linked queue through the nodes' own next links, with a head and a tail. */
module IntrusiveQueues {
  import opened Sequences

  class Link {
    var next: Link?

    constructor ()
      ensures next == null
    {
      next := null;
    }
  }

  /** The i-th link, or none past the end. */
  ghost function At(s: seq<Link>, i: nat): Link? {
    if i < |s| then s[i] else null
  }

  /** From its first link on, the next links lead through s and then to `rest`. */
  ghost predicate Chain(s: seq<Link>, rest: Link?)
    reads Elements(s)
  {
    forall i :: 0 <= i < |s| ==> Leads(s, i, rest)
  }

  ghost predicate Leads(s: seq<Link>, i: nat, rest: Link?)
    requires i < |s|
    reads s[i]
  {
    s[i].next == if i + 1 < |s| then s[i + 1] else rest
  }

  /** A chain that ends is determined by where it starts. */
  lemma {:induction false} ChainUnique(a: seq<Link>, b: seq<Link>)
    requires Chain(a, null) && Chain(b, null) && At(a, 0) == At(b, 0)
    ensures a == b
  {
    if a != [] {
      assert Leads(a, 0, null) && Leads(b, 0, null);
      ChainTail(a, null);
      ChainTail(b, null);
      ChainUnique(a[1..], b[1..]);
      assert a == [a[0]] + a[1..] && b == [b[0]] + b[1..];
    }
  }

  lemma ChainTail(s: seq<Link>, rest: Link?)
    requires Chain(s, rest) && s != []
    ensures Chain(s[1..], rest)
  {
    forall i | 0 <= i < |s| - 1
      ensures Leads(s[1..], i, rest)
    {
      assert Leads(s, i + 1, rest);
    }
  }

  lemma ChainJoined(a: seq<Link>, b: seq<Link>, rest: Link?)
    requires Chain(a, if b == [] then rest else b[0]) && Chain(b, rest)
    ensures Chain(a + b, rest)
  {
    forall i | 0 <= i < |a + b|
      ensures Leads(a + b, i, rest)
    {
      if i < |a| {
        assert Leads(a, i, if b == [] then rest else b[0]);
      } else {
        assert Leads(b, i - |a|, rest);
      }
    }
  }

  lemma ChainSplit(s: seq<Link>, i: nat, rest: Link?)
    requires Chain(s, rest) && i <= |s|
    ensures Chain(s[..i], if i < |s| then s[i] else rest) && Chain(s[i..], rest)
  {
    var front, to := s[..i], if i < |s| then s[i] else rest;
    forall j | 0 <= j < |front|
      ensures Leads(front, j, to)
    {
      assert Leads(s, j, rest);
    }
    forall j | 0 <= j < |s| - i
      ensures Leads(s[i..], j, rest)
    {
      assert Leads(s, i + j, rest);
    }
  }

  class IntrusiveQueue {
    var head: Link?
    var tail: Link?
    ghost var links: seq<Link>   // front to back

    ghost predicate Ends()
      reads this
    {
      && Distinct(links)
      && head == At(links, 0)
      && tail == if links == [] then null else links[|links| - 1]
    }

    ghost predicate Valid()
      reads this, Elements(links)
    {
      Ends() && Chain(links, null)
    }

    constructor ()
      ensures Valid() && links == []
    {
      head, tail, links := null, null, [];
    }

    function Empty(): (r: bool)
      requires Ends()
      reads this
      ensures r <==> links == []
    {
      head == null
    }

    method Clear()
      modifies this
      ensures Valid() && links == []
    {
      head, tail, links := null, null, [];
    }

    method PopFront() returns (item: Link?)
      requires Valid()
      modifies this
      ensures Valid()
      ensures old(links) == [] ==> item == null && links == []
      ensures old(links) != [] ==> old(links) == [item] + links
    {
      if Empty() {
        return null;
      }
      assert Leads(links, 0, null);
      ChainTail(links, null);
      DistinctParts(links, 1);
      item := head;
      head := head.next;
      if item.next == null {
        tail := null;
      }
      links := links[1..];
    }

    method PushFront(item: Link)
      requires Valid() && item !in links
      modifies this, item`next
      ensures Valid() && links == [item] + old(links)
    {
      item.next := head;
      head := item;
      if tail == null {
        tail := item;
      }
      DistinctJoined([item], links);
      ChainJoined([item], links, null);
      links := [item] + links;
    }

    method PushBack(item: Link)
      requires Valid() && item !in links
      modifies this, item`next, Elements(links)`next
      ensures Valid() && links == old(links) + [item]
    {
      DistinctJoined(links, [item]);
      item.next := null;
      if tail == null {
        head := item;
      } else {
        SetRest(links, tail, null, item);
      }
      tail := item;
      ChainJoined(links, [item], null);
      links := links + [item];
    }

    /** The moved-from queue is left empty. */
    method Append(other: IntrusiveQueue)
      requires Valid() && other.Valid() && other != this && Apart(links, other.links)
      modifies this, other, Elements(links)`next
      ensures Valid() && links == old(links) + old(other.links)
      ensures other.Valid() && other.links == []
    {
      if other.Empty() {
        return;
      }
      DistinctJoined(links, other.links);
      var otherHead := other.head;
      other.head := null;
      if Empty() {
        head := otherHead;
      } else {
        SetRest(links, tail, null, otherHead);
      }
      tail := other.tail;
      other.tail := null;
      ChainJoined(links, other.links, null);
      links := links + other.links;
      other.links := [];
    }

    /** Leaves the old next link of the other queue's tail to be overwritten. */
    method Prepend(other: IntrusiveQueue)
      requires Valid() && other.Ends() && other != this && Apart(other.links, links)
      requires exists rest :: Chain(other.links, rest)
      modifies this, other, Elements(other.links)`next
      ensures Valid() && links == old(other.links) + old(links)
      ensures other.Valid() && other.links == []
    {
      if other.Empty() {
        return;
      }
      DistinctJoined(other.links, links);
      ghost var behind :| Chain(other.links, behind);
      SetRest(other.links, other.tail, behind, head);
      head := other.head;
      if tail == null {
        tail := other.tail;
      }
      ChainJoined(other.links, links, null);
      links := other.links + links;
      other.tail, other.head, other.links := null, null, [];
    }

    /** Turns the list around in place. */
    static method CreateReversed(list: Link?, ghost s: seq<Link>) returns (q: IntrusiveQueue)
      requires Distinct(s) && Chain(s, null) && list == At(s, 0)
      modifies Elements(s)`next
      ensures fresh(q) && q.Valid() && q.links == Reversed(s)
    {
      var newHead, newTail, rest := null, list, list;
      ghost var done := [];
      ghost var left := s;
      while rest != null
        invariant Distinct(left) && Chain(left, null) && rest == At(left, 0)
        invariant Distinct(done) && Chain(done, null) && newHead == At(done, 0)
        invariant Apart(done, left) && Elements(done) <= Elements(s) && Elements(left) <= Elements(s)
        invariant newTail == if done != [] then done[|done| - 1] else At(left, 0)
        invariant Reversed(s) == Reversed(left) + done
        decreases |left|
      {
        DistinctParts(left, 1);
        ChainTail(left, null);
        assert Leads(left, 0, null);
        assert left[0] in left[..1];
        var next := rest.next;
        rest.next := newHead;
        newHead := rest;
        rest := next;
        ChainJoined([left[0]], done, null);
        DistinctJoined([left[0]], done);
        done := [left[0]] + done;
        left := left[1..];
      }
      q := new IntrusiveQueue();
      q.head, q.tail, q.links := newHead, newTail, done;
    }

    /** Finds the tail by walking. */
    static method Create(list: Link?, ghost s: seq<Link>) returns (q: IntrusiveQueue)
      requires Distinct(s) && Chain(s, null) && list == At(s, 0)
      ensures fresh(q) && q.Valid() && q.links == s
    {
      q := new IntrusiveQueue();
      q.head, q.tail, q.links := list, list, s;
      if list == null {
        return;
      }
      ghost var i := 0;
      assert Leads(s, 0, null);
      var last: Link := list;
      while last.next != null
        invariant i < |s| && last == s[i] && q.tail == last && q.head == list && q.links == s
        decreases |s| - i
      {
        assert Leads(s, i, null);
        last := last.next;
        q.tail := last;
        i := i + 1;
      }
      assert Leads(s, i, null);
    }

    /** Moves the first n links of this queue into an empty one. The last link moved still points at what followed
        it; whoever takes the prefix overwrites that link. */
    method SplicePrefix(other: IntrusiveQueue, last: Link, sentinel: Link?, ghost n: nat)
      requires Valid() && other.Valid() && other != this && other.links == []
      requires 1 <= n <= |links| && last == links[n - 1] && sentinel == At(links, n)
      modifies this, other
      ensures Valid() && links == old(links[n..])
      ensures other.Ends() && other.links == old(links[..n]) && Chain(other.links, sentinel)
    {
      DistinctParts(links, n);
      ChainSplit(links, n, null);
      var first := head;
      head := sentinel;
      if head == null {
        tail := null;
      }
      other.head, other.tail := first, last;
      other.links := links[..n];
      links := links[n..];
    }
  }

  /** Sets the link behind the last of a chain. */
  method SetRest(ghost s: seq<Link>, last: Link, ghost before: Link?, rest: Link?)
    requires Distinct(s) && s != [] && last == s[|s| - 1] && Chain(s, before)
    modifies last`next
    ensures Chain(s, rest)
  {
    last.next := rest;
    forall i | 0 <= i < |s|
      ensures Leads(s, i, rest)
    {
      assert old(Leads(s, i, before));
      if i != |s| - 1 {
        assert Differ(s, i, |s| - 1);
      }
    }
  }
}

/** Sequences without repetitions, and their rearrangements. */
module Sequences {

  ghost predicate Differ<T>(s: seq<T>, i: int, j: int)
    requires 0 <= i < |s| && 0 <= j < |s|
  {
    s[i] != s[j]
  }

  ghost predicate Distinct<T>(s: seq<T>) {
    forall i, j :: 0 <= i < |s| && 0 <= j < |s| && i != j ==> Differ(s, i, j)
  }

  function Reversed<T>(s: seq<T>): seq<T> {
    if s == [] then [] else Reversed(s[1..]) + [s[0]]
  }

  ghost function Swapped<T>(s: seq<T>, i: nat, j: nat): (r: seq<T>)
    requires i < |s| && j < |s|
    ensures multiset(r) == multiset(s)
  {
    s[i := s[j]][j := s[i]]
  }

  lemma SwappedDistinct<T>(s: seq<T>, i: nat, j: nat)
    requires i < |s| && j < |s| && Distinct(s)
    ensures Distinct(Swapped(s, i, j))
  {
    var r := Swapped(s, i, j);
    forall a, b | 0 <= a < |r| && 0 <= b < |r| && a != b
      ensures Differ(r, a, b)
    {
      var a' := if a == i then j else if a == j then i else a;
      var b' := if b == i then j else if b == j then i else b;
      assert Differ(s, a', b');
    }
  }

  ghost function Elements<T>(s: seq<T>): set<T> {
    set x | x in s
  }

  lemma SameElements<T>(a: seq<T>, b: seq<T>)
    requires multiset(a) == multiset(b)
    ensures Elements(a) == Elements(b)
  {
    forall x
      ensures x in a <==> x in b
    {
      assert x in a <==> x in multiset(a);
    }
  }

  ghost predicate Apart<T>(a: seq<T>, b: seq<T>) {
    forall x :: x in a ==> x !in b
  }

  lemma DistinctJoined<T>(a: seq<T>, b: seq<T>)
    requires Distinct(a) && Distinct(b) && Apart(a, b)
    ensures Distinct(a + b)
  {
    var s := a + b;
    forall i, j | 0 <= i < |s| && 0 <= j < |s| && i != j
      ensures Differ(s, i, j)
    {
      if i < |a| && j < |a| {
        assert Differ(a, i, j);
      } else if i >= |a| && j >= |a| {
        assert Differ(b, i - |a|, j - |a|);
      } else if i < |a| {
        assert a[i] in a && b[j - |a|] in b;
      } else {
        assert a[j] in a && b[i - |a|] in b;
      }
    }
  }

  lemma DistinctParts<T>(s: seq<T>, i: nat)
    requires Distinct(s) && i <= |s|
    ensures Distinct(s[..i]) && Distinct(s[i..]) && Apart(s[..i], s[i..])
  {
    forall a, b | 0 <= a < i && 0 <= b < i && a != b
      ensures Differ(s[..i], a, b)
    {
      assert Differ(s, a, b);
    }
    forall a, b | 0 <= a < |s| - i && 0 <= b < |s| - i && a != b
      ensures Differ(s[i..], a, b)
    {
      assert Differ(s, a + i, b + i);
    }
    forall x | x in s[..i]
      ensures x !in s[i..]
    {
      var a :| 0 <= a < i && s[a] == x;
      forall b | i <= b < |s|
        ensures s[b] != x
      {
        assert Differ(s, a, b);
      }
    }
  }

  lemma {:induction false} DistinctCounts<T>(s: seq<T>, x: T)
    requires Distinct(s)
    ensures multiset(s)[x] == if x in s then 1 else 0
  {
    if s != [] {
      DistinctParts(s, 1);
      DistinctCounts(s[1..], x);
      assert s == [s[0]] + s[1..];
      assert s[0] in s[..1];
    }
  }

  lemma {:induction false} ReversedElements<T>(s: seq<T>)
    ensures multiset(Reversed(s)) == multiset(s) && |Reversed(s)| == |s|
    ensures forall x :: x in Reversed(s) <==> x in s
  {
    if s != [] {
      ReversedElements(s[1..]);
      assert s == [s[0]] + s[1..];
    }
  }

  lemma TwiceCounts<X>(s: seq<X>, i: nat, j: nat)
    requires i < j < |s|
    ensures s[i] == s[j] ==> multiset(s)[s[i]] >= 2
  {
    assert s == s[..j] + s[j..];
    assert s[i] in s[..j] && s[j] in s[j..];
  }
}

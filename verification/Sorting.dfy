/** A stable sort, as the platform's array sort promises it. */
module Sorting {
  ghost predicate Total<T(!new)>(leq: (T, T) -> bool) {
    forall x, y :: leq(x, y) || leq(y, x)
  }

  ghost predicate Transitive<T(!new)>(leq: (T, T) -> bool) {
    forall x, y, z :: leq(x, y) && leq(y, z) ==> leq(x, z)
  }

  ghost predicate Preorder<T(!new)>(leq: (T, T) -> bool) {
    Total(leq) && Transitive(leq)
  }

  predicate Ordered<T(!new)>(leq: (T, T) -> bool, s: seq<T>) {
    forall i, j :: 0 <= i < j < |s| ==> leq(s[i], s[j])
  }

  /** No two elements at different places compare as equal. */
  predicate NoTies<T(!new)>(leq: (T, T) -> bool, s: seq<T>) {
    forall i, j :: 0 <= i < j < |s| ==> !(leq(s[i], s[j]) && leq(s[j], s[i]))
  }

  /** Behind everything that is not greater. */
  function Inserted<T(!new)>(leq: (T, T) -> bool, sorted: seq<T>, x: T): seq<T> {
    if sorted != [] && !leq(sorted[|sorted| - 1], x)
    then Inserted(leq, sorted[..|sorted| - 1], x) + [sorted[|sorted| - 1]]
    else sorted + [x]
  }

  function Sorted<T(!new)>(leq: (T, T) -> bool, s: seq<T>): seq<T> {
    if s == [] then [] else Inserted(leq, Sorted(leq, s[..|s| - 1]), s[|s| - 1])
  }

  lemma {:induction false} InsertedPermutes<T(!new)>(leq: (T, T) -> bool, sorted: seq<T>, x: T)
    ensures multiset(Inserted(leq, sorted, x)) == multiset(sorted) + multiset{x}
  {
    if sorted == [] || leq(sorted[|sorted| - 1], x) {
    } else {
      InsertedPermutes(leq, sorted[..|sorted| - 1], x);
      assert sorted == sorted[..|sorted| - 1] + [sorted[|sorted| - 1]];
    }
  }

  lemma {:induction false} InsertedIsOrdered<T(!new)>(leq: (T, T) -> bool, sorted: seq<T>, x: T)
    requires Preorder(leq) && Ordered(leq, sorted)
    ensures Ordered(leq, Inserted(leq, sorted, x))
    ensures forall k :: 0 <= k < |Inserted(leq, sorted, x)| ==>
              Inserted(leq, sorted, x)[k] == x || Inserted(leq, sorted, x)[k] in sorted
  {
    if sorted != [] && !leq(sorted[|sorted| - 1], x) {
      InsertedIsOrdered(leq, sorted[..|sorted| - 1], x);
    } else {
      forall i | 0 <= i < |sorted|
        ensures leq(sorted[i], x)
      {
        assert i < |sorted| - 1 ==> leq(sorted[i], sorted[|sorted| - 1]);
      }
    }
  }

  lemma SortedGrows<T(!new)>(leq: (T, T) -> bool, init: seq<T>, last: T)
    ensures Sorted(leq, init + [last]) == Inserted(leq, Sorted(leq, init), last)
  {
    hide Inserted;
    assert (init + [last])[..|init|] == init;
  }

  lemma NothingSorted<T(!new)>(leq: (T, T) -> bool)
    ensures Sorted(leq, []) == []
  {}

  lemma {:induction false} SortedPermutes<T(!new)>(leq: (T, T) -> bool, s: seq<T>)
    ensures multiset(Sorted(leq, s)) == multiset(s)
  {
    hide Sorted, Inserted;
    if s == [] {
      NothingSorted(leq);
    } else {
      var init, last := s[..|s| - 1], s[|s| - 1];
      assert s == init + [last];
      SortedPermutes(leq, init);
      InsertedPermutes(leq, Sorted(leq, init), last);
      SortedGrows(leq, init, last);
    }
  }

  lemma {:induction false} SortedIsOrdered<T(!new)>(leq: (T, T) -> bool, s: seq<T>)
    requires Preorder(leq)
    ensures Ordered(leq, Sorted(leq, s))
  {
    if s == [] {
    } else {
      SortedIsOrdered(leq, s[..|s| - 1]);
      InsertedIsOrdered(leq, Sorted(leq, s[..|s| - 1]), s[|s| - 1]);
    }
  }

  ghost predicate Permutes<T(!new)>(s: seq<T>, t: seq<T>) {
    multiset(s) == multiset(t)
  }

  lemma SameLength<T(!new)>(s: seq<T>, t: seq<T>)
    requires Permutes(s, t)
    ensures |s| == |t|
  {
    assert |multiset(s)| == |s| && |multiset(t)| == |t|;
  }

  /** The last of an ordered sequence is a greatest element, and without ties there is only one. */
  lemma SameLast<T(!new)>(leq: (T, T) -> bool, s: seq<T>, t: seq<T>)
    requires Ordered(leq, s) && Ordered(leq, t) && Permutes(s, t) && NoTies(leq, s) && s != [] && t != []
    ensures s[|s| - 1] == t[|t| - 1]
  {
    var x, y := s[|s| - 1], t[|t| - 1];
    assert x in multiset(t) && y in multiset(s);
    var i :| 0 <= i < |t| && t[i] == x;
    var j :| 0 <= j < |s| && s[j] == y;
    assert j < |s| - 1 ==> leq(s[j], s[|s| - 1]);
    assert i < |t| - 1 ==> leq(t[i], t[|t| - 1]);
  }

  lemma LastRemoved<T(!new)>(s: seq<T>)
    requires s != []
    ensures multiset(s[..|s| - 1]) == multiset(s) - multiset{s[|s| - 1]}
  {
    assert s == s[..|s| - 1] + [s[|s| - 1]];
  }

  lemma WithoutLast<T(!new)>(s: seq<T>, t: seq<T>)
    requires Permutes(s, t) && s != [] && t != [] && s[|s| - 1] == t[|t| - 1]
    ensures Permutes(s[..|s| - 1], t[..|t| - 1])
  {
    LastRemoved(s);
    LastRemoved(t);
  }

  /** Without ties, two ordered sequences of the same elements are equal. */
  lemma {:induction false} OrderedIsUnique<T(!new)>(leq: (T, T) -> bool, s: seq<T>, t: seq<T>)
    requires Ordered(leq, s) && Ordered(leq, t) && NoTies(leq, s)
    requires Permutes(s, t)
    ensures s == t
  {
    SameLength(s, t);
    if s == [] {
    } else {
      SameLast(leq, s, t);
      WithoutLast(s, t);
      hide Permutes;
      OrderedIsUnique(leq, s[..|s| - 1], t[..|t| - 1]);
      assert s == s[..|s| - 1] + [s[|s| - 1]] && t == t[..|t| - 1] + [t[|t| - 1]];
    }
  }

  lemma {:induction false} TiesArePermuted<T(!new)>(leq: (T, T) -> bool, s: seq<T>, t: seq<T>)
    requires Preorder(leq) && multiset(s) == multiset(t) && NoTies(leq, s)
    ensures NoTies(leq, t)
    decreases |s|
  {
    forall i, j | 0 <= i < j < |t|
      ensures !(leq(t[i], t[j]) && leq(t[j], t[i]))
    {
      assert t[i] in multiset(s) && t[j] in multiset(s);
      if t[i] == t[j] {
        TwiceInBoth(s, t, i, j);
      } else {
        var k :| 0 <= k < |s| && s[k] == t[i];
        var l :| 0 <= l < |s| && s[l] == t[j];
        assert k < l || l < k;
      }
    }
  }

  lemma TwiceInBoth<T(!new)>(s: seq<T>, t: seq<T>, i: nat, j: nat)
    requires multiset(s) == multiset(t) && i < j < |t| && t[i] == t[j]
    ensures exists k, l :: 0 <= k < l < |s| && s[k] == t[i] && s[l] == t[i]
  {
    var x := t[i];
    assert t == t[..i] + [x] + t[i + 1..j] + [x] + t[j + 1..];
    assert multiset(t)[x] >= 2;
    TwoPlaces(s, x);
  }

  lemma {:induction false} TwoPlaces<T(!new)>(s: seq<T>, x: T)
    requires multiset(s)[x] >= 2
    ensures exists k, l :: 0 <= k < l < |s| && s[k] == x && s[l] == x
  {
    var n := |s| - 1;
    assert s == s[..n] + [s[n]];
    if s[n] != x {
      TwoPlaces(s[..n], x);
      var k, l :| 0 <= k < l < n && s[..n][k] == x && s[..n][l] == x;
      assert s[k] == x && s[l] == x;
    } else {
      assert x in multiset(s[..n]);
      var k :| 0 <= k < n && s[..n][k] == x;
      assert s[k] == x && s[n] == x;
    }
  }

  /** A sort without ties does not depend on the order of its input. */
  lemma SortIgnoresOrder<T(!new)>(leq: (T, T) -> bool, s: seq<T>, t: seq<T>)
    requires Preorder(leq) && multiset(s) == multiset(t) && NoTies(leq, s)
    ensures Sorted(leq, s) == Sorted(leq, t)
  {
    SortedPermutes(leq, s);
    SortedPermutes(leq, t);
    SortedIsOrdered(leq, s);
    SortedIsOrdered(leq, t);
    TiesArePermuted(leq, s, Sorted(leq, s));
    OrderedIsUnique(leq, Sorted(leq, s), Sorted(leq, t));
  }
}

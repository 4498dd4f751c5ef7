/** Stable insertion sort by a numeric key, and why its result does not depend on the input's order. */
module Sorting {

  /** Inserts before every entry with an equal or larger key. */
  function Insert<T>(key: T -> nat, x: T, sorted: seq<T>): seq<T> {
    if sorted == [] || key(x) <= key(sorted[0]) then [x] + sorted
    else [sorted[0]] + Insert(key, x, sorted[1..])
  }

  /** `sorted(xs, key=key)`: entries with equal keys keep their order. */
  function SortBy<T>(key: T -> nat, xs: seq<T>): seq<T> {
    if xs == [] then [] else Insert(key, xs[0], SortBy(key, xs[1..]))
  }

  ghost predicate Ascending<T>(key: T -> nat, xs: seq<T>) {
    forall i, j :: 0 <= i < j < |xs| ==> key(xs[i]) <= key(xs[j])
  }

  ghost predicate DistinctKeys<T(!new)>(key: T -> nat, xs: multiset<T>) {
    forall x, y :: x in xs && y in xs && key(x) == key(y) ==> x == y
  }

  ghost predicate NoRepeats<T>(s: seq<T>) {
    forall i, j :: 0 <= i < j < |s| ==> s[i] != s[j]
  }

  lemma {:induction false} InsertAdds<T>(key: T -> nat, x: T, sorted: seq<T>)
    ensures multiset(Insert(key, x, sorted)) == multiset(sorted) + multiset{x}
  {
    if sorted == [] || key(x) <= key(sorted[0]) {
    } else {
      InsertAdds(key, x, sorted[1..]);
      assert sorted == [sorted[0]] + sorted[1..];
    }
  }

  lemma {:induction false} InsertAscends<T>(key: T -> nat, x: T, sorted: seq<T>, low: nat)
    requires Ascending(key, sorted)
    requires low <= key(x) && forall i :: 0 <= i < |sorted| ==> low <= key(sorted[i])
    ensures Ascending(key, Insert(key, x, sorted))
    ensures forall i :: 0 <= i < |Insert(key, x, sorted)| ==> low <= key(Insert(key, x, sorted)[i])
  {
    if sorted == [] || key(x) <= key(sorted[0]) {
    } else {
      InsertAscends(key, x, sorted[1..], key(sorted[0]));
    }
  }

  lemma InsertSorts<T>(key: T -> nat, x: T, sorted: seq<T>)
    requires Ascending(key, sorted)
    ensures Ascending(key, Insert(key, x, sorted))
    ensures multiset(Insert(key, x, sorted)) == multiset(sorted) + multiset{x}
  {
    InsertAdds(key, x, sorted);
    InsertAscends(key, x, sorted, 0);
  }

  lemma {:induction false} SortBySorts<T>(key: T -> nat, xs: seq<T>)
    ensures Ascending(key, SortBy(key, xs))
    ensures multiset(SortBy(key, xs)) == multiset(xs)
  {
    if xs != [] {
      SortBySorts(key, xs[1..]);
      InsertSorts(key, xs[0], SortBy(key, xs[1..]));
      assert xs == [xs[0]] + xs[1..];
    }
  }

  lemma LeastFirst<T>(key: T -> nat, a: seq<T>, b: seq<T>)
    requires Ascending(key, b) && a != [] && b != []
    requires multiset(a) == multiset(b)
    ensures key(b[0]) <= key(a[0])
  {
    assert a[0] in multiset(b);
    var i :| 0 <= i < |b| && b[i] == a[0];
  }

  lemma TailMultiset<T>(a: seq<T>)
    requires a != []
    ensures multiset(a) == multiset{a[0]} + multiset(a[1..])
  {
    assert a == [a[0]] + a[1..];
  }

  lemma Cancel<T>(x: T, a: multiset<T>, b: multiset<T>)
    requires multiset{x} + a == multiset{x} + b
    ensures a == b
  {
    assert a == multiset{x} + a - multiset{x};
    assert b == multiset{x} + b - multiset{x};
  }

  lemma SubsetDistinct<T(!new)>(key: T -> nat, part: multiset<T>, whole: multiset<T>)
    requires part <= whole && DistinctKeys(key, whole)
    ensures DistinctKeys(key, part)
  {
  }

  lemma SameHead<T(!new)>(key: T -> nat, a: seq<T>, b: seq<T>)
    requires Ascending(key, a) && Ascending(key, b) && a != [] && b != []
    requires multiset(a) == multiset(b) && DistinctKeys(key, multiset(a))
    ensures a[0] == b[0]
  {
    LeastFirst(key, a, b);
    LeastFirst(key, b, a);
    assert a[0] in multiset(a) && b[0] in multiset(b);
  }

  lemma SameTail<T(!new)>(key: T -> nat, a: seq<T>, b: seq<T>)
    requires a != [] && b != [] && a[0] == b[0]
    requires multiset(a) == multiset(b) && DistinctKeys(key, multiset(a))
    ensures multiset(a[1..]) == multiset(b[1..]) && DistinctKeys(key, multiset(a[1..]))
  {
    TailMultiset(a);
    TailMultiset(b);
    Cancel(a[0], multiset(a[1..]), multiset(b[1..]));
    SubsetDistinct(key, multiset(a[1..]), multiset(a));
  }

  lemma AscendingTail<T>(key: T -> nat, a: seq<T>)
    requires Ascending(key, a) && a != []
    ensures Ascending(key, a[1..])
  {
  }

  /** An ascending arrangement of a multiset with distinct keys is unique. */
  lemma {:induction false} AscendingUnique<T(!new)>(key: T -> nat, a: seq<T>, b: seq<T>)
    requires Ascending(key, a) && Ascending(key, b)
    requires multiset(a) == multiset(b) && DistinctKeys(key, multiset(a))
    ensures a == b
  {
    assert |a| == |multiset(a)| == |multiset(b)| == |b|;
    if a != [] {
      SameHead(key, a, b);
      SameTail(key, a, b);
      AscendingTail(key, a);
      AscendingTail(key, b);
      AscendingUnique(key, a[1..], b[1..]);
      SameParts(a, b);
    }
  }

  lemma SameParts<T>(a: seq<T>, b: seq<T>)
    requires a != [] && b != [] && a[0] == b[0] && a[1..] == b[1..]
    ensures a == b
  {
    assert a == [a[0]] + a[1..] && b == [b[0]] + b[1..];
  }

  lemma SortIsCanonical<T(!new)>(key: T -> nat, a: seq<T>, b: seq<T>)
    requires multiset(a) == multiset(b) && DistinctKeys(key, multiset(a))
    ensures SortBy(key, a) == SortBy(key, b)
  {
    SortBySorts(key, a);
    SortBySorts(key, b);
    AscendingUnique(key, SortBy(key, a), SortBy(key, b));
  }

  lemma {:induction false} CountNoRepeats<T>(a: seq<T>, x: T)
    requires NoRepeats(a)
    ensures multiset(a)[x] == if x in a then 1 else 0
  {
    if a != [] {
      var init, last := a[..|a| - 1], a[|a| - 1];
      CountNoRepeats(init, x);
      assert a == init + [last];
    }
  }

  /** Two duplicate-free listings of the same set have the same multiset. */
  lemma SameSetSameMultiset<T>(a: seq<T>, b: seq<T>)
    requires NoRepeats(a) && NoRepeats(b)
    requires forall x :: x in a <==> x in b
    ensures multiset(a) == multiset(b)
  {
    forall x
      ensures multiset(a)[x] == multiset(b)[x]
    {
      CountNoRepeats(a, x);
      CountNoRepeats(b, x);
    }
  }
}

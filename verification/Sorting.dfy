/** The library sort that the source calls on lists of transactions and of outputs, as an
    insertion sort by a key. */
module Sorting {

  ghost predicate Ascending<T>(s: seq<T>, key: T -> real) {
    forall i, j | 0 <= i < j < |s| :: key(s[i]) <= key(s[j])
  }

  method FindSlot<T>(sorted: seq<T>, key: T -> real, value: real) returns (i: nat)
    requires Ascending(sorted, key)
    ensures i <= |sorted|
    ensures forall x | x in sorted[..i] :: key(x) <= value
    ensures forall x | x in sorted[i..] :: key(x) > value
  {
    i := |sorted|;
    while i > 0 && key(sorted[i - 1]) > value
      invariant 0 <= i <= |sorted|
      invariant forall k | i <= k < |sorted| :: key(sorted[k]) > value
    {
      i := i - 1;
    }
  }

  lemma InsertSorts<T>(a: seq<T>, o: T, b: seq<T>, key: T -> real)
    requires Ascending(a + b, key)
    requires (forall x | x in a :: key(x) <= key(o)) && (forall x | x in b :: key(x) > key(o))
    ensures Ascending(a + [o] + b, key)
  {
    var r, s := a + [o] + b, a + b;
    forall i, j | 0 <= i < j < |r|
      ensures key(r[i]) <= key(r[j])
    {
      if i == |a| {
        assert r[j] in b;
      } else if j == |a| {
        assert r[i] in a;
      } else {
        var i', j' := if i < |a| then i else i - 1, if j < |a| then j else j - 1;
        assert r[i] == s[i'] && r[j] == s[j'];
      }
    }
  }

  method SortBy<T>(s: seq<T>, key: T -> real) returns (r: seq<T>)
    ensures Ascending(r, key) && multiset(r) == multiset(s)
  {
    r := [];
    for n := 0 to |s|
      invariant Ascending(r, key) && multiset(r) == multiset(s[..n])
    {
      assert s[..n + 1] == s[..n] + [s[n]];
      var i := FindSlot(r, key, key(s[n]));
      assert r == r[..i] + r[i..];
      InsertSorts(r[..i], s[n], r[i..], key);
      r := r[..i] + [s[n]] + r[i..];
    }
    assert s[..|s|] == s;
  }

  ghost predicate NoRepeats<T>(s: seq<T>) {
    forall i, j | 0 <= i < j < |s| :: s[i] != s[j]
  }

  lemma Counted<T>(s: seq<T>, last: T, x: T)
    ensures multiset(s + [last])[x] == multiset(s)[x] + (if x == last then 1 else 0)
  {
    assert multiset(s + [last]) == multiset(s) + multiset{last};
  }

  lemma {:induction false} RepeatsCounted<T>(s: seq<T>)
    ensures NoRepeats(s) <==> forall x :: multiset(s)[x] <= 1
  {
    if s != [] {
      var before, last := s[..|s| - 1], s[|s| - 1];
      assert s == before + [last];
      RepeatsCounted(before);
      forall x
        ensures multiset(s)[x] == multiset(before)[x] + (if x == last then 1 else 0)
      {
        Counted(before, last, x);
      }
      assert last in before <==> multiset(before)[last] > 0;
      assert NoRepeats(s) <==> NoRepeats(before) && last !in before;
    }
  }

  /** A list with the same elements has the same length and no more repetitions. */
  lemma SameElements<T>(r: seq<T>, s: seq<T>)
    requires multiset(r) == multiset(s)
    ensures |r| == |s| && (forall x :: x in r <==> x in s)
    ensures NoRepeats(r) <==> NoRepeats(s)
  {
    assert |multiset(r)| == |r| && |multiset(s)| == |s|;
    forall x
      ensures x in r <==> x in s
    {
      assert x in r <==> x in multiset(r);
    }
    RepeatsCounted(r);
    RepeatsCounted(s);
  }
}

/** Lists without repetitions, and sorting of numbers as Go's `sort.Slice` leaves them. */
module Sorting {

  predicate Distinct<T(==)>(s: seq<T>) {
    forall i, j :: 0 <= i < j < |s| ==> s[i] != s[j]
  }

  lemma {:induction false} CountOfDistinct<T>(s: seq<T>, x: T)
    requires Distinct(s)
    ensures multiset(s)[x] <= 1
  {
    if s != [] {
      var front, last := s[..|s| - 1], s[|s| - 1];
      assert s == front + [last];
      CountOfDistinct(front, x);
      if x == last { assert x !in front; }
    }
  }

  lemma TwiceCounted<T>(s: seq<T>, i: nat, j: nat)
    requires i < j < |s| && s[i] == s[j]
    ensures multiset(s)[s[i]] >= 2
  {
    assert s == s[..i] + [s[i]] + s[i + 1..j] + [s[j]] + s[j + 1..];
  }

  lemma SameLength<T>(s: seq<T>, t: seq<T>)
    requires multiset(s) == multiset(t)
    ensures |s| == |t|
  {
    assert |multiset(s)| == |s| && |multiset(t)| == |t|;
  }

  predicate Sorted(s: seq<int>) {
    forall i, j :: 0 <= i < j < |s| ==> s[i] <= s[j]
  }

  method InsertSorted(s: seq<int>, x: int) returns (r: seq<int>)
    requires Sorted(s)
    ensures Sorted(r) && multiset(r) == multiset(s) + multiset{x}
  {
    var i := |s|;
    while i > 0 && x < s[i - 1]
      invariant 0 <= i <= |s|
      invariant forall j :: i <= j < |s| ==> x < s[j]
    {
      i := i - 1;
    }
    r := s[..i] + [x] + s[i..];
    SplitMultiset(s, i, x);
    forall j, k | 0 <= j < k < |r| ensures r[j] <= r[k] {
      assert j != i ==> r[j] == s[if j < i then j else j - 1];
      assert k != i ==> r[k] == s[if k < i then k else k - 1];
    }
  }

  lemma SplitMultiset(s: seq<int>, i: nat, x: int)
    requires i <= |s|
    ensures multiset(s[..i] + [x] + s[i..]) == multiset(s) + multiset{x}
  {
    assert s == s[..i] + s[i..];
  }

  method Sort(s: seq<int>) returns (r: seq<int>)
    ensures Sorted(r) && multiset(r) == multiset(s)
  {
    r := [];
    for i := 0 to |s|
      invariant Sorted(r) && multiset(r) == multiset(s[..i])
    {
      assert s[..i + 1] == s[..i] + [s[i]];
      r := InsertSorted(r, s[i]);
    }
    assert s[..|s|] == s;
  }
}

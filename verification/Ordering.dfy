/**
 The byte order of Go strings (which is the order of their code points), strictly
 sorted lists and the fact that such a list is determined by its elements.
 */
module Ordering {

  predicate Less(a: string, b: string) {
    b != "" && (a == "" || a[0] < b[0] || (a[0] == b[0] && Less(a[1..], b[1..])))
  }

  lemma {:induction false} LessTotal(a: string, b: string)
    ensures Less(a, b) || a == b || Less(b, a)
  {
    if a != "" && b != "" && a[0] == b[0] {
      LessTotal(a[1..], b[1..]);
      assert a == [a[0]] + a[1..] && b == [b[0]] + b[1..];
    }
  }

  lemma {:induction false} LessIrreflexive(a: string)
    ensures !Less(a, a)
  {
    if a != "" {
      LessIrreflexive(a[1..]);
    }
  }

  lemma {:induction false} LessTransitive(a: string, b: string, c: string)
    requires Less(a, b) && Less(b, c)
    ensures Less(a, c)
  {
    if a != "" && a[0] == b[0] == c[0] {
      LessTransitive(a[1..], b[1..], c[1..]);
    }
  }

  predicate StrictlySorted(s: seq<string>) {
    forall i, j :: 0 <= i < j < |s| ==> Less(s[i], s[j])
  }

  /** Puts x where it belongs in a strictly sorted list; an element already there is not repeated. */
  function Insert(s: seq<string>, x: string): (r: seq<string>)
    requires StrictlySorted(s)
    ensures StrictlySorted(r)
    ensures forall y :: y in r <==> y in s || y == x
  {
    if s == [] then [x]
    else
      var last := s[|s| - 1];
      LessTotal(last, x);
      if Less(last, x) then
        assert forall i :: 0 <= i < |s| - 1 ==> Less(s[i], last);
        assert forall i :: 0 <= i < |s| ==> Less(s[i], x) by {
          forall i | 0 <= i < |s| - 1 ensures Less(s[i], x) { LessTransitive(s[i], last, x); }
        }
        s + [x]
      else if last == x then s
      else
        var front := s[..|s| - 1];
        assert s == front + [last];
        var r := Insert(front, x) + [last];
        assert forall y :: y in Insert(front, x) ==> Less(y, last);
        r
  }

  /** A strictly sorted list is determined by the set of its elements. */
  lemma {:induction false} SortedUnique(a: seq<string>, b: seq<string>)
    requires StrictlySorted(a) && StrictlySorted(b)
    requires forall x :: x in a <==> x in b
    ensures a == b
  {
    assert a != [] ==> a[0] in b;
    assert b != [] ==> b[0] in a;
    if a != [] {
      var x, y := a[|a| - 1], b[|b| - 1];
      LastIsGreatest(a, y);
      LastIsGreatest(b, x);
      if Less(x, y) && Less(y, x) {
        LessTransitive(x, y, x);
        LessIrreflexive(x);
      }
      assert x == y;
      var a', b' := a[..|a| - 1], b[..|b| - 1];
      assert a == a' + [x] && b == b' + [y];
      assert x !in a' && x !in b' by { LessIrreflexive(x); }
      forall z ensures z in a' <==> z in b' {
        assert z in a <==> z in a' || z == x;
        assert z in b <==> z in b' || z == x;
      }
      SortedUnique(a', b');
    }
  }

  lemma LastIsGreatest(s: seq<string>, x: string)
    requires StrictlySorted(s) && s != [] && x in s
    ensures x == s[|s| - 1] || Less(x, s[|s| - 1])
  {
  }
}

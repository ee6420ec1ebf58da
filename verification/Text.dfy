/** Trimming of surrounding white space, as Go's `strings.TrimSpace` does it, and lower case. */
module Text {

  /** The code points Go's `unicode.IsSpace` accepts. */
  predicate IsSpace(c: char) {
    var n := c as int;
    || 0x09 <= n <= 0x0D || n == 0x20 || n == 0x85 || n == 0xA0
    || n == 0x1680 || 0x2000 <= n <= 0x200A
    || n == 0x2028 || n == 0x2029 || n == 0x202F || n == 0x205F || n == 0x3000
  }

  /** Tab to carriage return, space, next line, and the space separators and the two line separators of Unicode. */
  lemma SpacesAre(c: char)
    ensures IsSpace(c) <==> c as int in {
      9, 10, 11, 12, 13, 32, 133, 160, 5760, 8192, 8193, 8194, 8195, 8196, 8197, 8198, 8199, 8200, 8201, 8202,
      8232, 8233, 8239, 8287, 12288}
  {
  }

  function TrimLeft(s: string): string {
    if s != "" && IsSpace(s[0]) then TrimLeft(s[1..]) else s
  }

  function TrimRight(s: string): string {
    if s != "" && IsSpace(s[|s| - 1]) then TrimRight(s[..|s| - 1]) else s
  }

  function Trim(s: string): string {
    TrimRight(TrimLeft(s))
  }

  /** Lower case, of the ASCII letters. */
  function ToLower(s: string): (r: string)
    ensures |r| == |s|
  {
    seq(|s|, i requires 0 <= i < |s| => if 'A' <= s[i] <= 'Z' then (s[i] as int + 32) as char else s[i])
  }

  /** No white space at either end. */
  predicate Trimmed(s: string) {
    s != "" ==> !IsSpace(s[0]) && !IsSpace(s[|s| - 1])
  }

  lemma {:induction false} TrimRightShape(s: string)
    ensures TrimRight(s) <= s
    ensures TrimRight(s) != "" ==> !IsSpace(TrimRight(s)[|TrimRight(s)| - 1])
  {
    if s != "" && IsSpace(s[|s| - 1]) {
      TrimRightShape(s[..|s| - 1]);
    }
  }

  lemma {:induction false} TrimLeftShape(s: string)
    ensures TrimLeft(s) != "" ==> !IsSpace(TrimLeft(s)[0])
  {
    if s != "" && IsSpace(s[0]) {
      TrimLeftShape(s[1..]);
    }
  }

  /** A trimmed text has no white space at its ends, and trimming it again changes nothing. */
  lemma TrimTrims(s: string)
    ensures Trimmed(Trim(s))
    ensures Trim(Trim(s)) == Trim(s)
  {
    TrimLeftShape(s);
    TrimRightShape(TrimLeft(s));
  }

  predicate Blank(s: string) {
    forall i :: 0 <= i < |s| ==> IsSpace(s[i])
  }

  lemma {:induction false} BlankLeft(a: string, s: string)
    requires Blank(a)
    ensures TrimLeft(a + s) == TrimLeft(s)
  {
    if a == [] {
      assert a + s == s;
    } else {
      assert (a + s)[1..] == a[1..] + s;
      BlankLeft(a[1..], s);
    }
  }

  lemma {:induction false} BlankRight(s: string, b: string)
    requires Blank(b)
    ensures TrimRight(s + b) == TrimRight(s)
  {
    if b == [] {
      assert s + b == s;
    } else {
      assert (s + b)[..|s + b| - 1] == s + b[..|b| - 1];
      BlankRight(s, b[..|b| - 1]);
    }
  }

  /** Trimming removes the white space around a text and nothing else. */
  lemma TrimIsMiddle(a: string, middle: string, b: string)
    requires Blank(a) && Blank(b) && Trimmed(middle)
    ensures Trim(a + middle + b) == middle
  {
    if middle == "" {
      assert a + middle + b == (a + b) + "";
      BlankLeft(a + b, "");
    } else {
      assert a + middle + b == a + (middle + b);
      BlankLeft(a, middle + b);
      BlankRight(middle, b);
    }
  }

  const UPPER := "ABCDEFGHIJKLMNOPQRSTUVWXYZ"
  const LOWER := "abcdefghijklmnopqrstuvwxyz"

  /** Letter by letter from one alphabet to the other, and nothing else is touched. */
  lemma LowerCase(s: string)
    ensures |ToLower(s)| == |s|
    ensures forall i, k :: 0 <= i < |s| && 0 <= k < 26 && s[i] == UPPER[k] ==> ToLower(s)[i] == LOWER[k]
    ensures forall i :: 0 <= i < |s| && s[i] !in UPPER ==> ToLower(s)[i] == s[i]
  {
    assert forall k :: 0 <= k < 26 ==> UPPER[k] as int == 'A' as int + k && LOWER[k] as int == 'a' as int + k;
    forall i | 0 <= i < |s| && s[i] !in UPPER ensures ToLower(s)[i] == s[i] {
      if 'A' <= s[i] <= 'Z' { assert s[i] == UPPER[s[i] as int - 'A' as int]; }
    }
  }
}

/** UTF-8 (RFC 3629), in which Go counts the length of a string. */
module Utf8 {

  function Encode(c: char): seq<int> {
    var n := c as int;
    if n < 0x80 then [n]
    else if n < 0x800 then [0xC0 + n / 64, 0x80 + n % 64]
    else if n < 0x10000 then [0xE0 + n / 4096, 0x80 + n / 64 % 64, 0x80 + n % 64]
    else [0xF0 + n / 262144, 0x80 + n / 4096 % 64, 0x80 + n / 64 % 64, 0x80 + n % 64]
  }

  function Bytes(s: string): seq<int> {
    if s == "" then [] else Encode(s[0]) + Bytes(s[1..])
  }

  predicate Tail(b: int) {
    0x80 <= b <= 0xBF
  }

  /** The sequences that section 4 of RFC 3629 allows, each lead with its number of tails and the range of the first. */
  predicate WellFormed(b: seq<int>) {
    && b != []
    && if b[0] <= 0x7F then 0 <= b[0] && |b| == 1
       else if 0xC2 <= b[0] <= 0xDF then |b| == 2 && Tail(b[1])
       else if b[0] == 0xE0 then |b| == 3 && 0xA0 <= b[1] <= 0xBF && Tail(b[2])
       else if b[0] == 0xED then |b| == 3 && 0x80 <= b[1] <= 0x9F && Tail(b[2])
       else if 0xE1 <= b[0] <= 0xEF then |b| == 3 && Tail(b[1]) && Tail(b[2])
       else if b[0] == 0xF0 then |b| == 4 && 0x90 <= b[1] <= 0xBF && Tail(b[2]) && Tail(b[3])
       else if 0xF1 <= b[0] <= 0xF3 then |b| == 4 && Tail(b[1]) && Tail(b[2]) && Tail(b[3])
       else b[0] == 0xF4 && |b| == 4 && 0x80 <= b[1] <= 0x8F && Tail(b[2]) && Tail(b[3])
  }

  /** The number that a sequence stands for. */
  function Decode(b: seq<int>): int {
    if |b| == 1 then b[0]
    else if |b| == 2 then (b[0] - 0xC0) * 64 + b[1] - 0x80
    else if |b| == 3 then ((b[0] - 0xE0) * 64 + b[1] - 0x80) * 64 + b[2] - 0x80
    else if |b| == 4 then (((b[0] - 0xF0) * 64 + b[1] - 0x80) * 64 + b[2] - 0x80) * 64 + b[3] - 0x80
    else -1
  }

  lemma ShortEncodesWell(c: char)
    requires c as int < 0x800
    ensures WellFormed(Encode(c)) && Decode(Encode(c)) == c as int
  {
  }

  lemma ThreeEncodeWell(c: char)
    requires 0x800 <= c as int < 0x10000
    ensures WellFormed(Encode(c)) && Decode(Encode(c)) == c as int
  {
    var n := c as int;
    assert n / 4096 == n / 64 / 64;
  }

  lemma FourEncodeWell(c: char)
    requires 0x10000 <= c as int
    ensures WellFormed(Encode(c)) && Decode(Encode(c)) == c as int
  {
    var n := c as int;
    assert n / 4096 == n / 64 / 64 && n / 262144 == n / 4096 / 64;
  }

  /** Every character is written as a sequence that is allowed, and stands for it. */
  lemma EncodesWell(c: char)
    ensures WellFormed(Encode(c)) && Decode(Encode(c)) == c as int
  {
    if c as int < 0x800 { ShortEncodesWell(c); }
    else if c as int < 0x10000 { ThreeEncodeWell(c); }
    else { FourEncodeWell(c); }
  }

  lemma {:induction false} Lengths(s: string)
    ensures |s| <= |Bytes(s)| <= 4 * |s|
    ensures (forall i :: 0 <= i < |s| ==> s[i] as int < 0x80) ==> |Bytes(s)| == |s|
  {
    if s != "" {
      Lengths(s[1..]);
    }
  }
}

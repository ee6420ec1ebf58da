/**
 The check of the tool listing (`official_tool_surface.py`): a scanner over the lines of the
 output, held against the grammar it stands for.
 */
module ToolSurface {
  import opened Options

  /** The code points Python's `str.strip` and `str.split` take for white space. */
  predicate IsSpace(c: char) {
    var n := c as int;
    || 0x09 <= n <= 0x0D || 0x1C <= n <= 0x20 || n == 0x85 || n == 0xA0
    || n == 0x1680 || 0x2000 <= n <= 0x200A
    || n == 0x2028 || n == 0x2029 || n == 0x202F || n == 0x205F || n == 0x3000
  }

  /** Those of Go and the four separators of ASCII besides. */
  lemma SpacesAre(c: char)
    ensures IsSpace(c) <==> c as int in {
      9, 10, 11, 12, 13, 28, 29, 30, 31, 32, 133, 160, 5760, 8192, 8193, 8194, 8195, 8196, 8197, 8198, 8199, 8200, 8201,
      8202, 8232, 8233, 8239, 8287, 12288}
  {
  }

  function StripLeft(s: string): string {
    if s != "" && IsSpace(s[0]) then StripLeft(s[1..]) else s
  }

  function StripRight(s: string): string {
    if s != "" && IsSpace(s[|s| - 1]) then StripRight(s[..|s| - 1]) else s
  }

  function Strip(s: string): string {
    StripRight(StripLeft(s))
  }

  /** The words of a text; `word` is the one being read. */
  function WordsFrom(s: string, word: string): seq<string> {
    if s == "" then if word == "" then [] else [word]
    else if IsSpace(s[0]) then (if word == "" then [] else [word]) + WordsFrom(s[1..], "")
    else WordsFrom(s[1..], word + [s[0]])
  }

  function Words(s: string): seq<string> {
    WordsFrom(s, "")
  }

  predicate Solid(s: string) {
    forall i :: 0 <= i < |s| ==> !IsSpace(s[i])
  }

  lemma {:induction false} WordGrows(s: string, rest: string, word: string)
    requires Solid(s)
    ensures WordsFrom(s + rest, word) == WordsFrom(rest, word + s)
  {
    if s == "" {
      assert s + rest == rest && word + s == word;
    } else {
      assert (s + rest)[1..] == s[1..] + rest && word + s == (word + [s[0]]) + s[1..];
      WordGrows(s[1..], rest, word + [s[0]]);
    }
  }

  lemma {:induction false} WordsFromSplit(a: string, c: char, b: string, word: string)
    requires IsSpace(c)
    ensures WordsFrom(a + [c] + b, word) == WordsFrom(a, word) + Words(b)
  {
    if a == "" {
      assert a + [c] + b == [c] + b && ([c] + b)[1..] == b;
    } else {
      assert (a + [c] + b)[1..] == a[1..] + [c] + b;
      WordsFromSplit(a[1..], c, b, if IsSpace(a[0]) then "" else word + [a[0]]);
    }
  }

  /** No text has no words, a text without white space is its own word, and white space divides. */
  lemma WordsAre(a: string, c: char, b: string)
    ensures Words("") == []
    ensures a != "" && Solid(a) ==> Words(a) == [a]
    ensures IsSpace(c) ==> Words(a + [c] + b) == Words(a) + Words(b)
  {
    if IsSpace(c) { WordsFromSplit(a, c, b, ""); }
    if a != "" && Solid(a) {
      WordGrows(a, "", "");
      assert a + "" == a && "" + a == a;
    }
  }

  lemma {:induction false} StripLeftOf(a: string, s: string)
    requires forall i :: 0 <= i < |a| ==> IsSpace(a[i])
    ensures StripLeft(a + s) == StripLeft(s)
  {
    if a == "" {
      assert a + s == s;
    } else {
      assert (a + s)[1..] == a[1..] + s;
      StripLeftOf(a[1..], s);
    }
  }

  lemma {:induction false} StripRightOf(s: string, b: string)
    requires forall i :: 0 <= i < |b| ==> IsSpace(b[i])
    ensures StripRight(s + b) == StripRight(s)
  {
    if b == "" {
      assert s + b == s;
    } else {
      assert (s + b)[..|s + b| - 1] == s + b[..|b| - 1];
      StripRightOf(s, b[..|b| - 1]);
    }
  }

  /** Stripping removes the white space around a text and nothing else. */
  lemma StripIsMiddle(a: string, middle: string, b: string)
    requires forall i :: 0 <= i < |a| ==> IsSpace(a[i])
    requires forall i :: 0 <= i < |b| ==> IsSpace(b[i])
    requires middle != "" ==> !IsSpace(middle[0]) && !IsSpace(middle[|middle| - 1])
    ensures Strip(a + middle + b) == middle
  {
    if middle == "" {
      assert a + middle + b == (a + b) + "";
      StripLeftOf(a + b, "");
    } else {
      assert a + middle + b == a + (middle + b);
      StripLeftOf(a, middle + b);
      StripRightOf(middle, b);
    }
  }

  /** The first word of a text that is not blank, as `split(maxsplit=1)[0]` has it. */
  function FirstWord(s: string): string {
    if s == "" || IsSpace(s[0]) then "" else [s[0]] + FirstWord(s[1..])
  }

  const BUILTIN_HEADER := "Built-in toolsets (cli):"
  const MCP_HEADER := "MCP servers:"

  /** The lines that are not blank, without the space around them. */
  function Values(lines: seq<string>): seq<string> {
    if lines == [] then []
    else
      var rest, value := Values(lines[..|lines| - 1]), Strip(lines[|lines| - 1]);
      if value == "" then rest else rest + [value]
  }

  // ---------------------------------------------------------------------- the grammar

  predicate IsHeader(value: string) {
    value == BUILTIN_HEADER || value == MCP_HEADER
  }

  /** A built-in toolset that is switched off. */
  predicate Disabled(row: string) {
    !IsHeader(row) && "disabled" in Words(row)
  }

  predicate IsServer(row: string) {
    !IsHeader(row) && FirstWord(row) == "huakai"
  }

  /** The built-in header, switched-off toolsets, the header of the servers and the one server. */
  predicate Restricted(values: seq<string>) {
    && |values| >= 4 && values[0] == BUILTIN_HEADER
    && (forall i :: 1 <= i < |values| - 2 ==> Disabled(values[i]))
    && values[|values| - 2] == MCP_HEADER
    && IsServer(values[|values| - 1])
  }

  // ---------------------------------------------------------------------- the scanner

  datatype Section = Nowhere | Builtin | Mcp

  datatype Scan = Scan(section: Section, sawBuiltin: bool, sawMcp: bool, rows: seq<string>, names: seq<string>)

  /** What has been read while no line was out of place. */
  predicate InPlace(values: seq<string>, s: Scan) {
    match s.section
    case Nowhere => values == [] && s == Scan(Nowhere, false, false, [], [])
    case Builtin =>
      values == [BUILTIN_HEADER] + s.rows && NoHeaders(s.rows) && s == Scan(Builtin, true, false, s.rows, [])
    case Mcp =>
      && |s.rows| + |s.names| + 2 == |values| && s.sawBuiltin && s.sawMcp && NoHeaders(s.rows)
      && values[..|s.rows| + 2] == [BUILTIN_HEADER] + s.rows + [MCP_HEADER]
      && NoHeaders(values[|s.rows| + 2..])
      && (forall i :: 0 <= i < |s.names| ==> s.names[i] == FirstWord(values[|s.rows| + 2 + i]))
  }

  predicate NoHeaders(values: seq<string>) {
    forall i :: 0 <= i < |values| ==> !IsHeader(values[i])
  }

  /** One line; nothing when it is out of place. */
  function Read(s: Scan, value: string): Option<Scan> {
    if value == BUILTIN_HEADER then
      if s.sawBuiltin || s.sawMcp then None else Some(s.(sawBuiltin := true, section := Builtin))
    else if value == MCP_HEADER then
      if !s.sawBuiltin || s.sawMcp then None else Some(s.(sawMcp := true, section := Mcp))
    else
      match s.section
      case Builtin => Some(s.(rows := s.rows + [value]))
      case Mcp => Some(s.(names := s.names + [FirstWord(value)]))
      case Nowhere => None
  }

  lemma ReadKeepsPlace(values: seq<string>, s: Scan, value: string)
    requires InPlace(values, s) && Read(s, value).Some?
    ensures InPlace(values + [value], Read(s, value).value)
  {
  }

  /** The headers of a listing are at its first and at its last place but one. */
  lemma HeadersOf(values: seq<string>, i: nat)
    requires Restricted(values) && i < |values|
    ensures values[i] == BUILTIN_HEADER <==> i == 0
    ensures values[i] == MCP_HEADER <==> i == |values| - 2
    ensures IsHeader(values[i]) <==> i == 0 || i == |values| - 2
  {
  }

  /** The listing is restricted if the scanner, all lines being in their place, finds what it looks for. */
  lemma AcceptsExactly(values: seq<string>, s: Scan)
    requires InPlace(values, s)
    ensures Restricted(values) <==>
      && s.sawBuiltin && s.sawMcp && s.rows != []
      && (forall i :: 0 <= i < |s.rows| ==> "disabled" in Words(s.rows[i]))
      && s.names == ["huakai"]
  {
    if Restricted(values) {
      RestrictedIsFound(values, s);
    } else if s.section == Mcp {
      FoundIsRestricted(values, s);
    }
  }

  lemma RestrictedIsFound(values: seq<string>, s: Scan)
    requires InPlace(values, s) && Restricted(values)
    ensures s.section == Mcp && s.rows == values[1..|values| - 2] && s.names == ["huakai"]
    ensures forall i :: 0 <= i < |s.rows| ==> "disabled" in Words(s.rows[i])
  {
  }

  lemma FoundIsRestricted(values: seq<string>, s: Scan)
    requires InPlace(values, s) && s.section == Mcp
    ensures
      s.rows != [] && (forall i :: 0 <= i < |s.rows| ==> "disabled" in Words(s.rows[i])) && s.names == ["huakai"] ==>
      Restricted(values)
  {
    if s.rows != [] && (forall i :: 0 <= i < |s.rows| ==> "disabled" in Words(s.rows[i])) && s.names == ["huakai"] {
      var n := |s.rows| + 2;
      assert values[0] == values[..n][0] && values[n - 1] == values[..n][n - 1];
      forall i | 1 <= i < |values| - 2 ensures Disabled(values[i]) {
        assert values[i] == values[..n][i] == s.rows[i - 1];
      }
      assert values[n] == values[n..][0] && s.names[0] == FirstWord(values[n + 0]);
    }
  }

  lemma {:induction false} RestrictedPrefix(values: seq<string>, n: nat, s: Scan)
    requires Restricted(values) && n < |values| && InPlace(values[..n], s)
    ensures Read(s, values[n]).Some?
  {
    HeadersOf(values, n);
    if s.section == Nowhere {
      assert n == 0;
    } else {
      assert values[0] == values[..n][0];
      if s.section == Mcp {
        var k := |s.rows| + 1;
        assert values[k] == values[..n][..k + 1][k] == MCP_HEADER;
        HeadersOf(values, k);
      }
    }
  }

  /** A line that is not blank has its place in the list, behind the values of the lines before it. */
  lemma PlaceOf(lines: seq<string>, i: nat)
    requires i < |lines| && Strip(lines[i]) != ""
    ensures var n := |Values(lines[..i])|;
      n < |Values(lines)| && Values(lines)[..n] == Values(lines[..i]) && Values(lines)[n] == Strip(lines[i])
  {
    assert lines[..i + 1][..i] == lines[..i];
    ValuesGrow(lines, i + 1);
    assert Values(lines[..i + 1]) == Values(lines[..i]) + [Strip(lines[i])];
  }

  /** A line out of place spoils the listing, whatever follows. */
  lemma OutOfPlace(lines: seq<string>, i: nat, s: Scan)
    requires i < |lines| && Strip(lines[i]) != "" && InPlace(Values(lines[..i]), s) && Read(s, Strip(lines[i])).None?
    ensures !Restricted(Values(lines))
  {
    PlaceOf(lines, i);
    if Restricted(Values(lines)) { RestrictedPrefix(Values(lines), |Values(lines[..i])|, s); }
  }

  lemma {:induction false} FirstWordFrom(s: string, word: string)
    requires word != "" || (s != "" && !IsSpace(s[0]))
    ensures WordsFrom(s, word) != [] && WordsFrom(s, word)[0] == word + FirstWord(s)
    decreases s
  {
    if s != "" && !IsSpace(s[0]) {
      FirstWordFrom(s[1..], word + [s[0]]);
      assert word + [s[0]] + FirstWord(s[1..]) == word + FirstWord(s);
    } else {
      assert word + FirstWord(s) == word;
    }
  }

  lemma {:induction false} StripShape(s: string)
    ensures Strip(s) != "" ==> !IsSpace(Strip(s)[0])
  {
    StripLeftShape(s);
    StripRightShape(StripLeft(s));
  }

  lemma {:induction false} StripLeftShape(s: string)
    ensures StripLeft(s) != "" ==> !IsSpace(StripLeft(s)[0])
  {
    if s != "" && IsSpace(s[0]) {
      StripLeftShape(s[1..]);
    }
  }

  lemma {:induction false} StripRightShape(s: string)
    ensures StripRight(s) <= s
  {
    if s != "" && IsSpace(s[|s| - 1]) {
      StripRightShape(s[..|s| - 1]);
    }
  }

  /** The name of a server is the first of the words of its line. */
  lemma FirstWordIsAWord(line: string)
    requires Strip(line) != ""
    ensures Words(Strip(line)) != [] && Words(Strip(line))[0] == FirstWord(Strip(line))
  {
    StripShape(line);
    FirstWordFrom(Strip(line), "");
  }

  /**
   `tool_surface_is_restricted`, on the lines of the decoded output: it accepts exactly the
   listings of the grammar.
   */
  method IsRestricted(lines: seq<string>) returns (ok: bool)
    ensures ok <==> Restricted(Values(lines))
  {
    var s := Scan(Nowhere, false, false, [], []);
    for i := 0 to |lines|
      invariant InPlace(Values(lines[..i]), s)
    {
      assert lines[..i + 1][..i] == lines[..i];
      var value := Strip(lines[i]);
      if value == "" {
        continue;
      }
      ghost var values := Values(lines[..i]);
      var next := Read(s, value);
      if next.None? {
        OutOfPlace(lines, i, s);
        return false;
      }
      ReadKeepsPlace(values, s, value);
      s := next.value;
    }
    assert lines[..|lines|] == lines;
    AcceptsExactly(Values(lines), s);
    ok := s.sawBuiltin && s.sawMcp && |s.rows| > 0
      && (forall i :: 0 <= i < |s.rows| ==> "disabled" in Words(s.rows[i])) && s.names == ["huakai"];
  }

  lemma {:induction false} ValuesGrow(lines: seq<string>, n: nat)
    requires n <= |lines|
    ensures Values(lines[..n]) <= Values(lines)
  {
    if n < |lines| {
      ValuesGrow(lines[..|lines| - 1], n);
      assert lines[..|lines| - 1][..n] == lines[..n];
    } else {
      assert lines[..n] == lines;
    }
  }
}

/** Lines of text: splitting, joining, line ends, white space, as the Python string operations have them. */
module TextLines {
  import opened Basics

  const NEWLINE := "\n"
  const CRLF := "\r\n"

  predicate StartsWith(s: string, prefix: string) {
    |prefix| <= |s| && s[..|prefix|] == prefix
  }

  predicate EndsWith(s: string, suffix: string) {
    |suffix| <= |s| && s[|s| - |suffix|..] == suffix
  }

  /** Where the separator first occurs; the length if it does not. */
  function IndexOf(s: string, separator: char): (i: nat)
    ensures i <= |s| && separator !in s[..i] && (i < |s| ==> s[i] == separator)
  {
    if s == "" || s[0] == separator then 0
    else
      var rest := IndexOf(s[1..], separator);
      assert s[..rest + 1] == [s[0]] + s[1..][..rest];
      rest + 1
  }

  lemma IndexOfIs(s: string, separator: char, i: nat)
    requires i <= |s| && separator !in s[..i] && (i < |s| ==> s[i] == separator)
    ensures IndexOf(s, separator) == i
  {
  }

  /** Always at least one line; a final separator leaves an empty last line. */
  function Split(s: string, separator: char): (lines: seq<string>)
    ensures |lines| > 0 && forall i | 0 <= i < |lines| :: separator !in lines[i]
    decreases |s|
  {
    var i := IndexOf(s, separator);
    if i == |s| then [s] else [s[..i]] + Split(s[i + 1..], separator)
  }

  function Join(lines: seq<string>, separator: string): string
    requires |lines| > 0
  {
    if |lines| == 1 then lines[0] else lines[0] + separator + Join(lines[1..], separator)
  }

  lemma {:induction false} JoinSplit(s: string, separator: char)
    ensures Join(Split(s, separator), [separator]) == s
    decreases |s|
  {
    var i := IndexOf(s, separator);
    if i < |s| {
      JoinSplit(s[i + 1..], separator);
      assert Split(s, separator)[1..] == Split(s[i + 1..], separator);
      assert s == s[..i] + [separator] + s[i + 1..];
    }
  }

  lemma {:induction false} SplitJoin(lines: seq<string>, separator: char)
    requires |lines| > 0 && forall i | 0 <= i < |lines| :: separator !in lines[i]
    ensures Split(Join(lines, [separator]), separator) == lines
    decreases |lines|
  {
    var s, first := Join(lines, [separator]), lines[0];
    if |lines| == 1 {
      assert s[..|s|] == s;
      IndexOfIs(s, separator, |s|);
    } else {
      var rest := Join(lines[1..], [separator]);
      assert s == first + [separator] + rest;
      assert s[..|first|] == first && s[|first| + 1..] == rest;
      IndexOfIs(s, separator, |first|);
      SplitJoin(lines[1..], separator);
      assert lines == [first] + lines[1..];
    }
  }

  // ---- Line ends.

  /** Every CR LF replaced, left to right. */
  function ReplaceCrLf(s: string, put: string): string
    decreases |s|
  {
    if s == "" then ""
    else if |s| >= 2 && s[0] == '\r' && s[1] == '\n' then put + ReplaceCrLf(s[2..], put)
    else [s[0]] + ReplaceCrLf(s[1..], put)
  }

  lemma {:induction false} ReplaceAfter(line: string, rest: string, put: string)
    requires '\r' !in line
    ensures ReplaceCrLf(line + rest, put) == line + ReplaceCrLf(rest, put)
    decreases |line|
  {
    if line == "" {
      assert line + rest == rest;
    } else {
      assert line[0] in line && (line + rest)[0] != '\r';
      assert (line + rest)[1..] == line[1..] + rest;
      ReplaceAfter(line[1..], rest, put);
    }
  }

  /** With CR LF removed there is no lone CR exactly when there is none with CR LF made LF. */
  lemma {:induction false} NoLoneReturn(s: string)
    ensures '\r' in ReplaceCrLf(s, "") <==> '\r' in ReplaceCrLf(s, "\n")
    decreases |s|
  {
    if s != "" {
      if |s| >= 2 && s[0] == '\r' && s[1] == '\n' {
        NoLoneReturn(s[2..]);
      } else {
        NoLoneReturn(s[1..]);
      }
    }
  }

  predicate PlainLine(line: string) {
    '\r' !in line && '\n' !in line
  }

  /** Lines joined with either line end come out joined with LF. */
  lemma {:induction false} NormalizeJoined(lines: seq<string>, newline: string, final: bool)
    requires |lines| > 0 && (newline == "\n" || newline == "\r\n") && forall i | 0 <= i < |lines| :: PlainLine(lines[i])
    ensures var text := Join(lines, newline) + (if final then newline else "");
      ReplaceCrLf(text, "\n") == Join(lines, "\n") + (if final then "\n" else "")
    decreases |lines|
  {
    var end := if final then newline else "";
    var text := Join(lines, newline) + end;
    NewlineReplaced(newline, "");
    if |lines| == 1 {
      ReplaceAfter(lines[0], end, "\n");
      assert newline + "" == newline && "\n" + "" == "\n";
    } else {
      var rest := Join(lines[1..], newline) + end;
      assert text == lines[0] + (newline + rest);
      ReplaceAfter(lines[0], newline + rest, "\n");
      NewlineReplaced(newline, rest);
      NormalizeJoined(lines[1..], newline, final);
      assert lines[0] + ("\n" + (Join(lines[1..], "\n") + (if final then "\n" else "")))
          == Join(lines, "\n") + (if final then "\n" else "");
    }
  }

  lemma NewlineReplaced(newline: string, rest: string)
    requires newline == "\n" || newline == "\r\n"
    ensures ReplaceCrLf(newline + rest, "\n") == "\n" + ReplaceCrLf(rest, "\n")
  {
    if newline == "\n" {
      assert (newline + rest)[1..] == rest;
    } else {
      assert (newline + rest)[2..] == rest;
    }
  }

  lemma {:induction false} JoinAvoids(lines: seq<string>, separator: string, c: char)
    requires |lines| > 0 && c !in separator && forall i | 0 <= i < |lines| :: c !in lines[i]
    ensures c !in Join(lines, separator)
  {
    if |lines| > 1 {
      JoinAvoids(lines[1..], separator, c);
    }
  }

  lemma {:induction false} JoinEnds(lines: seq<string>, separator: string)
    requires |lines| > 0
    ensures EndsWith(Join(lines, separator), lines[|lines| - 1])
  {
    if |lines| > 1 {
      JoinEnds(lines[1..], separator);
    }
  }

  // ---- White space.

  predicate IsSpace(c: char) {
    c in " \t\n\r" || '\U{0B}' <= c <= '\U{0C}' || '\U{1C}' <= c <= '\U{1F}' || c == '\U{85}' || c == '\U{A0}'
    || c == '\U{1680}' || '\U{2000}' <= c <= '\U{200A}' || c in "\U{2028}\U{2029}\U{202F}\U{205F}\U{3000}"
  }

  function StripRight(s: string): (r: string)
    ensures |r| <= |s| && r == s[..|r|]
    ensures r != "" ==> !IsSpace(r[|r| - 1])
    ensures forall i | |r| <= i < |s| :: IsSpace(s[i])
    decreases |s|
  {
    if s != "" && IsSpace(s[|s| - 1]) then StripRight(s[..|s| - 1]) else s
  }

  lemma StripRightIs(s: string, kept: nat)
    requires kept <= |s| && (kept > 0 ==> !IsSpace(s[kept - 1])) && forall i | kept <= i < |s| :: IsSpace(s[i])
    ensures StripRight(s) == s[..kept]
  {
  }

  // ---- Lines as text processing sees them.

  /** The characters that end a line of text in Python. */
  predicate IsBreak(c: char) {
    c == '\n' || c == '\r' || '\U{0B}' <= c <= '\U{0C}' || '\U{1C}' <= c <= '\U{1E}' || c == '\U{85}'
    || c == '\U{2028}' || c == '\U{2029}'
  }

  /** The length of the first line, its ending included. */
  function FirstLine(s: string): (n: nat)
    requires s != ""
    ensures 0 < n <= |s|
  {
    if IsBreak(s[0]) then (if |s| > 1 && s[0] == '\r' && s[1] == '\n' then 2 else 1)
    else if |s| == 1 then 1
    else 1 + FirstLine(s[1..])
  }

  /** Only the end of the first line breaks it. */
  lemma {:induction false} BreakIsLast(s: string)
    requires s != ""
    ensures var n := FirstLine(s);
      && (n == |s| || IsBreak(s[n - 1]))
      && forall i | 0 <= i < n - 1 :: s[i] != '\n'
  {
    if !IsBreak(s[0]) && |s| > 1 {
      BreakIsLast(s[1..]);
      var n := FirstLine(s);
      forall i | 0 <= i < n - 1 ensures s[i] != '\n' {
        if i > 0 {
          assert s[i] == s[1..][i - 1];
        }
      }
      assert s[n - 1] == s[1..][n - 2];
    }
  }

  /** The lines of a text, each with its ending. */
  function Lines(s: string): (lines: seq<string>)
    ensures forall i | 0 <= i < |lines| :: lines[i] != ""
    decreases |s|
  {
    if s == "" then [] else [s[..FirstLine(s)]] + Lines(s[FirstLine(s)..])
  }

  /** Splitting into lines loses nothing. */
  lemma {:induction false} LinesJoin(s: string)
    ensures Flatten(Lines(s)) == s
    decreases |s|
  {
    if s != "" {
      LinesJoin(s[FirstLine(s)..]);
      assert Lines(s)[1..] == Lines(s[FirstLine(s)..]);
    }
  }

  lemma {:induction false} FirstLineConcat(a: string, b: string)
    requires a != "" && a[|a| - 1] == '\n'
    ensures FirstLine(a + b) == FirstLine(a)
    decreases |a|
  {
    if !IsBreak(a[0]) {
      FirstLineConcat(a[1..], b);
      assert (a + b)[1..] == a[1..] + b;
    }
  }

  lemma SliceConcat(a: string, b: string, n: nat)
    requires n <= |a|
    ensures (a + b)[..n] == a[..n] && (a + b)[n..] == a[n..] + b
  {
  }

  /** A text that ends its last line can be split apart from what follows. */
  lemma {:induction false} LinesConcat(a: string, b: string)
    requires a == "" || a[|a| - 1] == '\n'
    ensures Lines(a + b) == Lines(a) + Lines(b)
    decreases |a|
  {
    if a == "" {
      assert a + b == b;
    } else {
      var n := FirstLine(a);
      FirstLineConcat(a, b);
      SliceConcat(a, b, n);
      LinesConcat(a[n..], b);
      Prepend(a[..n], Lines(a[n..]), Lines(b));
    }
  }

  lemma Prepend(first: string, rest: seq<string>, more: seq<string>)
    ensures [first] + (rest + more) == [first] + rest + more
  {
  }

  lemma {:induction false} OneLine(s: string)
    requires s != "" && forall i | 0 <= i < |s| - 1 :: !IsBreak(s[i])
    ensures FirstLine(s) == |s| && Lines(s) == [s]
    decreases |s|
  {
    if |s| > 1 {
      OneLine(s[1..]);
    }
    assert s[|s|..] == "" && s[..|s|] == s;
  }
}

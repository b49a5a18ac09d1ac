/** Applying hunks to the lines of a file (roboagent/tool/apply_patch.py:394-450). */
module PatchHunks {
  import opened Basics
  import opened PatchSyntax
  import opened TextLines

  datatype Ending = NoEnd | Lf | CrLf {
    function Text(): string {
      match this case NoEnd => "" case Lf => "\n" case CrLf => "\r\n"
    }
  }

  /** A line of a file; text that ends in any other line break keeps it. */
  datatype FileLine = FileLine(text: string, ending: Ending)

  // ---- The lines of a file.

  function ToFileLine(line: string): FileLine {
    var n := |line|;
    if n >= 2 && line[n - 2] == '\r' && line[n - 1] == '\n' then FileLine(line[..n - 2], CrLf)
    else if n >= 1 && line[n - 1] == '\n' then FileLine(line[..n - 1], Lf)
    else FileLine(line, NoEnd)
  }

  /** Nothing of a line end is left in the text, and no line is nothing at all. */
  predicate Proper(line: FileLine) {
    && '\n' !in line.text && (line.text != "" || line.ending != NoEnd)
    && (line.ending == Lf && line.text != "" ==> line.text[|line.text| - 1] != '\r')
  }

  predicate Broken(line: FileLine) {
    line.ending != NoEnd || (line.text != "" && IsBreak(line.text[|line.text| - 1]))
  }

  function FileText(lines: seq<FileLine>): string {
    if lines == [] then "" else lines[0].text + lines[0].ending.Text() + FileText(lines[1..])
  }

  lemma {:induction false} FileTextConcat(a: seq<FileLine>, b: seq<FileLine>)
    ensures FileText(a + b) == FileText(a) + FileText(b)
  {
    if a == [] {
      assert a + b == b;
    } else {
      assert (a + b)[0] == a[0] && (a + b)[1..] == a[1..] + b;
      FileTextConcat(a[1..], b);
      assert FileText(a + b) == a[0].text + a[0].ending.Text() + (FileText(a[1..]) + FileText(b));
    }
  }

  /** Splitting a file into lines loses nothing: text and endings, put together again, are the file; an
      ending holds line ends only, and every line but the last ends somewhere. */
  method FileLines(data: string) returns (lines: seq<FileLine>)
    ensures FileText(lines) == data
    ensures forall i | 0 <= i < |lines| ::
      Proper(lines[i])
    ensures forall i | 0 <= i < |lines| - 1 :: Broken(lines[i])
  {
    lines := [];
    var rest := data;
    while rest != ""
      invariant FileText(lines) + rest == data
      invariant forall i | 0 <= i < |lines| ::
        Proper(lines[i])
      invariant forall i | 0 <= i < |lines| ::
        (rest == "" && i == |lines| - 1) || Broken(lines[i])
      decreases |rest|
    {
      var n := FirstLine(rest);
      var line := ToFileLine(rest[..n]);
      FirstLineShape(rest);
      FileTextSnoc(lines, rest[..n]);
      Rejoin(FileText(lines), rest, n);
      lines := lines + [line];
      rest := rest[n..];
    }
    assert data == FileText(lines) + "";
  }

  lemma FileTextSnoc(lines: seq<FileLine>, line: string)
    ensures FileText(lines + [ToFileLine(line)]) == FileText(lines) + line
  {
    FileTextConcat(lines, [ToFileLine(line)]);
    LineKept(line);
  }

  lemma LineKept(line: string)
    ensures FileText([ToFileLine(line)]) == line
  {
    var parsed := ToFileLine(line);
    assert [parsed][1..] == [];
    assert FileText([parsed]) == parsed.text + parsed.ending.Text() + "";
    assert parsed.text + parsed.ending.Text() == line;
  }

  lemma FirstLineShape(s: string)
    requires s != ""
    ensures var line := ToFileLine(s[..FirstLine(s)]);
      && Proper(line)
      && (FirstLine(s) == |s| || Broken(line))
  {
    BreakIsLast(s);
    LineShape(s[..FirstLine(s)]);
  }

  lemma LineShape(line: string)
    requires line != "" && forall i | 0 <= i < |line| - 1 :: line[i] != '\n'
    ensures Proper(ToFileLine(line))
    ensures ToFileLine(line).ending == NoEnd ==> ToFileLine(line).text == line
  {
    var parsed := ToFileLine(line);
    assert parsed.text == line[..|parsed.text|];
    forall i | 0 <= i < |parsed.text| ensures parsed.text[i] != '\n' {
      assert parsed.text[i] == line[i];
    }
  }

  // ---- One hunk.

  /** The part of a hunk that must be in the file. */
  function OldSide(hunk: Hunk): seq<PatchLine> {
    if hunk == [] then []
    else (if hunk[0].kind.Addition? then [] else [hunk[0]]) + OldSide(hunk[1..])
  }

  predicate Fits(line: FileLine, expected: PatchLine) {
    line.text == expected.text && (expected.noNewline <==> line.ending == NoEnd)
  }

  predicate MatchesAt(lines: seq<FileLine>, start: int, side: seq<PatchLine>) {
    0 <= start <= |lines| - |side| && forall i | 0 <= i < |side| :: Fits(lines[start + i], side[i])
  }

  function EndingOf(line: PatchLine, newline: Ending): Ending {
    if line.noNewline then NoEnd else newline
  }

  /** What a hunk makes of the window it matches. */
  function Replacement(window: seq<FileLine>, hunk: Hunk, newline: Ending): seq<FileLine>
    requires |window| == |OldSide(hunk)|
    decreases |hunk|
  {
    if hunk == [] then []
    else match hunk[0].kind
      case Context => [window[0]] + Replacement(window[1..], hunk[1..], newline)
      case Removal => Replacement(window[1..], hunk[1..], newline)
      case Addition => [FileLine(hunk[0].text, EndingOf(hunk[0], newline))] + Replacement(window, hunk[1..], newline)
  }

  /** The only start at which the old side matches. */
  ghost predicate OnlyMatch(lines: seq<FileLine>, side: seq<PatchLine>, start: int) {
    MatchesAt(lines, start, side) && forall other | MatchesAt(lines, other, side) :: other == start
  }

  method OldLines(hunk: Hunk) returns (side: seq<PatchLine>)
    ensures side == OldSide(hunk)
  {
    side := [];
    for i := 0 to |hunk|
      invariant OldSide(hunk) == side + OldSide(hunk[i..])
    {
      assert hunk[i..][1..] == hunk[i + 1..];
      if !hunk[i].kind.Addition? {
        side := side + [hunk[i]];
      }
    }
    assert hunk[|hunk|..] == [] && side + [] == side;
  }

  method FitsAt(lines: seq<FileLine>, start: nat, side: seq<PatchLine>) returns (fits: bool)
    requires start + |side| <= |lines|
    ensures fits == MatchesAt(lines, start, side)
  {
    for i := 0 to |side|
      invariant forall k | 0 <= k < i :: Fits(lines[start + k], side[k])
    {
      if !Fits(lines[start + i], side[i]) {
        return false;
      }
    }
    return true;
  }

  method Replace(window: seq<FileLine>, hunk: Hunk, newline: Ending) returns (replacement: seq<FileLine>)
    requires |window| == |OldSide(hunk)|
    ensures replacement == Replacement(window, hunk, newline)
  {
    replacement := [];
    var oldIndex := 0;
    for i := 0 to |hunk|
      invariant oldIndex <= |window| && |window| - oldIndex == |OldSide(hunk[i..])|
      invariant Replacement(window, hunk, newline) == replacement + Replacement(window[oldIndex..], hunk[i..], newline)
    {
      assert hunk[i..][1..] == hunk[i + 1..];
      if hunk[i].kind.Addition? {
        replacement := replacement + [FileLine(hunk[i].text, EndingOf(hunk[i], newline))];
      } else {
        assert window[oldIndex..][1..] == window[oldIndex + 1..];
        if hunk[i].kind.Context? {
          replacement := replacement + [window[oldIndex]];
        }
        oldIndex := oldIndex + 1;
      }
    }
    assert hunk[|hunk|..] == [] && replacement + [] == replacement;
  }

  /** All the starts at which the old side matches, in order. */
  method Matches(lines: seq<FileLine>, side: seq<PatchLine>) returns (matches: seq<int>)
    ensures forall s :: MatchesAt(lines, s, side) <==> s in matches
    ensures forall j, k | 0 <= j < k < |matches| :: matches[j] < matches[k]
  {
    matches := [];
    var s := 0;
    while s < |lines| - |side| + 1
      invariant 0 <= s
      invariant forall k | 0 <= k < |matches| :: 0 <= matches[k] < s && MatchesAt(lines, matches[k], side)
      invariant forall other | MatchesAt(lines, other, side) && other < s :: other in matches
      invariant forall j, k | 0 <= j < k < |matches| :: matches[j] < matches[k]
    {
      var fits := FitsAt(lines, s, side);
      if fits {
        matches := matches + [s];
      }
      s := s + 1;
    }
  }

  /** One hunk, as the tool applies it: exactly one match, or a conflict. */
  method ApplyHunk(lines: seq<FileLine>, hunk: Hunk, newline: Ending)
    returns (r: Option<seq<FileLine>>, ghost start: int)
    ensures r.Some? <==> exists s :: OnlyMatch(lines, OldSide(hunk), s)
    ensures r.Some? ==> OnlyMatch(lines, OldSide(hunk), start) && r.value == Applied(lines, start, hunk, newline)
  {
    var side := OldLines(hunk);
    var matches := Matches(lines, side);
    if |matches| != 1 {
      NoOnlyMatch(lines, side, matches);
      return None, 0;
    }
    var at := matches[0];
    assert OnlyMatch(lines, side, at);
    var replacement := Replace(lines[at..at + |side|], hunk, newline);
    return Some(lines[..at] + replacement + lines[at + |side|..]), at;
  }

  lemma NoOnlyMatch(lines: seq<FileLine>, side: seq<PatchLine>, matches: seq<int>)
    requires forall s :: MatchesAt(lines, s, side) <==> s in matches
    requires forall j, k | 0 <= j < k < |matches| :: matches[j] < matches[k]
    requires |matches| != 1
    ensures !exists s :: OnlyMatch(lines, side, s)
  {
    if |matches| > 1 {
      assert matches[0] in matches && matches[1] in matches;
      assert matches[0] < matches[1];
    }
  }

  function Applied(lines: seq<FileLine>, start: int, hunk: Hunk, newline: Ending): seq<FileLine>
    requires 0 <= start <= |lines| - |OldSide(hunk)|
  {
    var end := start + |OldSide(hunk)|;
    lines[..start] + Replacement(lines[start..end], hunk, newline) + lines[end..]
  }

  // ---- What a hunk does, line by line.

  /** How many of the first `k` lines of a hunk are in the file before it is applied. */
  function OldCount(hunk: Hunk, k: nat): (n: nat)
    requires k <= |hunk|
    ensures n <= k
  {
    if k == 0 then 0 else OldCount(hunk, k - 1) + (if hunk[k - 1].kind.Addition? then 0 else 1)
  }

  /** How many of them are in the file afterwards. */
  function NewCount(hunk: Hunk, k: nat): (n: nat)
    requires k <= |hunk|
    ensures n <= k
  {
    if k == 0 then 0 else NewCount(hunk, k - 1) + (if hunk[k - 1].kind.Removal? then 0 else 1)
  }

  lemma {:induction false} CountsOfTail(hunk: Hunk, k: nat)
    requires 0 < k <= |hunk|
    ensures OldCount(hunk, k) == (if hunk[0].kind.Addition? then 0 else 1) + OldCount(hunk[1..], k - 1)
    ensures NewCount(hunk, k) == (if hunk[0].kind.Removal? then 0 else 1) + NewCount(hunk[1..], k - 1)
  {
    if k > 1 {
      CountsOfTail(hunk, k - 1);
      assert hunk[1..][k - 2] == hunk[k - 1];
    }
  }

  lemma {:induction false} OldSideIs(hunk: Hunk, k: nat)
    requires k <= |hunk|
    ensures |OldSide(hunk)| == OldCount(hunk, |hunk|) && OldCount(hunk, k) <= |OldSide(hunk)|
    ensures k < |hunk| && !hunk[k].kind.Addition? ==>
      OldCount(hunk, k) < |OldSide(hunk)| && OldSide(hunk)[OldCount(hunk, k)] == hunk[k]
    decreases |hunk|
  {
    if hunk != [] {
      CountsOfTail(hunk, |hunk|);
      OldSideIs(hunk[1..], if k > 0 then k - 1 else 0);
      if k > 0 {
        CountsOfTail(hunk, k);
      }
    }
  }

  /** Every line of a hunk lands where its place in the new side says: context lines are the file's own, with
      their own endings, additions end as the file's lines mostly do, removed lines are gone. */
  lemma {:induction false} ReplacementIs(window: seq<FileLine>, hunk: Hunk, newline: Ending, k: nat)
    requires |window| == |OldSide(hunk)| && k <= |hunk|
    ensures |Replacement(window, hunk, newline)| == NewCount(hunk, |hunk|)
    ensures NewCount(hunk, k) <= |Replacement(window, hunk, newline)| && OldCount(hunk, k) <= |window|
    ensures k < |hunk| && hunk[k].kind.Context? ==>
      && OldCount(hunk, k) < |window| && NewCount(hunk, k) < |Replacement(window, hunk, newline)|
      && Replacement(window, hunk, newline)[NewCount(hunk, k)] == window[OldCount(hunk, k)]
    ensures k < |hunk| && hunk[k].kind.Addition? ==>
      && NewCount(hunk, k) < |Replacement(window, hunk, newline)|
      && Replacement(window, hunk, newline)[NewCount(hunk, k)] == FileLine(hunk[k].text, EndingOf(hunk[k], newline))
    decreases |hunk|
  {
    if hunk != [] {
      var rest := if hunk[0].kind.Addition? then window else window[1..];
      CountsOfTail(hunk, |hunk|);
      ReplacementIs(rest, hunk[1..], newline, if k > 0 then k - 1 else 0);
      if k > 0 {
        CountsOfTail(hunk, k);
      }
    }
  }

  function Count(hunk: Hunk, kind: Kind): nat {
    if hunk == [] then 0 else (if hunk[0].kind == kind then 1 else 0) + Count(hunk[1..], kind)
  }

  /** A hunk changes the number of lines by its additions less its removals, and nothing outside its window. */
  lemma AppliedOutside(lines: seq<FileLine>, start: int, hunk: Hunk, newline: Ending)
    requires 0 <= start <= |lines| - |OldSide(hunk)|
    ensures var after := Applied(lines, start, hunk, newline);
      && |after| == |lines| + Count(hunk, Addition) - Count(hunk, Removal)
      && after[..start] == lines[..start]
      && start + NewCount(hunk, |hunk|) <= |after|
      && after[start + NewCount(hunk, |hunk|)..] == lines[start + |OldSide(hunk)|..]
  {
    ReplacementIs(lines[start..start + |OldSide(hunk)|], hunk, newline, 0);
    SizesDiffer(hunk);
    OldSideIs(hunk, 0);
  }

  lemma {:induction false} SizesDiffer(hunk: Hunk)
    ensures NewCount(hunk, |hunk|) + Count(hunk, Removal) == OldCount(hunk, |hunk|) + Count(hunk, Addition)
    decreases |hunk|
  {
    if hunk != [] {
      CountsOfTail(hunk, |hunk|);
      SizesDiffer(hunk[1..]);
    }
  }

  /** A hunk that demands nothing of the file matches everywhere, so it applies to the empty file only. */
  lemma NothingDemanded(lines: seq<FileLine>, hunk: Hunk)
    requires OldSide(hunk) == []
    ensures (exists s :: OnlyMatch(lines, OldSide(hunk), s)) <==> lines == []
  {
    assert MatchesAt(lines, 0, OldSide(hunk)) && (lines != [] ==> MatchesAt(lines, 1, OldSide(hunk)));
    if lines == [] {
      assert OnlyMatch(lines, OldSide(hunk), 0);
    }
  }

  // ---- The reverse hunk.

  function Inverse(hunk: Hunk): (inverse: Hunk)
    ensures |inverse| == |hunk|
  {
    if hunk == [] then []
    else
      var kind := match hunk[0].kind case Context => Context case Removal => Addition case Addition => Removal;
      [hunk[0].(kind := kind)] + Inverse(hunk[1..])
  }

  predicate FitsAll(window: seq<FileLine>, side: seq<PatchLine>) {
    |window| == |side| && forall i | 0 <= i < |side| :: Fits(window[i], side[i])
  }

  function Texts(lines: seq<FileLine>): seq<string> {
    if lines == [] then [] else [lines[0].text] + Texts(lines[1..])
  }

  /** What a hunk puts into the file, its inverse finds there and takes back, text for text. */
  lemma {:induction false} InverseUndoes(window: seq<FileLine>, hunk: Hunk, newline: Ending)
    requires FitsAll(window, OldSide(hunk)) && newline != NoEnd
    ensures var after := Replacement(window, hunk, newline);
      FitsAll(after, OldSide(Inverse(hunk))) && Texts(Replacement(after, Inverse(hunk), newline)) == Texts(window)
    decreases |hunk|
  {
    if hunk != [] {
      var side, inverse := OldSide(hunk), Inverse(hunk);
      var replaced := Replacement(window, hunk, newline);
      assert inverse[1..] == Inverse(hunk[1..]);
      match hunk[0].kind
      case Context =>
        assert side[0] == hunk[0] && side[1..] == OldSide(hunk[1..]);
        InverseUndoes(window[1..], hunk[1..], newline);
        assert replaced[1..] == Replacement(window[1..], hunk[1..], newline);
        assert Fits(window[0], side[0]);
      case Removal =>
        assert side[0] == hunk[0] && side[1..] == OldSide(hunk[1..]);
        InverseUndoes(window[1..], hunk[1..], newline);
        assert Fits(window[0], side[0]);
      case Addition =>
        InverseUndoes(window, hunk[1..], newline);
        assert replaced[1..] == Replacement(window, hunk[1..], newline);
    }
  }

  // ---- A whole update.

  function CountEnding(lines: seq<FileLine>, ending: Ending): nat {
    if lines == [] then 0 else (if lines[0].ending == ending then 1 else 0) + CountEnding(lines[1..], ending)
  }

  function FirstEnding(lines: seq<FileLine>): (ending: Ending)
    ensures ending == NoEnd <==> CountEnding(lines, Lf) + CountEnding(lines, CrLf) == 0
  {
    if lines == [] then NoEnd else if lines[0].ending != NoEnd then lines[0].ending else FirstEnding(lines[1..])
  }

  /** The line end most lines have, on a tie the first one, LF for a file without any. */
  function DominantNewline(lines: seq<FileLine>): (newline: Ending)
    ensures newline != NoEnd
    ensures CountEnding(lines, newline) >= CountEnding(lines, if newline == Lf then CrLf else Lf)
    ensures CountEnding(lines, Lf) == CountEnding(lines, CrLf) > 0 ==> newline == FirstEnding(lines)
  {
    var lf, crLf := CountEnding(lines, Lf), CountEnding(lines, CrLf);
    if lf > crLf then Lf else if crLf > lf then CrLf
    else if FirstEnding(lines) != NoEnd then FirstEnding(lines) else Lf
  }

  /** The states of the line list, hunk by hunk, and where each hunk was applied. */
  ghost predicate Course(hunks: seq<Hunk>, states: seq<seq<FileLine>>, starts: seq<int>, newline: Ending) {
    && |states| == |starts| + 1 && |starts| <= |hunks|
    && forall i | 0 <= i < |starts| ::
         && OnlyMatch(states[i], OldSide(hunks[i]), starts[i])
         && states[i + 1] == Applied(states[i], starts[i], hunks[i], newline)
  }

  datatype UpdateError = BadHunks | Conflict

  /** The hunks one after the other; the first that does not match exactly once is a conflict. */
  method ApplyHunks(original: seq<FileLine>, hunks: seq<Hunk>, newline: Ending)
    returns (r: Option<seq<FileLine>>, ghost states: seq<seq<FileLine>>, ghost starts: seq<int>)
    ensures Course(hunks, states, starts, newline) && states[0] == original
    ensures r.Some? <==> |starts| == |hunks|
    ensures r.Some? ==> r.value == states[|starts|]
    ensures r.None? ==>
      && |starts| < |hunks|
      && !exists s :: OnlyMatch(states[|starts|], OldSide(hunks[|starts|]), s)
  {
    var lines := original;
    states, starts := [lines], [];
    for i := 0 to |hunks|
      invariant |starts| == i && Course(hunks, states, starts, newline) && states[0] == original && lines == states[i]
    {
      ghost var start;
      var applied;
      applied, start := ApplyHunk(lines, hunks[i], newline);
      if applied.None? {
        return None, states, starts;
      }
      lines := applied.value;
      states, starts := states + [lines], starts + [start];
    }
    return Some(lines), states, starts;
  }

  /** An update reads the hunks and applies them to the lines of the file. Added lines end as most lines of the
      original file do. */
  method ApplyUpdate(before: string, body: seq<string>)
    returns (r: Result<string, UpdateError>, ghost states: seq<seq<FileLine>>, ghost starts: seq<int>)
    ensures r == Err(BadHunks) <==> Hunks(body).Err?
    ensures Hunks(body).Ok? ==>
      && |states| > 0 && FileText(states[0]) == before
      && Course(Hunks(body).value, states, starts, DominantNewline(states[0]))
      && (r.Ok? <==> |starts| == |Hunks(body).value|)
      && (r.Ok? ==> r.value == FileText(states[|starts|]))
      && (r.Err? ==>
            && |starts| < |Hunks(body).value|
            && !exists s :: OnlyMatch(states[|starts|], OldSide(Hunks(body).value[|starts|]), s))
  {
    var lines := FileLines(before);
    var newline := DominantNewline(lines);
    var parsed := ParseHunks(body);
    if parsed.Err? {
      return Err(BadHunks), [], [];
    }
    var applied;
    applied, states, starts := ApplyHunks(lines, parsed.value, newline);
    if applied.None? {
      return Err(Conflict), states, starts;
    }
    return Ok(FileText(applied.value)), states, starts;
  }

  function LineChange(hunks: seq<Hunk>, k: nat): int
    requires k <= |hunks|
  {
    if k == 0 then 0
    else LineChange(hunks, k - 1) + Count(hunks[k - 1], Addition) - Count(hunks[k - 1], Removal)
  }

  /** Over all hunks the number of lines changes by all additions less all removals. */
  lemma {:induction false} CourseCounts(hunks: seq<Hunk>, states: seq<seq<FileLine>>, starts: seq<int>, newline: Ending,
                                        k: nat)
    requires Course(hunks, states, starts, newline) && k <= |starts|
    ensures |states[k]| == |states[0]| + LineChange(hunks, k)
  {
    if k > 0 {
      CourseCounts(hunks, states, starts, newline, k - 1);
      AppliedOutside(states[k - 1], starts[k - 1], hunks[k - 1], newline);
    }
  }

  /** The hunks and the file determine every start and every state. */
  lemma {:induction false} OneCourse(hunks: seq<Hunk>, states: seq<seq<FileLine>>, starts: seq<int>,
                                     others: seq<seq<FileLine>>, otherStarts: seq<int>, newline: Ending, k: nat)
    requires Course(hunks, states, starts, newline) && Course(hunks, others, otherStarts, newline)
    requires states[0] == others[0] && k <= |starts| && k <= |otherStarts|
    ensures states[k] == others[k] && (k > 0 ==> starts[k - 1] == otherStarts[k - 1])
  {
    if k > 0 {
      OneCourse(hunks, states, starts, others, otherStarts, newline, k - 1);
      assert OnlyMatch(states[k - 1], OldSide(hunks[k - 1]), starts[k - 1]);
      assert OnlyMatch(others[k - 1], OldSide(hunks[k - 1]), otherStarts[k - 1]);
    }
  }
}

/** Finding the one Python block of a model answer, and writing one (examples/coding/protocol.py:65-126,
    examples/coding/model_adapter.py:369-372). The fence form is that of fenced code blocks in section 4.5
    of the CommonMark Spec. */
module PythonFence {
  import opened Basics
  import opened TextLines

  datatype FenceError = MalformedBlock | EmptyBlock | MultipleBlocks

  datatype Parsed = Text(text: string) | Python(outside: string, code: string)

  predicate IsLineEnd(c: char) {
    c == '\r' || c == '\n'
  }

  predicate IsBlank(c: char) {
    c == ' ' || c == '\t'
  }

  /** A line without its CR and LF characters at the end. */
  function StripLineEnd(line: string): (logical: string)
    ensures |logical| <= |line| && logical == line[..|logical|]
    ensures logical != "" ==> !IsLineEnd(logical[|logical| - 1])
    ensures forall i | |logical| <= i < |line| :: IsLineEnd(line[i])
  {
    if line != "" && IsLineEnd(line[|line| - 1]) then StripLineEnd(line[..|line| - 1]) else line
  }

  /** How many times a character stands at the beginning. */
  function Leading(s: string, c: char): (n: nat)
    ensures n <= |s| && (forall i | 0 <= i < n :: s[i] == c) && (n < |s| ==> s[n] != c)
  {
    if s == "" || s[0] != c then 0 else 1 + Leading(s[1..], c)
  }

  lemma LeadingIs(s: string, c: char, n: nat)
    requires n <= |s| && (forall i | 0 <= i < n :: s[i] == c) && (n < |s| ==> s[n] != c)
    ensures Leading(s, c) == n
  {
  }

  datatype Opening = Opening(width: nat, info: string)

  /** Up to three spaces, three or more backticks, an info string without any. */
  function OpeningOf(line: string): Option<Opening> {
    var spaces := Leading(line, ' ');
    var rest := line[spaces..];
    var width := Leading(rest, '`');
    if spaces > 3 || width < 3 || '`' in rest[width..] then None else Some(Opening(width, rest[width..]))
  }

  /** Up to three spaces, at least as many backticks as the opening had, nothing but blanks after them. */
  predicate Closes(line: string, width: nat) {
    var spaces := Leading(line, ' ');
    var rest := line[spaces..];
    var ticks := Leading(rest, '`');
    spaces <= 3 && ticks >= width && forall i | ticks <= i < |rest| :: IsBlank(rest[i])
  }

  function Strip(s: string): string {
    StripLeft(StripRight(s))
  }

  function StripLeft(s: string): string {
    if s != "" && IsSpace(s[0]) then StripLeft(s[1..]) else s
  }

  /** Lower case where it matters: no letter outside ASCII has one of the letters of the name as its lower case. */
  function Lower(s: string): string {
    if s == "" then "" else [if 'A' <= s[0] <= 'Z' then s[0] - 'A' + 'a' else s[0]] + Lower(s[1..])
  }

  /** The name of the language, perhaps with something after it. */
  predicate SpellsPython(name: string) {
    && |name| >= 6 && name[0] == 'p' && name[1] == 'y' && name[2] == 't' && name[3] == 'h' && name[4] == 'o'
    && name[5] == 'n'
  }

  predicate IsPython(info: string) {
    var name := Lower(Strip(info));
    SpellsPython(name) && |name| == 6
  }

  /** The name, a blank, and more: a fence that declares Python in a form that is not allowed. */
  predicate MisnamesPython(info: string) {
    var name := Lower(Strip(info));
    SpellsPython(name) && |name| > 6 && IsBlank(name[6])
  }

  predicate Blank(s: string) {
    forall i | 0 <= i < |s| :: IsSpace(s[i])
  }

  /** The lines `start` and `end` hold the fence, the code lies between. */
  datatype Block = Block(start: nat, end: nat, code: string)

  /** Where the fence is closed; the number of lines if it is not. */
  function CloseIndex(lines: seq<string>, index: nat, width: nat): (end: nat)
    requires index <= |lines|
    ensures index <= end <= |lines| && (end < |lines| ==> Closes(StripLineEnd(lines[end]), width))
    ensures forall i | index <= i < end :: !Closes(StripLineEnd(lines[i]), width)
    decreases |lines| - index
  {
    if index == |lines| || Closes(StripLineEnd(lines[index]), width) then index
    else CloseIndex(lines, index + 1, width)
  }

  /** What stands at a line: nothing of interest up to `next`, a Python block, or an error. */
  datatype Found = Nothing(next: nat) | Found(block: Block, next: nat) | Bad(error: FenceError)

  function FenceAt(lines: seq<string>, index: nat): (found: Found)
    requires index < |lines|
    ensures !found.Bad? ==> index < found.next <= |lines|
    ensures found.Found? ==> found.block.start == index < found.block.end < |lines| && found.next == found.block.end + 1
  {
    var opening := OpeningOf(StripLineEnd(lines[index]));
    if opening.None? then Nothing(index + 1)
    else if MisnamesPython(opening.value.info) then Bad(MalformedBlock)
    else
      var end := CloseIndex(lines, index + 1, opening.value.width);
      var next := if end < |lines| then end + 1 else end;
      if !IsPython(opening.value.info) then Nothing(next)
      else if end == |lines| then Bad(MalformedBlock)
      else
        var code := Flatten(lines[index + 1..end]);
        if Blank(code) then Bad(EmptyBlock) else Found(Block(index, end, code), next)
  }

  /** The block is what stands at its first line. */
  predicate IsBlock(lines: seq<string>, block: Block) {
    block.start < |lines| && FenceAt(lines, block.start) == Found(block, block.end + 1)
  }

  /** Every find leads on, and a block lies within the lines. */
  predicate ProperFinds(finds: seq<Found>) {
    forall i | 0 <= i < |finds| ::
      && (!finds[i].Bad? ==> i < finds[i].next <= |finds|)
      && (finds[i].Found? ==> finds[i].block.start < finds[i].block.end < |finds|)
  }

  /** What stands at each line. */
  function Finds(lines: seq<string>): (finds: seq<Found>)
    ensures |finds| == |lines| && ProperFinds(finds)
  {
    seq(|lines|, i requires 0 <= i < |lines| => FenceAt(lines, i))
  }

  lemma FindIs(lines: seq<string>, i: nat)
    requires i < |lines|
    ensures Finds(lines)[i] == FenceAt(lines, i)
  {
  }

  predicate InRange(blocks: seq<Block>, count: nat) {
    forall i | 0 <= i < |blocks| :: blocks[i].start < blocks[i].end < count
  }

  /** Goes through the finds, collecting Python blocks; what lies inside a fence is passed over. */
  function Scan(finds: seq<Found>, index: nat, blocks: seq<Block>): (r: Result<seq<Block>, FenceError>)
    requires ProperFinds(finds) && index <= |finds| && InRange(blocks, |finds|)
    ensures r.Ok? ==> InRange(r.value, |finds|)
    decreases |finds| - index
  {
    if index == |finds| then Ok(blocks)
    else match finds[index]
      case Nothing(next) => Scan(finds, next, blocks)
      case Found(block, next) => Scan(finds, next, blocks + [block])
      case Bad(error) => Err(error)
  }

  ghost predicate AllBlocks(lines: seq<string>, blocks: seq<Block>) {
    forall i | 0 <= i < |blocks| :: IsBlock(lines, blocks[i])
  }

  lemma OneMoreBlock(lines: seq<string>, blocks: seq<Block>, index: nat)
    requires AllBlocks(lines, blocks) && index < |lines| && Finds(lines)[index].Found?
    ensures AllBlocks(lines, blocks + [Finds(lines)[index].block])
  {
    FindIs(lines, index);
  }

  lemma {:induction false} ScanFinds(lines: seq<string>, index: nat, blocks: seq<Block>)
    requires index <= |lines| && InRange(blocks, |lines|) && AllBlocks(lines, blocks)
    ensures Scan(Finds(lines), index, blocks).Ok? ==> AllBlocks(lines, Scan(Finds(lines), index, blocks).value)
    decreases |lines| - index
  {
    if index < |lines| {
      var found := Finds(lines)[index];
      if found.Nothing? {
        ScanFinds(lines, found.next, blocks);
      } else if found.Found? {
        OneMoreBlock(lines, blocks, index);
        ScanFinds(lines, found.next, blocks + [found.block]);
      }
    }
  }

  function Outside(lines: seq<string>, block: Block): string
    requires block.start <= block.end < |lines|
  {
    Flatten(lines[..block.start] + lines[block.end + 1..])
  }

  function Chosen(text: string, lines: seq<string>, blocks: seq<Block>): Result<Parsed, FenceError>
    requires InRange(blocks, |lines|)
  {
    if blocks == [] then Ok(Text(text))
    else if |blocks| != 1 then Err(MultipleBlocks)
    else Ok(Python(Outside(lines, blocks[0]), blocks[0].code))
  }

  function ParsedFence(text: string): Result<Parsed, FenceError> {
    var blocks :- Scan(Finds(Lines(text)), 0, []);
    Chosen(text, Lines(text), blocks)
  }

  /** The parser: an outer loop over the lines, an inner one to the end of each fence. */
  method ParsePythonFence(text: string) returns (r: Result<Parsed, FenceError>)
    ensures r == ParsedFence(text)
  {
    var lines := Lines(text);
    var blocks :- ScanLines(lines);
    if blocks == [] {
      return Ok(Text(text));
    }
    if |blocks| != 1 {
      return Err(MultipleBlocks);
    }
    return Ok(Python(Outside(lines, blocks[0]), blocks[0].code));
  }

  method ScanLines(lines: seq<string>) returns (r: Result<seq<Block>, FenceError>)
    ensures r == Scan(Finds(lines), 0, [])
  {
    ghost var finds := Finds(lines);
    var blocks: seq<Block> := [];
    var index := 0;
    while index < |lines|
      invariant index <= |lines| && InRange(blocks, |lines|)
      invariant Scan(finds, 0, []) == Scan(finds, index, blocks)
      decreases |lines| - index
    {
      var found := FindFence(lines, index);
      if found.Bad? {
        return Err(found.error);
      }
      if found.Found? {
        blocks := blocks + [found.block];
      }
      index := found.next;
    }
    return Ok(blocks);
  }

  method FindFence(lines: seq<string>, start: nat) returns (found: Found)
    requires start < |lines|
    ensures found == Finds(lines)[start]
  {
    FindIs(lines, start);
    var opening := OpeningOf(StripLineEnd(lines[start]));
    if opening.None? {
      return Nothing(start + 1);
    }
    if MisnamesPython(opening.value.info) {
      return Bad(MalformedBlock);
    }
    var index := FindClose(lines, start + 1, opening.value.width);
    var closed := index < |lines|;
    var next := if closed then index + 1 else index;
    if !IsPython(opening.value.info) {
      return Nothing(next);
    }
    if !closed {
      return Bad(MalformedBlock);
    }
    var code := Flatten(lines[start + 1..index]);
    if Blank(code) {
      return Bad(EmptyBlock);
    }
    return Found(Block(start, index, code), next);
  }

  method FindClose(lines: seq<string>, from: nat, width: nat) returns (index: nat)
    requires from <= |lines|
    ensures index == CloseIndex(lines, from, width)
  {
    index := from;
    while index < |lines|
      invariant from <= index <= |lines| && CloseIndex(lines, from, width) == CloseIndex(lines, index, width)
    {
      if Closes(StripLineEnd(lines[index]), width) {
        break;
      }
      index := index + 1;
    }
  }

  /** For an accepted text, what is outside, the fence lines and the code make up the text. */
  lemma AcceptedTextIsWhole(text: string) returns (prefix: string, opening: string, closing: string, suffix: string)
    requires ParsedFence(text).Ok? && ParsedFence(text).value.Python?
    ensures var parsed := ParsedFence(text).value;
      && text == prefix + opening + parsed.code + closing + suffix && parsed.outside == prefix + suffix
      && !Blank(parsed.code)
    ensures FencesPython(opening, closing)
  {
    var lines := Lines(text);
    var blocks := Scan(Finds(lines), 0, []).value;
    ScanFinds(lines, 0, []);
    LinesJoin(text);
    BlockCode(lines, blocks[0]);
    BlockFences(lines, blocks[0]);
    prefix, opening, closing, suffix := BlockParts(lines, blocks[0]);
  }

  predicate FencesPython(opening: string, closing: string) {
    var found := OpeningOf(StripLineEnd(opening));
    found.Some? && IsPython(found.value.info) && Closes(StripLineEnd(closing), found.value.width)
  }

  /** A block is a Python opening, a closing, and the code between them. */
  lemma BlockCode(lines: seq<string>, block: Block)
    requires IsBlock(lines, block)
    ensures block.start < block.end < |lines| && block.code == Flatten(lines[block.start + 1..block.end])
    ensures !Blank(block.code)
  {
  }

  lemma BlockFences(lines: seq<string>, block: Block)
    requires IsBlock(lines, block)
    ensures block.start < block.end < |lines| && FencesPython(lines[block.start], lines[block.end])
  {
  }

  lemma BlockParts(lines: seq<string>, block: Block)
    returns (prefix: string, opening: string, closing: string, suffix: string)
    requires block.start < block.end < |lines| && block.code == Flatten(lines[block.start + 1..block.end])
    ensures Flatten(lines) == prefix + opening + block.code + closing + suffix
    ensures Outside(lines, block) == prefix + suffix
    ensures opening == lines[block.start] && closing == lines[block.end]
  {
    var first, last := block.start, block.end;
    prefix, opening, closing, suffix := Flatten(lines[..first]), lines[first], lines[last], Flatten(lines[last + 1..]);
    FlattenAt(lines, first);
    TailParts(lines, first, last);
    Regrouped(prefix, opening, block.code, closing, suffix);
    FlattenConcat(lines[..first], lines[last + 1..]);
  }

  lemma TailParts(lines: seq<string>, first: nat, last: nat)
    requires first < last < |lines|
    ensures Flatten(lines[first + 1..]) == Flatten(lines[first + 1..last]) + lines[last] + Flatten(lines[last + 1..])
  {
    var tail := lines[first + 1..];
    FlattenAt(tail, last - first - 1);
    assert tail[..last - first - 1] == lines[first + 1..last] && tail[last - first..] == lines[last + 1..];
  }

  lemma Regrouped(a: string, b: string, c: string, d: string, e: string)
    ensures a + b + (c + d + e) == a + b + c + d + e
  {
  }

  lemma FlattenAt(lines: seq<string>, k: nat)
    requires k < |lines|
    ensures Flatten(lines) == Flatten(lines[..k]) + lines[k] + Flatten(lines[k + 1..])
  {
    SplitAt(lines, k);
    FlattenConcat(lines[..k] + [lines[k]], lines[k + 1..]);
    FlattenSnoc(lines[..k], lines[k]);
  }

  // ---- Writing a fence.

  function Backticks(n: nat): (s: string)
    ensures |s| == n && forall i | 0 <= i < n :: s[i] == '`'
  {
    seq(n, _ => '`')
  }

  /** The length of the longest run of backticks. */
  function LongestRun(s: string): nat {
    if s == "" then 0
    else
      var here, later := Leading(s, '`'), LongestRun(s[1..]);
      if here > later then here else later
  }

  /** A fence around code, longer than any run of backticks in it. */
  function ProjectedFence(code: string): string {
    var longest := LongestRun(code);
    var marker := Backticks(if longest + 1 > 3 then longest + 1 else 3);
    marker + "python\n" + StripRight(code) + "\n" + marker
  }

  ghost predicate RunAt(s: string, i: nat, n: nat) {
    i + n <= |s| && forall k | i <= k < i + n :: s[k] == '`'
  }

  ghost predicate HasRun(s: string, n: nat) {
    exists i :: RunAt(s, i, n)
  }

  lemma {:induction false} RunIsShort(s: string, i: nat, n: nat)
    requires RunAt(s, i, n) && n > 0
    ensures n <= LongestRun(s)
    decreases |s|
  {
    if i > 0 {
      assert RunAt(s[1..], i - 1, n);
      RunIsShort(s[1..], i - 1, n);
    }
  }

  /** A run in a line is a run in the text. */
  lemma {:induction false} RunInText(s: string, line: nat, n: nat)
    requires line < |Lines(s)| && HasRun(Lines(s)[line], n)
    ensures HasRun(s, n)
    decreases |s|
  {
    var first := FirstLine(s);
    if line == 0 {
      var i: nat :| RunAt(s[..first], i, n);
      assert RunAt(s, i, n);
    } else {
      RunInText(s[first..], line - 1, n);
      var i: nat :| RunAt(s[first..], i, n);
      assert forall k | i <= k < i + n :: s[first + k] == s[first..][k];
      assert RunAt(s, first + i, n);
    }
  }

  /** A line that closes a fence holds a run as long as the fence. */
  lemma ClosingHasRun(line: string, width: nat)
    requires Closes(StripLineEnd(line), width)
    ensures HasRun(line, width)
  {
    var logical := StripLineEnd(line);
    var spaces := Leading(logical, ' ');
    assert forall k | 0 <= k < width :: logical[spaces..][k] == logical[spaces + k] == line[spaces + k];
    assert RunAt(line, spaces, width);
  }

  /** A line of the code can only close a fence no longer than the longest run in the code. */
  lemma ClosingIsShort(code: string, kept: nat, line: nat, width: nat)
    requires kept <= |code| && line < |Lines(code[..kept] + "\n")| && width > 0
    requires Closes(StripLineEnd(Lines(code[..kept] + "\n")[line]), width)
    ensures width <= LongestRun(code)
  {
    var inner := code[..kept] + "\n";
    ClosingHasRun(Lines(inner)[line], width);
    RunInText(inner, line, width);
    var i: nat :| RunAt(inner, i, width);
    assert inner[kept] == '\n' && !(i <= kept < i + width);
    assert forall k | i <= k < i + width :: inner[k] == code[k];
    assert RunAt(code, i, width);
    RunIsShort(code, i, width);
  }

  lemma {:induction false} CloseIndexIs(lines: seq<string>, index: nat, width: nat, end: nat)
    requires index <= end < |lines| && Closes(StripLineEnd(lines[end]), width)
    requires forall i | index <= i < end :: !Closes(StripLineEnd(lines[i]), width)
    ensures CloseIndex(lines, index, width) == end
    decreases end - index
  {
    if index < end {
      CloseIndexIs(lines, index + 1, width, end);
    }
  }

  lemma NameIsPython()
    ensures IsPython("python") && !MisnamesPython("python")
  {
    StripRightIs("python", 6);
    assert "python"[..6] == "python" && StripLeft("python") == "python";
    assert Lower("n") == ['n'] + Lower("n"[1..]);
    assert "on"[1..] == "n" && "hon"[1..] == "on" && "thon"[1..] == "hon";
    assert "ython"[1..] == "thon" && "python"[1..] == "ython";
    assert Lower("on") == "on";
    assert Lower("hon") == "hon";
    assert Lower("thon") == "thon";
    assert Lower("ython") == "ython";
  }

  lemma MarkerOpens(width: nat)
    requires width >= 3
    ensures OpeningOf(StripLineEnd(Backticks(width) + "python\n")) == Some(Opening(width, "python"))
  {
    var line := Backticks(width) + "python";
    assert Backticks(width) + "python\n" == line + "\n";
    StripsEnd(line);
    LeadingIs(line, ' ', 0);
    LeadingIs(line, '`', width);
    assert line[0..] == line && line[width..] == "python";
  }

  lemma MarkerCloses(width: nat)
    requires width >= 3
    ensures Closes(StripLineEnd(Backticks(width)), width)
  {
    var marker := Backticks(width);
    assert StripLineEnd(marker) == marker;
    LeadingIs(marker, ' ', 0);
    LeadingIs(marker, '`', width);
    assert marker[0..] == marker;
  }

  lemma StripsEnd(line: string)
    requires line != "" && !IsLineEnd(line[|line| - 1])
    ensures StripLineEnd(line + "\n") == line
  {
    assert (line + "\n")[..|line + "\n"| - 1] == line;
  }

  lemma FencedLines(opening: string, inner: string, marker: string)
    requires opening != "" && opening[|opening| - 1] == '\n'
    requires forall i | 0 <= i < |opening| - 1 :: !IsBreak(opening[i])
    requires inner != "" && inner[|inner| - 1] == '\n'
    requires marker != "" && forall i | 0 <= i < |marker| :: !IsBreak(marker[i])
    ensures Lines(opening + (inner + marker)) == [opening] + Lines(inner) + [marker]
  {
    LinesConcat(opening, inner + marker);
    LinesConcat(inner, marker);
    OneLine(opening);
    OneLine(marker);
  }

  lemma ProjectedParts(code: string, width: nat)
    requires width == if LongestRun(code) + 1 > 3 then LongestRun(code) + 1 else 3
    ensures ProjectedFence(code) == (Backticks(width) + "python\n") + ((StripRight(code) + "\n") + Backticks(width))
  {
  }

  lemma ScanOne(finds: seq<Found>, block: Block)
    requires ProperFinds(finds) && finds != [] && finds[0] == Found(block, |finds|)
    ensures Scan(finds, 0, []) == Ok([block])
  {
    assert [] + [block] == [block];
    assert Scan(finds, |finds|, [block]) == Ok([block]);
  }

  lemma ScanFenced(code: string, width: nat, lines: seq<string>)
    requires !Blank(code) && width >= 3 && width > LongestRun(code)
    requires lines == [Backticks(width) + "python\n"] + Lines(StripRight(code) + "\n") + [Backticks(width)]
    ensures Scan(Finds(lines), 0, []) == Ok([Block(0, |lines| - 1, StripRight(code) + "\n")])
  {
    FoundInside(code, width);
    FindIs(lines, 0);
    ScanOne(Finds(lines), Block(0, |lines| - 1, StripRight(code) + "\n"));
  }

  lemma WholeText(text: string, lines: seq<string>, block: Block)
    requires lines == Lines(text) && lines != [] && Scan(Finds(lines), 0, []) == Ok([block])
    requires block.start == 0 && block.end == |lines| - 1
    ensures ParsedFence(text) == Ok(Python("", block.code))
  {
    assert lines[..0] + lines[|lines| - 1 + 1..] == [];
  }

  /** Whatever code is written, however many backticks it holds, it is read back as the one Python block, with
      nothing outside. */
  lemma FenceRoundTrip(code: string)
    requires !Blank(code)
    ensures ParsedFence(ProjectedFence(code)) == Ok(Python("", StripRight(code) + "\n"))
  {
    var width := if LongestRun(code) + 1 > 3 then LongestRun(code) + 1 else 3;
    var opening, inner, marker := Backticks(width) + "python\n", StripRight(code) + "\n", Backticks(width);
    var lines := [opening] + Lines(inner) + [marker];
    ProjectedParts(code, width);
    FencedLines(opening, inner, marker);
    ScanFenced(code, width, lines);
    WholeText(ProjectedFence(code), lines, Block(0, |lines| - 1, inner));
  }

  /** The first line that closes the fence is the marker. */
  lemma ClosesAtMarker(code: string, width: nat)
    requires width >= 3 && width > LongestRun(code)
    ensures var lines := [Backticks(width) + "python\n"] + Lines(StripRight(code) + "\n") + [Backticks(width)];
      CloseIndex(lines, 1, width) == |lines| - 1
  {
    var lines := [Backticks(width) + "python\n"] + Lines(StripRight(code) + "\n") + [Backticks(width)];
    var last := |lines| - 1;
    MarkerCloses(width);
    forall i | 1 <= i < last ensures !Closes(StripLineEnd(lines[i]), width) {
      assert lines[i] == Lines(code[..|StripRight(code)|] + "\n")[i - 1];
      if Closes(StripLineEnd(lines[i]), width) {
        ClosingIsShort(code, |StripRight(code)|, i - 1, width);
      }
    }
    CloseIndexIs(lines, 1, width, last);
  }

  /** The fence is found at the first line, its closing at the last. */
  lemma FoundInside(code: string, width: nat)
    requires !Blank(code) && width >= 3 && width > LongestRun(code)
    ensures var inner := StripRight(code) + "\n";
      var lines := [Backticks(width) + "python\n"] + Lines(inner) + [Backticks(width)];
      FenceAt(lines, 0) == Found(Block(0, |lines| - 1, inner), |lines|)
  {
    var inner := StripRight(code) + "\n";
    var lines := [Backticks(width) + "python\n"] + Lines(inner) + [Backticks(width)];
    MarkerOpens(width);
    NameIsPython();
    ClosesAtMarker(code, width);
    assert lines[1..|lines| - 1] == Lines(inner);
    LinesJoin(inner);
    NotBlank(code);
  }

  lemma NotBlank(code: string)
    requires !Blank(code)
    ensures StripRight(code) != "" && !Blank(StripRight(code) + "\n")
  {
    var kept := StripRight(code);
    assert !IsSpace((kept + "\n")[|kept| - 1]);
  }
}

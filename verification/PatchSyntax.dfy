/** The text form of a patch: container, sections, added lines, hunks
    (roboagent/tool/apply_patch.py:205-281, 353-391). */
module PatchSyntax {
  import opened Basics
  import opened TextLines

  datatype PatchError = UnsupportedContent | InvalidPatch | InvalidPath | DuplicateTarget

  datatype Operation = AddFile | UpdateFile | DeleteFile

  datatype Section = Section(operation: Operation, path: string, body: seq<string>)

  const BEGIN := "*** Begin Patch"
  const END := "*** End Patch"
  const NO_NEWLINE := "\\ No newline at end of file"

  function Prefix(operation: Operation): string {
    match operation
    case AddFile => "*** Add File: "
    case UpdateFile => "*** Update File: "
    case DeleteFile => "*** Delete File: "
  }

  /** The section a header line opens. */
  function HeaderOf(line: string): Option<Operation> {
    if StartsWith(line, Prefix(AddFile)) then Some(AddFile)
    else if StartsWith(line, Prefix(UpdateFile)) then Some(UpdateFile)
    else if StartsWith(line, Prefix(DeleteFile)) then Some(DeleteFile)
    else None
  }

  lemma HeaderRoundTrip(operation: Operation, path: string)
    ensures HeaderOf(Prefix(operation) + path) == Some(operation)
    ensures (Prefix(operation) + path)[|Prefix(operation)|..] == path
  {
    var line := Prefix(operation) + path;
    assert line[..|Prefix(operation)|] == Prefix(operation);
    assert line[4] == Prefix(operation)[4];
  }

  lemma HeaderParts(line: string)
    requires HeaderOf(line).Some?
    ensures var prefix := Prefix(HeaderOf(line).value); |prefix| <= |line| && line == prefix + line[|prefix|..]
  {
  }

  predicate Contains(s: string, part: string) {
    exists i | 0 <= i <= |s| :: StartsWith(s[i..], part)
  }

  /** A strict relative path. */
  predicate ValidPath(path: string) {
    && path != "" && path[0] !in "/ \t" && path[|path| - 1] !in "/ \t"
    && !Contains(path, "//") && '\n' !in path && '\0' !in path
    && forall part | part in Split(path, '/') :: part !in ["", ".", ".."]
  }

  // ---- Added files.

  datatype AddedLine = AddedLine(text: string, noNewline: bool)

  function Content(lines: seq<AddedLine>): string {
    if lines == [] then ""
    else lines[0].text + (if lines[0].noNewline then "" else "\n") + Content(lines[1..])
  }

  /** Reads the added lines of a body, given those read before. */
  function ReadAdded(body: seq<string>, values: seq<AddedLine>): Option<seq<AddedLine>>
    decreases |body|
  {
    if body == [] then Some(values)
    else if body[0] == NO_NEWLINE then
      if values == [] || values[|values| - 1].noNewline then None
      else ReadAdded(body[1..], values[|values| - 1 := values[|values| - 1].(noNewline := true)])
    else if StartsWith(body[0], "+") then ReadAdded(body[1..], values + [AddedLine(body[0][1..], false)])
    else None
  }

  /** The no-newline marker may only describe the last line. */
  predicate MarksLastOnly(values: seq<AddedLine>) {
    forall i | 0 <= i < |values| - 1 :: !values[i].noNewline
  }

  function Added(body: seq<string>): Result<string, PatchError> {
    var values := ReadAdded(body, []);
    if values.None? || !MarksLastOnly(values.value) then Err(InvalidPatch) else Ok(Content(values.value))
  }

  method ParseAdd(body: seq<string>) returns (r: Result<string, PatchError>)
    ensures r == Added(body)
  {
    var values: seq<AddedLine> := [];
    for i := 0 to |body|
      invariant ReadAdded(body, []) == ReadAdded(body[i..], values)
    {
      assert body[i..][1..] == body[i + 1..];
      var line := body[i];
      if line == NO_NEWLINE {
        if values == [] || values[|values| - 1].noNewline {
          return Err(InvalidPatch);
        }
        values := values[|values| - 1 := values[|values| - 1].(noNewline := true)];
      } else if StartsWith(line, "+") {
        values := values + [AddedLine(line[1..], false)];
      } else {
        return Err(InvalidPatch);
      }
    }
    assert body[|body|..] == [];
    if exists i | 0 <= i < |values| - 1 :: values[i].noNewline {
      return Err(InvalidPatch);
    }
    return Ok(Content(values));
  }

  // ---- Hunks.

  datatype Kind = Context | Removal | Addition

  datatype PatchLine = PatchLine(kind: Kind, text: string, noNewline: bool)

  type Hunk = seq<PatchLine>

  function Mark(kind: Kind): char {
    match kind case Context => ' ' case Removal => '-' case Addition => '+'
  }

  function KindOf(line: string): Option<Kind> {
    if line == "" then None
    else if line[0] == ' ' then Some(Context)
    else if line[0] == '-' then Some(Removal)
    else if line[0] == '+' then Some(Addition)
    else None
  }

  predicate IsHunkHeader(line: string) {
    StripRight(line) == "@@" && StartsWith(line, "@@")
  }

  function MarkLast(hunk: Hunk): Hunk
    requires hunk != []
  {
    hunk[|hunk| - 1 := hunk[|hunk| - 1].(noNewline := true)]
  }

  /** Reads hunks from a body, given those read before. */
  function ReadHunks(body: seq<string>, hunks: seq<Hunk>): Option<seq<Hunk>>
    decreases |body|
  {
    if body == [] then Some(hunks)
    else
      var line, last := body[0], |hunks| - 1;
      if IsHunkHeader(line) then ReadHunks(body[1..], hunks + [[]])
      else if line == NO_NEWLINE then
        if hunks == [] || hunks[last] == [] || hunks[last][|hunks[last]| - 1].noNewline then None
        else ReadHunks(body[1..], hunks[last := MarkLast(hunks[last])])
      else if hunks != [] && KindOf(line).Some? then
        ReadHunks(body[1..], hunks[last := hunks[last] + [PatchLine(KindOf(line).value, line[1..], false)]])
      else None
  }

  predicate ProperHunks(hunks: seq<Hunk>) {
    hunks != [] && forall i | 0 <= i < |hunks| :: hunks[i] != []
  }

  function Hunks(body: seq<string>): Result<seq<Hunk>, PatchError> {
    var hunks := ReadHunks(body, []);
    if hunks.None? || !ProperHunks(hunks.value) then Err(InvalidPatch) else Ok(hunks.value)
  }

  method ParseHunks(body: seq<string>) returns (r: Result<seq<Hunk>, PatchError>)
    ensures r == Hunks(body)
  {
    var hunks: seq<Hunk> := [];
    for i := 0 to |body|
      invariant ReadHunks(body, []) == ReadHunks(body[i..], hunks)
    {
      assert body[i..][1..] == body[i + 1..];
      var line, last := body[i], |hunks| - 1;
      if IsHunkHeader(line) {
        hunks := hunks + [[]];
      } else if line == NO_NEWLINE {
        if hunks == [] || hunks[last] == [] || hunks[last][|hunks[last]| - 1].noNewline {
          return Err(InvalidPatch);
        }
        hunks := hunks[last := MarkLast(hunks[last])];
      } else if hunks != [] && KindOf(line).Some? {
        hunks := hunks[last := hunks[last] + [PatchLine(KindOf(line).value, line[1..], false)]];
      } else {
        return Err(InvalidPatch);
      }
    }
    assert body[|body|..] == [];
    if hunks == [] || exists i | 0 <= i < |hunks| :: hunks[i] == [] {
      return Err(InvalidPatch);
    }
    return Ok(hunks);
  }

  // ---- The patch as a whole.

  /** The lines up to the next section header. */
  function BodyLength(lines: seq<string>): (n: nat)
    ensures n <= |lines| && (n < |lines| ==> HeaderOf(lines[n]).Some?)
    ensures forall i | 0 <= i < n :: HeaderOf(lines[i]).None?
  {
    if lines == [] || HeaderOf(lines[0]).Some? then 0
    else
      var rest := BodyLength(lines[1..]);
      assert forall i | 1 <= i < rest + 1 :: lines[i] == lines[1..][i - 1];
      1 + rest
  }

  /** Cuts the lines between the container markers into sections, after those cut before. */
  function Sections(lines: seq<string>, sections: seq<Section>): Result<seq<Section>, PatchError>
    decreases |lines|
  {
    if lines == [] then Ok(sections)
    else
      var operation := HeaderOf(lines[0]);
      if operation.None? then Err(InvalidPatch)
      else
        var path, n := lines[0][|Prefix(operation.value)|..], BodyLength(lines[1..]);
        if !ValidPath(path) then Err(InvalidPath)
        else Sections(lines[1 + n..], sections + [Section(operation.value, path, lines[1..][..n])])
  }

  predicate BodyOk(section: Section) {
    match section.operation
    case AddFile => Added(section.body).Ok?
    case UpdateFile => Hunks(section.body).Ok?
    case DeleteFile => section.body == []
  }

  predicate DistinctTargets(sections: seq<Section>) {
    forall i, j | 0 <= i < j < |sections| :: sections[i].path != sections[j].path
  }

  function Checked(sections: seq<Section>): Result<seq<Section>, PatchError> {
    if sections == [] then Err(InvalidPatch)
    else if !DistinctTargets(sections) then Err(DuplicateTarget)
    else if exists i | 0 <= i < |sections| :: !BodyOk(sections[i]) then Err(InvalidPatch)
    else Ok(sections)
  }

  /** The text without the line end that may follow the End marker, if it may be a patch at all. */
  function Unwrapped(patch: string): Result<string, PatchError> {
    if '\0' in patch then Err(UnsupportedContent)
    else if '\r' in ReplaceCrLf(patch, "") then Err(InvalidPatch)
    else
      var text := ReplaceCrLf(patch, "\n");
      if EndsWith(text, END) then Ok(text)
      else if EndsWith(text, END + "\n") then Ok(text[..|text| - 1])
      else Err(InvalidPatch)
  }

  function Parsed(patch: string): Result<seq<Section>, PatchError> {
    var text :- Unwrapped(patch);
    ParsedLines(Split(text, '\n'))
  }

  function ParsedLines(lines: seq<string>): Result<seq<Section>, PatchError>
    requires |lines| > 0
  {
    if lines[0] != BEGIN || lines[|lines| - 1] != END then Err(InvalidPatch)
    else
      Enclosed(lines);
      var sections :- Sections(lines[1..|lines| - 1], []);
      Checked(sections)
  }

  lemma Enclosed(lines: seq<string>)
    requires |lines| > 0 && lines[0] == BEGIN && lines[|lines| - 1] == END
    ensures |lines| > 1 && lines == [BEGIN] + lines[1..|lines| - 1] + [END]
  {
    assert BEGIN[4] != END[4];
  }

  /** The patch parser, in one pass over the lines. */
  method ParsePatch(patch: string) returns (r: Result<seq<Section>, PatchError>)
    ensures r == Parsed(patch)
  {
    var text :- Unwrap(patch);
    var lines := Split(text, '\n');
    if lines[0] != BEGIN || lines[|lines| - 1] != END {
      return Err(InvalidPatch);
    }
    Enclosed(lines);
    var inner := lines[1..|lines| - 1];
    var sections :- CutSections(inner);
    r := CheckSections(sections);
  }

  method CheckSections(sections: seq<Section>) returns (r: Result<seq<Section>, PatchError>)
    ensures r == Checked(sections)
  {
    if sections == [] {
      return Err(InvalidPatch);
    }
    if !DistinctTargets(sections) {
      return Err(DuplicateTarget);
    }
    for i := 0 to |sections|
      invariant forall k | 0 <= k < i :: BodyOk(sections[k])
    {
      var fine := CheckBody(sections[i]);
      if !fine {
        return Err(InvalidPatch);
      }
    }
    return Ok(sections);
  }

  method CheckBody(section: Section) returns (fine: bool)
    ensures fine == BodyOk(section)
  {
    match section.operation
    case AddFile =>
      var content := ParseAdd(section.body);
      fine := content.Ok?;
    case DeleteFile =>
      fine := section.body == [];
    case UpdateFile =>
      var hunks := ParseHunks(section.body);
      fine := hunks.Ok?;
  }

  method Unwrap(patch: string) returns (r: Result<string, PatchError>)
    ensures r == Unwrapped(patch)
  {
    if '\0' in patch {
      return Err(UnsupportedContent);
    }
    if '\r' in ReplaceCrLf(patch, "") {
      return Err(InvalidPatch);
    }
    var normalized := ReplaceCrLf(patch, "\n");
    if !(EndsWith(normalized, END) || EndsWith(normalized, END + "\n")) {
      return Err(InvalidPatch);
    }
    if EndsWith(normalized, END + "\n") {
      assert normalized[|normalized| - 1] == (END + "\n")[|END|];
      normalized := normalized[..|normalized| - 1];
    }
    return Ok(normalized);
  }

  /** One section further. */
  lemma SectionCut(lines: seq<string>, index: nat, next: nat, sections: seq<Section>)
    requires index < next <= |lines| && next - index - 1 == BodyLength(lines[index + 1..])
    ensures var operation := HeaderOf(lines[index]);
      Sections(lines[index..], sections) ==
        if operation.None? then Err(InvalidPatch)
        else
          var path := lines[index][|Prefix(operation.value)|..];
          if !ValidPath(path) then Err(InvalidPath)
          else Sections(lines[next..], sections + [Section(operation.value, path, lines[index + 1..next])])
  {
    Slices(lines, index, next);
  }

  lemma Slices(lines: seq<string>, index: nat, next: nat)
    requires index < next <= |lines|
    ensures lines[index..] != [] && lines[index..][0] == lines[index] && lines[index..][1..] == lines[index + 1..]
    ensures lines[index + 1..][..next - index - 1] == lines[index + 1..next]
    ensures lines[index..][1 + (next - index - 1)..] == lines[next..]
  {
  }

  /** The body of the section whose header is the line before `start`. */
  method CollectBody(lines: seq<string>, start: nat) returns (body: seq<string>, index: nat)
    requires start <= |lines|
    ensures start <= index <= |lines| && body == lines[start..index] && index - start == BodyLength(lines[start..])
  {
    body, index := [], start;
    while index < |lines| && HeaderOf(lines[index]).None?
      invariant start <= index <= |lines| && body == lines[start..index]
      invariant BodyLength(lines[start..]) == index - start + BodyLength(lines[index..])
    {
      assert lines[index..][1..] == lines[index + 1..];
      body := body + [lines[index]];
      index := index + 1;
    }
  }

  method CutSections(lines: seq<string>) returns (r: Result<seq<Section>, PatchError>)
    ensures r == Sections(lines, [])
  {
    var sections: seq<Section> := [];
    var index := 0;
    while index < |lines|
      invariant index <= |lines| && Sections(lines, []) == Sections(lines[index..], sections)
    {
      var header := lines[index];
      var operation := HeaderOf(header);
      var body, next := CollectBody(lines, index + 1);
      SectionCut(lines, index, next, sections);
      if operation.None? {
        return Err(InvalidPatch);
      }
      var path := header[|Prefix(operation.value)|..];
      if !ValidPath(path) {
        return Err(InvalidPath);
      }
      sections := sections + [Section(operation.value, path, body)];
      index := next;
    }
    assert lines[index..] == [];
    return Ok(sections);
  }

  // ---- Printing, and reading back what was printed.

  /** Added lines, then the rest of the body. */
  function PlusThen(parts: seq<string>, rest: seq<string>): seq<string> {
    if parts == [] then rest else ["+" + parts[0]] + PlusThen(parts[1..], rest)
  }

  /** The body that adds a file with the given content. */
  function AddBody(content: string): seq<string> {
    if content == "" then []
    else
      var parts := Split(content, '\n');
      if parts[|parts| - 1] == "" then PlusThen(parts[..|parts| - 1], []) else PlusThen(parts, [NO_NEWLINE])
  }

  function Unmarked(parts: seq<string>): (values: seq<AddedLine>)
    ensures |values| == |parts| && forall i | 0 <= i < |parts| :: values[i] == AddedLine(parts[i], false)
  {
    if parts == [] then [] else [AddedLine(parts[0], false)] + Unmarked(parts[1..])
  }

  lemma ReadOnePlus(part: string, rest: seq<string>, values: seq<AddedLine>)
    ensures ReadAdded(["+" + part] + rest, values) == ReadAdded(rest, values + [AddedLine(part, false)])
  {
    var line := "+" + part;
    var body := [line] + rest;
    assert body[0] == line && body[1..] == rest;
    assert line[0] != NO_NEWLINE[0] && line[..1] == "+" && line[1..] == part;
  }

  lemma {:induction false} ReadPlus(parts: seq<string>, rest: seq<string>, values: seq<AddedLine>)
    ensures ReadAdded(PlusThen(parts, rest), values) == ReadAdded(rest, values + Unmarked(parts))
  {
    if parts == [] {
      assert values + Unmarked(parts) == values;
    } else {
      ReadOnePlus(parts[0], PlusThen(parts[1..], rest), values);
      ReadPlus(parts[1..], rest, values + [AddedLine(parts[0], false)]);
      Regroup(values, Unmarked(parts));
    }
  }

  lemma {:induction false} UnmarkedContent(parts: seq<string>)
    requires parts != []
    ensures Content(Unmarked(parts)) == Join(parts, "\n") + "\n"
  {
    if |parts| > 1 {
      UnmarkedContent(parts[1..]);
    } else {
      assert Unmarked(parts) == [AddedLine(parts[0], false)];
      assert Content(Unmarked(parts)) == parts[0] + "\n" + Content([]);
    }
  }

  /** Marking the last line takes its line end away. */
  lemma {:induction false} MarkedContent(values: seq<AddedLine>)
    requires values != [] && !values[|values| - 1].noNewline
    ensures var last := |values| - 1;
      Content(values) == Content(values[last := values[last].(noNewline := true)]) + "\n"
  {
    var last := |values| - 1;
    var marked := values[last := values[last].(noNewline := true)];
    if last > 0 {
      var rest := values[1..];
      assert marked[0] == values[0] && marked[1..] == rest[last - 1 := rest[last - 1].(noNewline := true)];
      MarkedContent(rest);
      var first := values[0].text + (if values[0].noNewline then "" else "\n");
      assert first + (Content(marked[1..]) + "\n") == first + Content(marked[1..]) + "\n";
    } else {
      assert values[1..] == [] && marked[1..] == [];
      assert values[0].text + "\n" + "" == values[0].text + "" + "" + "\n";
    }
  }

  /** Every content, with or without a final line end, is read back from its body. */
  lemma AddRoundTrip(content: string)
    ensures Added(AddBody(content)) == Ok(content)
  {
    if content != "" {
      var parts := Split(content, '\n');
      JoinSplit(content, '\n');
      if parts[|parts| - 1] == "" {
        EndedRoundTrip(parts);
      } else {
        UnendedRoundTrip(parts);
      }
    }
  }

  lemma EndedRoundTrip(parts: seq<string>)
    requires |parts| > 0 && parts[|parts| - 1] == "" && Join(parts, "\n") != ""
    ensures Added(PlusThen(parts[..|parts| - 1], [])) == Ok(Join(parts, "\n"))
  {
    var lines := parts[..|parts| - 1];
    LastEmpty(parts);
    ReadPlus(lines, [], []);
    assert [] + Unmarked(lines) == Unmarked(lines);
    UnmarkedContent(lines);
  }

  lemma SameLine(a: string, b: string)
    requires a + "\n" == b + "\n"
    ensures a == b
  {
    assert (a + "\n")[..|a|] == a && (b + "\n")[..|b|] == b;
  }

  lemma UnendedRoundTrip(parts: seq<string>)
    requires |parts| > 0
    ensures Added(PlusThen(parts, [NO_NEWLINE])) == Ok(Join(parts, "\n"))
  {
    var values := Unmarked(parts);
    var last := |values| - 1;
    var marked := values[last := values[last].(noNewline := true)];
    ReadPlus(parts, [NO_NEWLINE], []);
    assert [] + values == values;
    assert ReadAdded([NO_NEWLINE], values) == ReadAdded([NO_NEWLINE][1..], marked);
    UnmarkedContent(parts);
    MarkedContent(values);
    SameLine(Content(marked), Join(parts, "\n"));
  }

  lemma {:induction false} LastEmpty(parts: seq<string>)
    requires |parts| > 0 && parts[|parts| - 1] == "" && Join(parts, "\n") != ""
    ensures |parts| > 1 && Join(parts, "\n") == Join(parts[..|parts| - 1], "\n") + "\n"
  {
    if |parts| == 2 {
      assert parts[1..] == [""] && parts[..1] == [parts[0]];
      assert Join(parts, "\n") == parts[0] + "\n" + "";
    } else if |parts| > 2 {
      var rest := parts[1..];
      assert rest[..|rest| - 1] == parts[..|parts| - 1][1..];
      assert Join(rest, "\n") == rest[0] + "\n" + Join(rest[1..], "\n");
      LastEmpty(rest);
      assert Join(parts[..|parts| - 1], "\n") == parts[0] + "\n" + Join(rest[..|rest| - 1], "\n");
    }
  }

  function MarkerThen(line: PatchLine, rest: seq<string>): seq<string> {
    if line.noNewline then [NO_NEWLINE] + rest else rest
  }

  /** The lines of a hunk, then the rest of the body. */
  function LinesThen(hunk: Hunk, rest: seq<string>): seq<string> {
    if hunk == [] then rest
    else [[Mark(hunk[0].kind)] + hunk[0].text] + MarkerThen(hunk[0], LinesThen(hunk[1..], rest))
  }

  function HunksThen(hunks: seq<Hunk>, rest: seq<string>): seq<string> {
    if hunks == [] then rest else ["@@"] + LinesThen(hunks[0], HunksThen(hunks[1..], rest))
  }

  /** The body of an update. */
  function HunkBody(hunks: seq<Hunk>): seq<string> {
    HunksThen(hunks, [])
  }

  lemma ReadHeader(rest: seq<string>, hunks: seq<Hunk>)
    ensures ReadHunks(["@@"] + rest, hunks) == ReadHunks(rest, hunks + [[]])
  {
    var body := ["@@"] + rest;
    assert body[0] == "@@" && body[1..] == rest;
    StripRightIs("@@", 2);
    assert "@@"[..2] == "@@";
  }

  lemma NotHeader(line: string)
    requires line != "" && line[0] != '@'
    ensures !IsHunkHeader(line)
  {
  }

  lemma ReadText(line: PatchLine, rest: seq<string>, hunks: seq<Hunk>, last: Hunk)
    ensures ReadHunks([[Mark(line.kind)] + line.text] + rest, hunks + [last])
         == ReadHunks(rest, hunks + [last + [line.(noNewline := false)]])
  {
    var text, prior := [Mark(line.kind)] + line.text, hunks + [last];
    var body := [text] + rest;
    assert body[0] == text && body[1..] == rest;
    NotHeader(text);
    assert text[0] != NO_NEWLINE[0] && text[1..] == line.text;
    assert prior[|hunks| := last + [line.(noNewline := false)]] == hunks + [last + [line.(noNewline := false)]];
  }

  lemma ReadMarker(line: PatchLine, rest: seq<string>, hunks: seq<Hunk>, last: Hunk)
    ensures ReadHunks(MarkerThen(line, rest), hunks + [last + [line.(noNewline := false)]])
         == ReadHunks(rest, hunks + [last + [line]])
  {
    if line.noNewline {
      var plain := last + [line.(noNewline := false)];
      var prior, body := hunks + [plain], [NO_NEWLINE] + rest;
      assert body[0] == NO_NEWLINE && body[1..] == rest;
      NotHeader(NO_NEWLINE);
      assert prior[|hunks|] == plain && MarkLast(plain) == last + [line];
      assert prior[|hunks| := last + [line]] == hunks + [last + [line]];
    } else {
      assert line.(noNewline := false) == line;
    }
  }

  lemma {:induction false} ReadLines(hunk: Hunk, rest: seq<string>, hunks: seq<Hunk>, last: Hunk)
    ensures ReadHunks(LinesThen(hunk, rest), hunks + [last]) == ReadHunks(rest, hunks + [last + hunk])
  {
    if hunk == [] {
      assert last + hunk == last;
    } else {
      var after := LinesThen(hunk[1..], rest);
      ReadText(hunk[0], MarkerThen(hunk[0], after), hunks, last);
      ReadMarker(hunk[0], after, hunks, last);
      ReadLines(hunk[1..], rest, hunks, last + [hunk[0]]);
      Regroup(last, hunk);
    }
  }

  lemma {:induction false} ReadPrintedHunks(hunks: seq<Hunk>, prior: seq<Hunk>)
    ensures ReadHunks(HunksThen(hunks, []), prior) == Some(prior + hunks)
  {
    if hunks == [] {
      assert prior + hunks == prior;
    } else {
      var after := HunksThen(hunks[1..], []);
      ReadHeader(LinesThen(hunks[0], after), prior);
      ReadLines(hunks[0], after, prior, []);
      assert [] + hunks[0] == hunks[0];
      ReadPrintedHunks(hunks[1..], prior + [hunks[0]]);
      Regroup(prior, hunks);
    }
  }

  /** Every list of non-empty hunks is read back from its body. */
  lemma HunksRoundTrip(hunks: seq<Hunk>)
    requires ProperHunks(hunks)
    ensures Hunks(HunkBody(hunks)) == Ok(hunks)
  {
    ReadPrintedHunks(hunks, []);
    assert [] + hunks == hunks;
  }

  // ---- The container.

  function SectionLines(sections: seq<Section>): seq<string> {
    if sections == [] then []
    else [Prefix(sections[0].operation) + sections[0].path] + sections[0].body + SectionLines(sections[1..])
  }

  function PatchLines(sections: seq<Section>): seq<string> {
    [BEGIN] + SectionLines(sections) + [END]
  }

  /** The text of a patch, with either line end, with or without one after the End marker. */
  function PatchText(sections: seq<Section>, newline: string, final: bool): string {
    Join(PatchLines(sections), newline) + (if final then newline else "")
  }

  /** A line a section body can hold. */
  predicate BodyLine(line: string) {
    PlainLine(line) && '\0' !in line && HeaderOf(line).None?
  }

  predicate Printable(section: Section) {
    ValidPath(section.path) && '\r' !in section.path && forall i | 0 <= i < |section.body| :: BodyLine(section.body[i])
  }

  lemma {:induction false} BodyEndsAtHeader(body: seq<string>, rest: seq<string>)
    requires forall i | 0 <= i < |body| :: HeaderOf(body[i]).None?
    requires rest == [] || HeaderOf(rest[0]).Some?
    ensures BodyLength(body + rest) == |body|
  {
    if body == [] {
      assert body + rest == rest;
    } else {
      assert (body + rest)[0] == body[0] && (body + rest)[1..] == body[1..] + rest;
      BodyEndsAtHeader(body[1..], rest);
    }
  }

  lemma CutOne(section: Section, rest: seq<string>, prior: seq<Section>)
    requires Printable(section) && (rest == [] || HeaderOf(rest[0]).Some?)
    ensures Sections([Prefix(section.operation) + section.path] + section.body + rest, prior)
         == Sections(rest, prior + [section])
  {
    var header := Prefix(section.operation) + section.path;
    var lines := [header] + section.body + rest;
    HeaderRoundTrip(section.operation, section.path);
    assert lines[0] == header && lines[1..] == section.body + rest;
    forall i | 0 <= i < |section.body| ensures HeaderOf(section.body[i]).None? {
      assert BodyLine(section.body[i]);
    }
    BodyEndsAtHeader(section.body, rest);
    assert (section.body + rest)[..|section.body|] == section.body;
    assert lines[1 + |section.body|..] == rest;
  }

  lemma {:induction false} CutPrinted(sections: seq<Section>, prior: seq<Section>)
    requires forall i | 0 <= i < |sections| :: Printable(sections[i])
    ensures Sections(SectionLines(sections), prior) == Ok(prior + sections)
  {
    if sections == [] {
      assert prior + sections == prior;
    } else {
      var rest := SectionLines(sections[1..]);
      if |sections| > 1 {
        HeaderRoundTrip(sections[1].operation, sections[1].path);
        assert rest[0] == Prefix(sections[1].operation) + sections[1].path;
      }
      CutOne(sections[0], rest, prior);
      CutPrinted(sections[1..], prior + [sections[0]]);
      Regroup(prior, sections);
    }
  }

  lemma {:induction false} PrintedLines(sections: seq<Section>)
    requires forall i | 0 <= i < |sections| :: Printable(sections[i])
    ensures forall i | 0 <= i < |SectionLines(sections)| ::
      PlainLine(SectionLines(sections)[i]) && '\0' !in SectionLines(sections)[i]
  {
    if sections != [] {
      var section := sections[0];
      PrintedLines(sections[1..]);
      var header := Prefix(section.operation) + section.path;
      assert PlainLine(header) && '\0' !in header;
      assert forall i | 0 <= i < |section.body| :: BodyLine(section.body[i]);
    }
  }

  lemma PatchLinesArePlain(sections: seq<Section>)
    requires forall i | 0 <= i < |sections| :: Printable(sections[i])
    ensures forall i | 0 <= i < |PatchLines(sections)| ::
      PlainLine(PatchLines(sections)[i]) && '\0' !in PatchLines(sections)[i]
  {
    PrintedLines(sections);
    var lines := PatchLines(sections);
    forall i | 0 <= i < |lines| ensures PlainLine(lines[i]) && '\0' !in lines[i] {
      if 0 < i < |lines| - 1 {
        assert lines[i] == SectionLines(sections)[i - 1];
      }
    }
  }

  lemma UnwrapPrinted(sections: seq<Section>, newline: string, final: bool)
    requires (newline == "\n" || newline == "\r\n") && forall i | 0 <= i < |sections| :: Printable(sections[i])
    ensures Unwrapped(PatchText(sections, newline, final)) == Ok(Join(PatchLines(sections), "\n"))
  {
    var lines, text := PatchLines(sections), PatchText(sections, newline, final);
    PatchLinesArePlain(sections);
    JoinAvoids(lines, newline, '\0');
    NormalizeJoined(lines, newline, final);
    JoinAvoids(lines, "\n", '\r');
    NoLoneReturn(text);
    JoinEnds(lines, "\n");
    Ended(Join(lines, "\n"));
    assert Join(lines, "\n") + "" == Join(lines, "\n");
  }

  lemma Ended(text: string)
    requires EndsWith(text, END)
    ensures !EndsWith(text + "\n", END) && EndsWith(text + "\n", END + "\n")
    ensures (text + "\n")[..|text + "\n"| - 1] == text
  {
    var longer := text + "\n";
    assert longer[|longer| - |END|..][|END| - 1] == '\n';
    assert longer[|longer| - |END + "\n"|..] == text[|text| - |END|..] + "\n";
  }

  lemma InnerLines(sections: seq<Section>)
    ensures var lines := PatchLines(sections);
      |lines| > 1 && lines[0] == BEGIN && lines[|lines| - 1] == END && lines[1..|lines| - 1] == SectionLines(sections)
  {
  }

  lemma CutLines(lines: seq<string>, inner: seq<string>, sections: seq<Section>)
    requires |lines| > 1 && lines[0] == BEGIN && lines[|lines| - 1] == END && lines[1..|lines| - 1] == inner
    requires Sections(inner, []) == Ok(sections)
    ensures ParsedLines(lines) == Checked(sections)
  {
  }

  lemma LinesRoundTrip(sections: seq<Section>)
    requires Checked(sections) == Ok(sections) && forall i | 0 <= i < |sections| :: Printable(sections[i])
    ensures ParsedLines(PatchLines(sections)) == Ok(sections)
  {
    InnerLines(sections);
    CutPrinted(sections, []);
    assert [] + sections == sections;
    CutLines(PatchLines(sections), SectionLines(sections), sections);
  }

  /** Parsing undoes printing: any sections with distinct valid paths and proper bodies come back. */
  lemma ParseUndoesPrint(sections: seq<Section>, newline: string, final: bool)
    requires (newline == "\n" || newline == "\r\n") && sections != [] && DistinctTargets(sections)
    requires forall i | 0 <= i < |sections| :: Printable(sections[i]) && BodyOk(sections[i])
    ensures Parsed(PatchText(sections, newline, final)) == Ok(sections)
  {
    UnwrapPrinted(sections, newline, final);
    PatchLinesArePlain(sections);
    SplitJoin(PatchLines(sections), '\n');
    LinesRoundTrip(sections);
  }

  lemma {:induction false} CutKeepsLines(lines: seq<string>, prior: seq<Section>) returns (added: seq<Section>)
    requires Sections(lines, prior).Ok?
    ensures Sections(lines, prior) == Ok(prior + added) && SectionLines(added) == lines
    decreases |lines|
  {
    if lines == [] {
      added := [];
      assert prior + added == prior;
    } else {
      var operation := HeaderOf(lines[0]).value;
      var path, n := lines[0][|Prefix(operation)|..], BodyLength(lines[1..]);
      var section := Section(operation, path, lines[1..][..n]);
      HeaderParts(lines[0]);
      var more := CutKeepsLines(lines[1 + n..], prior + [section]);
      added := [section] + more;
      Regroup(prior, added);
      Recombined(lines, n);
    }
  }

  lemma Recombined(lines: seq<string>, n: nat)
    requires 1 + n <= |lines|
    ensures [lines[0]] + lines[1..][..n] + lines[1 + n..] == lines
  {
  }

  lemma ParsedLinesKept(lines: seq<string>)
    requires |lines| > 0 && ParsedLines(lines).Ok?
    ensures PatchLines(ParsedLines(lines).value) == lines
  {
    Enclosed(lines);
    var sections := CutKeepsLines(lines[1..|lines| - 1], []);
    assert [] + sections == sections;
  }

  /** Printing undoes parsing: the sections, printed again, are the text itself up to its line ends. */
  lemma PrintUndoesParse(patch: string)
    requires Parsed(patch).Ok?
    ensures Unwrapped(patch) == Ok(PatchText(Parsed(patch).value, "\n", false))
  {
    var text := Unwrapped(patch).value;
    var lines := Split(text, '\n');
    JoinSplit(text, '\n');
    ParsedLinesKept(lines);
    assert Join(lines, "\n") + "" == Join(lines, "\n");
  }

  // ---- Changes as a caller means them.

  datatype Change =
    | AddChange(path: string, content: string)
    | UpdateChange(path: string, hunks: seq<Hunk>)
    | DeleteChange(path: string)

  function SectionOf(change: Change): Section {
    match change
    case AddChange(path, content) => Section(AddFile, path, AddBody(content))
    case UpdateChange(path, hunks) => Section(UpdateFile, path, HunkBody(hunks))
    case DeleteChange(path) => Section(DeleteFile, path, [])
  }

  predicate Clean(text: string) {
    '\r' !in text && '\0' !in text
  }

  predicate CleanLine(text: string) {
    Clean(text) && '\n' !in text
  }

  predicate CleanHunk(hunk: Hunk) {
    forall i | 0 <= i < |hunk| :: CleanLine(hunk[i].text)
  }

  predicate ProperChange(change: Change) {
    && ValidPath(change.path) && '\r' !in change.path
    && match change
       case AddChange(_, content) => Clean(content)
       case UpdateChange(_, hunks) => ProperHunks(hunks) && forall i | 0 <= i < |hunks| :: CleanHunk(hunks[i])
       case DeleteChange(_) => true
  }

  predicate BodyLines(body: seq<string>) {
    forall i | 0 <= i < |body| :: BodyLine(body[i])
  }

  lemma MarkedLine(mark: char, text: string)
    requires mark in " +-" && CleanLine(text)
    ensures BodyLine([mark] + text)
  {
    NoHeader([mark] + text);
  }

  lemma NoHeader(line: string)
    requires line != "" && line[0] != '*'
    ensures HeaderOf(line).None?
  {
    assert Prefix(AddFile)[0] == '*' && Prefix(UpdateFile)[0] == '*' && Prefix(DeleteFile)[0] == '*';
  }

  lemma FixedLines()
    ensures BodyLine(NO_NEWLINE) && BodyLine("@@")
  {
    NoHeader(NO_NEWLINE);
    NoHeader("@@");
  }

  lemma {:induction false} PlusLines(parts: seq<string>, rest: seq<string>)
    requires (forall i | 0 <= i < |parts| :: CleanLine(parts[i])) && BodyLines(rest)
    ensures BodyLines(PlusThen(parts, rest))
  {
    if parts != [] {
      PlusLines(parts[1..], rest);
      MarkedLine('+', parts[0]);
    }
  }

  lemma {:induction false} HunkLines(hunk: Hunk, rest: seq<string>)
    requires CleanHunk(hunk) && BodyLines(rest)
    ensures BodyLines(LinesThen(hunk, rest))
  {
    if hunk != [] {
      HunkLines(hunk[1..], rest);
      FixedLines();
      MarkedLine(Mark(hunk[0].kind), hunk[0].text);
    }
  }

  lemma {:induction false} AllHunkLines(hunks: seq<Hunk>)
    requires forall i | 0 <= i < |hunks| :: CleanHunk(hunks[i])
    ensures BodyLines(HunksThen(hunks, []))
  {
    if hunks != [] {
      AllHunkLines(hunks[1..]);
      HunkLines(hunks[0], HunksThen(hunks[1..], []));
      FixedLines();
    }
  }

  lemma {:induction false} CleanParts(s: string)
    requires Clean(s)
    ensures forall i | 0 <= i < |Split(s, '\n')| :: CleanLine(Split(s, '\n')[i])
    decreases |s|
  {
    var i := IndexOf(s, '\n');
    if i < |s| {
      CleanParts(s[i + 1..]);
    }
  }

  /** The section of a change can be printed, is accepted, and still says what the change says. */
  lemma SectionSaysChange(change: Change)
    requires ProperChange(change)
    ensures var section := SectionOf(change);
      && Printable(section) && BodyOk(section) && section.path == change.path
      && (change.AddChange? ==> Added(section.body) == Ok(change.content))
      && (change.UpdateChange? ==> Hunks(section.body) == Ok(change.hunks))
  {
    match change
    case AddChange(_, content) =>
      AddRoundTrip(content);
      if content != "" {
        var parts := Split(content, '\n');
        CleanParts(content);
        FixedLines();
        if parts[|parts| - 1] == "" {
          PlusLines(parts[..|parts| - 1], []);
        } else {
          PlusLines(parts, [NO_NEWLINE]);
        }
      }
    case UpdateChange(_, hunks) =>
      HunksRoundTrip(hunks);
      AllHunkLines(hunks);
    case DeleteChange(_) =>
  }

  function SectionsOf(changes: seq<Change>): seq<Section> {
    seq(|changes|, i requires 0 <= i < |changes| => SectionOf(changes[i]))
  }

  /** Any non-empty list of proper changes with distinct paths is understood as printed, whichever line ends
      the printer uses and whether or not it ends the text with one. */
  lemma PatchRoundTrip(changes: seq<Change>, newline: string, final: bool)
    requires (newline == "\n" || newline == "\r\n") && changes != []
    requires forall i | 0 <= i < |changes| :: ProperChange(changes[i])
    requires forall i, j | 0 <= i < j < |changes| :: changes[i].path != changes[j].path
    ensures Parsed(PatchText(SectionsOf(changes), newline, final)) == Ok(SectionsOf(changes))
    ensures forall i | 0 <= i < |changes| ::
      && (changes[i].AddChange? ==> Added(SectionsOf(changes)[i].body) == Ok(changes[i].content))
      && (changes[i].UpdateChange? ==> Hunks(SectionsOf(changes)[i].body) == Ok(changes[i].hunks))
  {
    forall i | 0 <= i < |changes|
      ensures Printable(SectionsOf(changes)[i]) && BodyOk(SectionsOf(changes)[i])
      ensures SectionsOf(changes)[i].path == changes[i].path
      ensures changes[i].AddChange? ==> Added(SectionsOf(changes)[i].body) == Ok(changes[i].content)
      ensures changes[i].UpdateChange? ==> Hunks(SectionsOf(changes)[i].body) == Ok(changes[i].hunks)
    {
      SectionSaysChange(changes[i]);
    }
    ParseUndoesPrint(SectionsOf(changes), newline, final);
  }
}

/** What a provider says in its chunks, taken apart into single signals, and what the signals as a whole amount to
    (roboagent/model/client.py:664-789). */
module ProviderSignals {
  import opened Basics
  import opened Messages
  import opened ExecutionFacts

  datatype FinishReason = Stop | ToolCalls | Length | ContentFilter | Other

  datatype RawUsage = RawUsage(input: Option<int>, output: Option<int>, total: Option<int>)

  datatype FunctionPart = FunctionPart(name: Option<string>, arguments: string)

  /** An empty `id` or `content` stands for an absent one. */
  datatype Fragment = Fragment(index: int, id: string, part: Option<FunctionPart>)

  datatype Choice = Choice(finish: Option<string>, reasoning: string, content: string, fragments: seq<Fragment>)

  datatype Chunk = Chunk(id: string, usage: Option<RawUsage>, choices: seq<Choice>)

  /** What the producer lives on: the JSON reader for argument objects, the identities it makes up, and whether
      reasoning text is kept. */
  datatype Means = Means(loads: string -> Option<seq<Member>>, mint: int -> string, keepReasoning: bool,
                         timestamp: real, messageId: string)
  {
    ghost predicate Valid() {
      forall i :: mint(i) != ""
    }
  }

  datatype PartialCall = PartialCall(id: string, name: string, arguments: string)

  function KnownCount(value: Option<int>): Option<Option<nat>> {
    if value.None? then Some(None) else if value.value >= 0 then Some(Some(value.value)) else None
  }

  /** Counts are non-negative or absent. */
  function KnownUsageOf(raw: RawUsage): Option<Usage> {
    var input, output, total := KnownCount(raw.input), KnownCount(raw.output), KnownCount(raw.total);
    if input.Some? && output.Some? && total.Some? then Some(Usage(input.value, output.value, total.value)) else None
  }

  function FinishOf(reason: string): FinishReason {
    if reason == "stop" then Stop
    else if reason == "tool_calls" || reason == "function_call" then ToolCalls
    else if reason == "length" then Length
    else if reason == "content_filter" then ContentFilter
    else Other
  }

  function OrEmpty(arguments: string): string {
    if arguments == "" then "{}" else arguments
  }

  // ---- Signals.

  datatype Signal =
    | Counted(raw: RawUsage)
    | Ended(reason: string)
    | Thought(text: string)
    | Said(text: string)
    | Called(fragment: Fragment)

  function FragmentSignals(fragments: seq<Fragment>): seq<Signal> {
    seq(|fragments|, i requires 0 <= i < |fragments| => Called(fragments[i]))
  }

  function FinishSignals(choice: Choice): seq<Signal> {
    if choice.finish.Some? then [Ended(choice.finish.value)] else []
  }

  function ThoughtSignals(choice: Choice): seq<Signal> {
    if choice.reasoning != "" then [Thought(choice.reasoning)] else []
  }

  function SaidSignals(choice: Choice): seq<Signal> {
    if choice.content != "" then [Said(choice.content)] else []
  }

  function ChoiceSignals(choice: Choice): seq<Signal> {
    FinishSignals(choice) + ThoughtSignals(choice) + SaidSignals(choice) + FragmentSignals(choice.fragments)
  }

  function ChoicesSignals(choices: seq<Choice>): seq<Signal> {
    if choices == [] then []
    else ChoicesSignals(choices[..|choices| - 1]) + ChoiceSignals(choices[|choices| - 1])
  }

  function UsageSignals(chunk: Chunk): seq<Signal> {
    if chunk.usage.Some? then [Counted(chunk.usage.value)] else []
  }

  function ChunkSignals(chunk: Chunk): seq<Signal> {
    UsageSignals(chunk) + ChoicesSignals(chunk.choices)
  }

  function Signals(chunks: seq<Chunk>): seq<Signal> {
    if chunks == [] then [] else Signals(chunks[..|chunks| - 1]) + ChunkSignals(chunks[|chunks| - 1])
  }

  // ---- What they amount to.

  /** The non-empty contents, in order. */
  function Texts(signals: seq<Signal>): seq<string> {
    if signals == [] then []
    else
      var last := signals[|signals| - 1];
      Texts(signals[..|signals| - 1]) + (if last.Said? then [last.text] else [])
  }

  function Thoughts(signals: seq<Signal>): seq<string> {
    if signals == [] then []
    else
      var last := signals[|signals| - 1];
      Thoughts(signals[..|signals| - 1]) + (if last.Thought? then [last.text] else [])
  }

  /** The counts reported last. */
  function LatestUsage(signals: seq<Signal>): Option<Usage> {
    if signals == [] then None
    else
      var last := signals[|signals| - 1];
      if last.Counted? then KnownUsageOf(last.raw) else LatestUsage(signals[..|signals| - 1])
  }

  function LatestFinish(signals: seq<Signal>): FinishReason {
    if signals == [] then Other
    else
      var last := signals[|signals| - 1];
      if last.Ended? then FinishOf(last.reason) else LatestFinish(signals[..|signals| - 1])
  }

  /** The fragment that begins call `index`. */
  function First(signals: seq<Signal>, index: int): Option<Fragment> {
    if signals == [] then None
    else
      var last, before := signals[|signals| - 1], First(signals[..|signals| - 1], index);
      if before.Some? then before
      else if last.Called? && last.fragment.index == index then Some(last.fragment) else None
  }

  function RawName(fragment: Fragment): Option<string> {
    if fragment.part.Some? then fragment.part.value.name else None
  }

  function NameIn(fragment: Fragment): string {
    if RawName(fragment).Some? then RawName(fragment).value else ""
  }

  function PieceIn(fragment: Fragment): string {
    if fragment.part.Some? then fragment.part.value.arguments else ""
  }

  /** The first name given for call `index`. */
  function NameFor(signals: seq<Signal>, index: int): string {
    if signals == [] then ""
    else
      var last, before := signals[|signals| - 1], NameFor(signals[..|signals| - 1], index);
      if before != "" then before
      else if last.Called? && last.fragment.index == index then NameIn(last.fragment) else ""
  }

  /** All argument pieces of call `index`. */
  function PiecesFor(signals: seq<Signal>, index: int): string {
    if signals == [] then ""
    else
      var last := signals[|signals| - 1];
      PiecesFor(signals[..|signals| - 1], index)
      + (if last.Called? && last.fragment.index == index then PieceIn(last.fragment) else "")
  }

  /** The identity a call gets from the fragment that begins it. */
  function Identity(means: Means, first: Fragment): string {
    if first.id != "" then first.id else means.mint(first.index)
  }

  function CallOf(signals: seq<Signal>, index: int, means: Means): PartialCall
    requires First(signals, index).Some?
  {
    PartialCall(Identity(means, First(signals, index).value), NameFor(signals, index), PiecesFor(signals, index))
  }

  /** Counts are valid; a call has a proper index and does not begin with an empty name; no identity and no name
      given for a call differs from the call's own. */
  predicate Fine(signal: Signal, signals: seq<Signal>, means: Means) {
    match signal
    case Counted(raw) => KnownUsageOf(raw).Some?
    case Called(fragment) =>
      && fragment.index >= 0
      && First(signals, fragment.index).Some?
      && RawName(First(signals, fragment.index).value) != Some("")
      && (fragment.id != "" ==> fragment.id == Identity(means, First(signals, fragment.index).value))
      && (NameIn(fragment) != "" ==> NameIn(fragment) == NameFor(signals, fragment.index))
    case _ => true
  }

  predicate Consistent(signals: seq<Signal>, means: Means) {
    forall signal | signal in signals :: Fine(signal, signals, means)
  }

  /** The producer finishes: no signal is faulty, every call can be completed under an identity of its own, and
      something was said or called. */
  ghost predicate Finishes(signals: seq<Signal>, means: Means) {
    && Consistent(signals, means)
    && (forall index | First(signals, index).Some? ::
          NameFor(signals, index) != "" && means.loads(OrEmpty(PiecesFor(signals, index))).Some?)
    && (forall i, j | First(signals, i).Some? && First(signals, j).Some? && i != j ::
          Identity(means, First(signals, i).value) != Identity(means, First(signals, j).value))
    && (Texts(signals) != [] || exists index :: First(signals, index).Some?)
  }

  // ---- One more signal.

  lemma OneMore(seen: seq<Signal>, signal: Signal)
    ensures Texts(seen + [signal]) == Texts(seen) + (if signal.Said? then [signal.text] else [])
    ensures Thoughts(seen + [signal]) == Thoughts(seen) + (if signal.Thought? then [signal.text] else [])
    ensures LatestUsage(seen + [signal]) == if signal.Counted? then KnownUsageOf(signal.raw) else LatestUsage(seen)
    ensures LatestFinish(seen + [signal]) == if signal.Ended? then FinishOf(signal.reason) else LatestFinish(seen)
  {
    assert (seen + [signal])[..|seen|] == seen;
  }

  lemma OneMoreFor(seen: seq<Signal>, signal: Signal, index: int)
    ensures First(seen + [signal], index) ==
      if First(seen, index).Some? then First(seen, index)
      else if signal.Called? && signal.fragment.index == index then Some(signal.fragment) else None
    ensures NameFor(seen + [signal], index) ==
      if NameFor(seen, index) != "" then NameFor(seen, index)
      else if signal.Called? && signal.fragment.index == index then NameIn(signal.fragment) else ""
    ensures PiecesFor(seen + [signal], index) ==
      PiecesFor(seen, index)
      + (if signal.Called? && signal.fragment.index == index then PieceIn(signal.fragment) else "")
  {
    assert (seen + [signal])[..|seen|] == seen;
  }

  /** A fragment that was seen has begun its call, and its name has given the call one. */
  lemma {:induction false} SeenBegins(signals: seq<Signal>, fragment: Fragment)
    requires Called(fragment) in signals
    ensures First(signals, fragment.index).Some? && First(signals, fragment.index).value.index == fragment.index
    ensures NameIn(fragment) != "" ==> NameFor(signals, fragment.index) != ""
  {
    var before, last := signals[..|signals| - 1], signals[|signals| - 1];
    FirstHasIndex(signals, fragment.index);
    if Called(fragment) in before {
      SeenBegins(before, fragment);
    } else {
      assert last == Called(fragment);
    }
  }

  lemma {:induction false} FirstHasIndex(signals: seq<Signal>, index: int)
    ensures First(signals, index).Some? ==> First(signals, index).value.index == index
  {
    if signals != [] {
      FirstHasIndex(signals[..|signals| - 1], index);
    }
  }

  /** What the producer checks when a signal arrives. */
  predicate Admitted(seen: seq<Signal>, signal: Signal, means: Means) {
    match signal
    case Counted(raw) => KnownUsageOf(raw).Some?
    case Called(fragment) =>
      var first, name := First(seen, fragment.index), NameFor(seen, fragment.index);
      && (first.None? ==> fragment.index >= 0 && RawName(fragment) != Some(""))
      && (first.Some? && fragment.id != "" ==> fragment.id == Identity(means, first.value))
      && (NameIn(fragment) != "" && name != "" ==> NameIn(fragment) == name)
    case _ => true
  }

  lemma StaysFine(seen: seq<Signal>, signal: Signal, earlier: Signal, means: Means)
    requires earlier in seen
    ensures Fine(earlier, seen + [signal], means) <==> Fine(earlier, seen, means)
  {
    if earlier.Called? {
      SeenBegins(seen, earlier.fragment);
      OneMoreFor(seen, signal, earlier.fragment.index);
    }
  }

  lemma NewIsFine(seen: seq<Signal>, signal: Signal, means: Means)
    requires Consistent(seen, means)
    ensures Fine(signal, seen + [signal], means) <==> Admitted(seen, signal, means)
  {
    if signal.Called? {
      OneMoreFor(seen, signal, signal.fragment.index);
      FirstIsFine(seen, signal.fragment.index, means);
    }
  }

  lemma {:induction false} FirstWasSeen(signals: seq<Signal>, index: int)
    requires First(signals, index).Some?
    ensures Called(First(signals, index).value) in signals && First(signals, index).value.index == index
  {
    var before := signals[..|signals| - 1];
    if First(before, index).Some? {
      FirstWasSeen(before, index);
    } else {
      assert signals[|signals| - 1] in signals;
    }
  }

  lemma FirstIsFine(signals: seq<Signal>, index: int, means: Means)
    requires Consistent(signals, means)
    ensures First(signals, index).Some? ==> index >= 0 && RawName(First(signals, index).value) != Some("")
  {
    if First(signals, index).Some? {
      FirstWasSeen(signals, index);
      assert Fine(Called(First(signals, index).value), signals, means);
    }
  }

  /** The signals are consistent as a whole exactly when each is admitted after those before it. */
  lemma ConsistentSnoc(seen: seq<Signal>, signal: Signal, means: Means)
    ensures Consistent(seen + [signal], means) <==> Consistent(seen, means) && Admitted(seen, signal, means)
  {
    var more := seen + [signal];
    forall other | other in seen ensures other in more && (Fine(other, more, means) <==> Fine(other, seen, means)) {
      StaysFine(seen, signal, other, means);
    }
    if Consistent(seen, means) {
      NewIsFine(seen, signal, means);
      assert signal in more;
    } else {
      var other :| other in seen && !Fine(other, seen, means);
      assert other in more && !Fine(other, more, means);
    }
  }

  lemma {:induction false} ConsistentPrefix(prefix: seq<Signal>, signals: seq<Signal>, means: Means)
    requires prefix <= signals && Consistent(signals, means)
    ensures Consistent(prefix, means)
    decreases |signals|
  {
    if prefix != signals {
      var before, last := signals[..|signals| - 1], signals[|signals| - 1];
      assert signals == before + [last];
      ConsistentSnoc(before, last, means);
      ConsistentPrefix(prefix, before, means);
    }
  }
}

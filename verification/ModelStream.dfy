/** Streaming a model response: the producer that turns provider chunks into events, and the consumer that
    validates and collects them (roboagent/model/client.py:371-525, 664-779). */
module ModelStream {
  import opened Basics
  import opened Messages
  import opened ExecutionFacts
  import opened ProviderSignals

  // ---- Events.

  /** The assistant message of a response. */
  datatype Reply = Reply(content: seq<Content>, toolCalls: seq<ToolCall>, reasoning: Option<string>, timestamp: real,
                         messageId: string)

  datatype Response = Response(message: Reply, finish: FinishReason, usage: Option<Usage>)

  datatype ModelEvent =
    | ResponseStarted(sequence: int, responseId: string)
    | TextDelta(sequence: int, text: string)
    | ToolCallStarted(sequence: int, index: int, callId: string, name: Option<string>)
    | ToolCallArgumentsDelta(sequence: int, index: int, callId: string, delta: string)
    | ToolCallCompleted(sequence: int, index: int, call: ToolCall)
    | UsageUpdated(sequence: int, usage: Usage)
    | ResponseCompleted(sequence: int, response: Response)

  datatype StreamError =
    | InvalidStreamSequence | DuplicateResponseStarted | DuplicateToolCallStarted | DuplicateToolCallId
    | InvalidDeltaState | DuplicateToolCallCompleted | IncompleteToolCall | CallsDiffer | UsageDiffers
    | MissingTerminalResponse | UnsupportedOutput | ToolsUnsupported | ParallelCallsUnsupported
    | InvalidArguments | EmptyResponse | ProviderError

  // ---- The consumer.

  datatype CallState = CallState(id: string, name: Option<string>, done: bool)

  datatype Collector = Collector(expected: nat, started: bool, completed: Option<Response>, calls: map<int, ToolCall>,
                                 states: map<int, CallState>, callIds: set<string>, usage: Option<Usage>)

  const EMPTY := Collector(0, false, None, map[], map[], {}, None)

  /** The calls in the order of their indices. */
  function InOrder(calls: map<int, ToolCall>, order: seq<int>): seq<ToolCall>
    requires forall i | 0 <= i < |order| :: order[i] in calls
  {
    if order == [] then [] else [calls[order[0]]] + InOrder(calls, order[1..])
  }

  predicate AllDone(states: map<int, CallState>) {
    forall i | i in states :: states[i].done
  }

  function StartCall(c: Collector, event: ModelEvent): Result<Collector, StreamError>
    requires event.ToolCallStarted?
  {
    if event.index in c.states then Err(DuplicateToolCallStarted)
    else if event.callId in c.callIds then Err(DuplicateToolCallId)
    else Ok(c.(states := c.states[event.index := CallState(event.callId, event.name, false)],
               callIds := c.callIds + {event.callId}))
  }

  function CompleteCall(c: Collector, event: ModelEvent): Result<Collector, StreamError>
    requires event.ToolCallCompleted?
  {
    if event.index !in c.states then Err(InvalidDeltaState)
    else
      var state := c.states[event.index];
      if state.done || event.index in c.calls then Err(DuplicateToolCallCompleted)
      else if state.id != event.call.id || (state.name.Some? && state.name.value != event.call.name) then
        Err(InvalidDeltaState)
      else Ok(c.(states := c.states[event.index := state.(done := true)], calls := c.calls[event.index := event.call]))
  }

  function CompleteResponse(c: Collector, response: Response): Result<Collector, StreamError> {
    if !AllDone(c.states) then Err(IncompleteToolCall)
    else if response.message.toolCalls != InOrder(c.calls, Sorted(c.calls.Keys)) then Err(CallsDiffer)
    else if c.usage.Some? && response.usage != c.usage then Err(UsageDiffers)
    else Ok(c.(completed := Some(response)))
  }

  /** What the consumer makes of one event. */
  function Step(c: Collector, event: ModelEvent): Result<Collector, StreamError> {
    if event.sequence != c.expected then Err(InvalidStreamSequence)
    else
      var c := c.(expected := c.expected + 1);
      if c.completed.Some? then Err(InvalidStreamSequence)
      else if event.ResponseStarted? then
        if c.started then Err(DuplicateResponseStarted)
        else if event.sequence != 0 then Err(InvalidStreamSequence)
        else Ok(c.(started := true))
      else if !c.started then Err(InvalidStreamSequence)
      else match event
        case ToolCallStarted(_, _, _, _) => StartCall(c, event)
        case ToolCallArgumentsDelta(_, index, callId, _) =>
          if index !in c.states || c.states[index].done || c.states[index].id != callId then Err(InvalidDeltaState)
          else Ok(c)
        case ToolCallCompleted(_, _, _) => CompleteCall(c, event)
        case UsageUpdated(_, usage) => Ok(c.(usage := Some(usage)))
        case ResponseCompleted(_, response) => CompleteResponse(c, response)
        case _ => Ok(c)
  }

  function Fold(events: seq<ModelEvent>): Result<Collector, StreamError> {
    if events == [] then Ok(EMPTY)
    else
      var c :- Fold(events[..|events| - 1]);
      Step(c, events[|events| - 1])
  }

  lemma FoldSnoc(events: seq<ModelEvent>, event: ModelEvent)
    ensures Fold(events).Ok? ==> Fold(events + [event]) == Step(Fold(events).value, event)
    ensures Fold(events).Err? ==> Fold(events + [event]) == Fold(events)
  {
    assert (events + [event])[..|events|] == events;
  }

  datatype Modality = TextModality | ImageModality | AudioModality | FileModality

  function ModalityOf(content: Content): Modality {
    match content
    case TextContent(_) => TextModality
    case JsonContent(_) => TextModality
    case ArtifactContent(_, _, _, _, _) => FileModality
    case MediaContent(kind, _, _, _) =>
      match kind case Image => ImageModality case Audio => AudioModality case File => FileModality
  }

  datatype Capabilities = Capabilities(outputs: set<Modality>, toolCalling: bool, parallelToolCalls: bool)

  /** The last checks, and the adoption of the identity the caller chose beforehand. */
  function Conclude(c: Collector, capabilities: Capabilities, messageId: Option<string>)
    : Result<Response, StreamError>
  {
    if !c.started || c.completed.None? then Err(MissingTerminalResponse)
    else if !AllDone(c.states) then Err(IncompleteToolCall)
    else
      var message := c.completed.value.message;
      if exists i | 0 <= i < |message.content| :: ModalityOf(message.content[i]) !in capabilities.outputs
      then Err(UnsupportedOutput)
      else if message.toolCalls != [] && !capabilities.toolCalling then Err(ToolsUnsupported)
      else if !capabilities.parallelToolCalls && |message.toolCalls| > 1 then Err(ParallelCallsUnsupported)
      else if messageId.Some? then
        Ok(c.completed.value.(message := message.(messageId := messageId.value)))
      else Ok(c.completed.value)
  }

  /** The consumer: it reads the events one by one; the stream may end by raising an error of its own. */
  method CollectModelStream(events: seq<ModelEvent>, raised: Option<StreamError>, capabilities: Capabilities,
                            messageId: Option<string>) returns (r: Result<Response, StreamError>)
    ensures Fold(events).Err? ==> r == Err(Fold(events).error)
    ensures Fold(events).Ok? && raised.Some? ==> r == Err(raised.value)
    ensures Fold(events).Ok? && raised.None? ==> r == Conclude(Fold(events).value, capabilities, messageId)
  {
    var c := EMPTY;
    for i := 0 to |events|
      invariant Fold(events[..i]) == Ok(c)
    {
      assert events[..i + 1] == events[..i] + [events[i]];
      FoldSnoc(events[..i], events[i]);
      var next := Observe(c, events[i]);
      if next.Err? {
        FailsForGood(events, i + 1);
        return Err(next.error);
      }
      c := next.value;
    }
    assert events[..|events|] == events;
    if raised.Some? {
      return Err(raised.value);
    }
    return Conclude(c, capabilities, messageId);
  }

  lemma {:induction false} FailsForGood(events: seq<ModelEvent>, k: nat)
    requires k <= |events| && Fold(events[..k]).Err?
    ensures Fold(events) == Fold(events[..k])
  {
    if k == |events| {
      assert events[..k] == events;
    } else {
      var before := events[..|events| - 1];
      assert before[..k] == events[..k];
      FailsForGood(before, k);
      FoldSnoc(before, events[|events| - 1]);
      assert events == before + [events[|events| - 1]];
    }
  }

  /** One round of the consumer's loop. */
  method Observe(before: Collector, event: ModelEvent) returns (r: Result<Collector, StreamError>)
    ensures r == Step(before, event)
  {
    var c := before;
    if event.sequence != c.expected {
      return Err(InvalidStreamSequence);
    }
    c := c.(expected := c.expected + 1);
    if c.completed.Some? {
      return Err(InvalidStreamSequence);
    }
    match event {
      case ResponseStarted(sequence, _) =>
        if c.started {
          return Err(DuplicateResponseStarted);
        }
        if sequence != 0 {
          return Err(InvalidStreamSequence);
        }
        return Ok(c.(started := true));
      case _ =>
        if !c.started {
          return Err(InvalidStreamSequence);
        }
    }
    match event
    case ToolCallStarted(_, index, callId, name) =>
      r := StartCall(c, event);
    case ToolCallArgumentsDelta(_, index, callId, _) =>
      if index !in c.states || c.states[index].done || c.states[index].id != callId {
        return Err(InvalidDeltaState);
      }
      return Ok(c);
    case ToolCallCompleted(_, index, call) =>
      r := CompleteCall(c, event);
    case UsageUpdated(_, usage) =>
      return Ok(c.(usage := Some(usage)));
    case ResponseCompleted(_, response) =>
      r := CompleteResponse(c, response);
    case _ =>
      return Ok(c);
  }

  // ---- The producer.

  /** The producer between two events; `events` is what it has yielded. */
  datatype Production = Production(events: seq<ModelEvent>, sequence: nat, text: seq<string>, reasoning: seq<string>,
                                   calls: map<int, PartialCall>, finish: FinishReason, usage: Option<Usage>)

  // ---- What the consumer holds while the producer is at work.

  ghost predicate DistinctIds(calls: map<int, PartialCall>) {
    forall i, j | i in calls && j in calls && i != j :: calls[i].id != calls[j].id
  }

  /** The consumer's record of a call agrees with the producer's. */
  ghost predicate SameCall(state: CallState, call: PartialCall) {
    state.id == call.id && !state.done && (state.name.Some? ==> call.name != "" && state.name.value == call.name)
  }

  ghost predicate Agrees(c: Collector, p: Production) {
    && c.expected == p.sequence && c.started && c.completed.None? && c.calls == map[] && c.usage == p.usage
    && c.states.Keys == p.calls.Keys && (forall i | i in p.calls :: SameCall(c.states[i], p.calls[i]))
    && (forall i | i in p.calls :: p.calls[i].id in c.callIds)
    && (forall id | id in c.callIds :: exists i :: i in p.calls && p.calls[i].id == id)
  }

  /** The text the deltas carry. */
  function DeltaText(events: seq<ModelEvent>): string {
    if events == [] then ""
    else
      var last := events[|events| - 1];
      DeltaText(events[..|events| - 1]) + (if last.TextDelta? then last.text else "")
  }

  /** The raw arguments the deltas of one call carry. */
  function DeltaArguments(events: seq<ModelEvent>, index: int): string {
    if events == [] then ""
    else
      var last := events[|events| - 1];
      DeltaArguments(events[..|events| - 1], index)
      + (if last.ToolCallArgumentsDelta? && last.index == index then last.delta else "")
  }

  lemma DeltasSnoc(events: seq<ModelEvent>, event: ModelEvent, index: int)
    ensures DeltaText(events + [event]) == DeltaText(events) + (if event.TextDelta? then event.text else "")
    ensures DeltaArguments(events + [event], index) ==
      DeltaArguments(events, index)
      + (if event.ToolCallArgumentsDelta? && event.index == index then event.delta else "")
  {
    assert (events + [event])[..|events|] == events;
  }

  function ArgumentsOf(calls: map<int, PartialCall>, index: int): string {
    if index in calls then calls[index].arguments else ""
  }

  /** As long as the calls have distinct identities the consumer is content with everything so far. */
  ghost predicate Followed(p: Production) {
    DistinctIds(p.calls) ==> Fold(p.events).Ok? && Agrees(Fold(p.events).value, p)
  }

  /** What was yielded adds up to what the producer holds. */
  ghost predicate Accounted(p: Production) {
    && |p.events| == p.sequence && DeltaText(p.events) == Flatten(p.text)
    && (forall index :: DeltaArguments(p.events, index) == ArgumentsOf(p.calls, index))
    && (forall i | i in p.calls :: i >= 0 && p.calls[i].id != "")
    && (forall k | 0 <= k < |p.text| :: p.text[k] != "")
  }

  ghost predicate InStep(p: Production) {
    Followed(p) && Accounted(p)
  }

  function Yield(p: Production, event: ModelEvent): Production {
    p.(events := p.events + [event], sequence := p.sequence + 1)
  }

  /** Two calls that share an identity go on sharing it. */
  lemma StaysIndistinct(before: map<int, PartialCall>, after: map<int, PartialCall>)
    requires forall i | i in before :: i in after && after[i].id == before[i].id
    ensures DistinctIds(after) ==> DistinctIds(before)
  {
  }

  /** An event that is no argument delta leaves the arguments as they are. */
  lemma AccountedYield(p: Production, later: Production, event: ModelEvent)
    requires Accounted(p) && later.events == p.events + [event] && later.sequence == p.sequence + 1
    requires !event.ToolCallArgumentsDelta?
    requires forall i :: ArgumentsOf(later.calls, i) == ArgumentsOf(p.calls, i)
    requires forall i | i in later.calls :: i >= 0 && later.calls[i].id != ""
    requires later.text == if event.TextDelta? then p.text + [event.text] else p.text
    requires event.TextDelta? ==> event.text != ""
    ensures Accounted(later)
  {
    forall index ensures DeltaArguments(later.events, index) == ArgumentsOf(later.calls, index) {
      DeltasSnoc(p.events, event, index);
      assert DeltaArguments(p.events, index) + "" == DeltaArguments(p.events, index);
    }
    DeltasSnoc(p.events, event, 0);
    if event.TextDelta? {
      FlattenSnoc(p.text, event.text);
    } else {
      assert DeltaText(p.events) + "" == DeltaText(p.events);
    }
  }

  method OnUsage(p: Production, raw: RawUsage) returns (r: Result<Production, StreamError>)
    requires InStep(p)
    ensures r.Ok? <==> KnownUsageOf(raw).Some?
    ensures r.Ok? ==> InStep(r.value)
    ensures r.Ok? ==>
      r.value == Yield(p.(usage := KnownUsageOf(raw)), UsageUpdated(p.sequence, KnownUsageOf(raw).value))
  {
    var usage := KnownUsageOf(raw);
    if usage.None? {
      return Err(ProviderError);
    }
    var event := UsageUpdated(p.sequence, usage.value);
    FoldSnoc(p.events, event);
    var after := Yield(p.(usage := usage), event);
    AccountedYield(p, after, event);
    return Ok(after);
  }

  method OnText(p: Production, content: string) returns (after: Production)
    requires InStep(p) && content != ""
    ensures InStep(after) && after == Yield(p.(text := p.text + [content]), TextDelta(p.sequence, content))
  {
    var event := TextDelta(p.sequence, content);
    FoldSnoc(p.events, event);
    after := Yield(p.(text := p.text + [content]), event);
    AccountedYield(p, after, event);
  }

  /** The first fragment of a call. */
  method BeginCall(p: Production, means: Means, fragment: Fragment) returns (r: Result<Production, StreamError>)
    requires InStep(p) && means.Valid() && fragment.index !in p.calls
    ensures r.Ok? <==> fragment.index >= 0 && RawName(fragment) != Some("")
    ensures r.Ok? ==> InStep(r.value)
    ensures r.Ok? ==>
      var call := PartialCall(Identity(means, fragment), NameIn(fragment), "");
      var event := ToolCallStarted(p.sequence, fragment.index, call.id, RawName(fragment));
      r.value == Yield(p.(calls := p.calls[fragment.index := call]), event)
  {
    var callId := if fragment.id != "" then fragment.id else means.mint(fragment.index);
    var name := if fragment.part.Some? then fragment.part.value.name else None;
    if fragment.index < 0 || name == Some("") {
      return Err(ProviderError);
    }
    var call := PartialCall(callId, if name.Some? then name.value else "", "");
    var event := ToolCallStarted(p.sequence, fragment.index, callId, name);
    var after := Yield(p.(calls := p.calls[fragment.index := call]), event);
    FollowedBegin(p, after, fragment.index, call, event);
    AccountedYield(p, after, event);
    return Ok(after);
  }

  lemma FollowedBegin(p: Production, after: Production, index: int, call: PartialCall, event: ModelEvent)
    requires Followed(p) && index !in p.calls
    requires event.ToolCallStarted? && event.sequence == p.sequence && event.index == index && event.callId == call.id
    requires event.name.Some? ==> event.name.value != "" && call.name == event.name.value
    requires after == Yield(p.(calls := p.calls[index := call]), event)
    ensures Followed(after)
  {
    if DistinctIds(after.calls) {
      forall i, j | i in p.calls && j in p.calls && i != j ensures p.calls[i].id != p.calls[j].id {
        assert after.calls[i].id != after.calls[j].id;
      }
      FoldSnoc(p.events, event);
      var c := Fold(p.events).value;
      forall id | id in c.callIds ensures id != call.id {
        var i :| i in p.calls && p.calls[i].id == id;
        assert after.calls[i].id != after.calls[index].id;
      }
      AgreesBegin(c, p, after, index, call, event);
    }
  }

  lemma AgreesBegin(c: Collector, p: Production, after: Production, index: int, call: PartialCall, event: ModelEvent)
    requires Agrees(c, p) && index !in p.calls && call.id !in c.callIds
    requires event.ToolCallStarted? && event.sequence == p.sequence && event.index == index && event.callId == call.id
    requires event.name.Some? ==> event.name.value != "" && call.name == event.name.value
    requires after == Yield(p.(calls := p.calls[index := call]), event)
    ensures Step(c, event).Ok? && Agrees(Step(c, event).value, after)
  {
    var d := Step(c, event).value;
    forall id | id in d.callIds ensures exists i :: i in after.calls && after.calls[i].id == id {
      if id == call.id {
        assert index in after.calls && after.calls[index].id == id;
      } else {
        var i :| i in p.calls && p.calls[i].id == id;
        assert i in after.calls && after.calls[i].id == id;
      }
    }
  }

  /** A later fragment may give the name a call still lacks. */
  method NameCall(p: Production, index: int, name: string) returns (r: Result<Production, StreamError>)
    requires InStep(p) && index in p.calls && name != ""
    ensures r.Ok? <==> p.calls[index].name == "" || p.calls[index].name == name
    ensures r.Ok? ==> InStep(r.value) && r.value == p.(calls := p.calls[index := p.calls[index].(name := name)])
  {
    var call := p.calls[index];
    if call.name != "" && call.name != name {
      return Err(InvalidDeltaState);
    }
    var after := p.(calls := p.calls[index := call.(name := name)]);
    StaysIndistinct(p.calls, after.calls);
    if DistinctIds(after.calls) {
      var c := Fold(p.events).value;
      forall id | id in c.callIds ensures exists i :: i in after.calls && after.calls[i].id == id {
        var i :| i in p.calls && p.calls[i].id == id;
        assert i in after.calls && after.calls[i].id == id;
      }
    }
    return Ok(after);
  }

  /** A piece of the arguments. */
  method AddPiece(p: Production, index: int, piece: string) returns (after: Production)
    requires InStep(p) && index in p.calls
    ensures InStep(after)
    ensures var call := p.calls[index];
      after == Yield(p.(calls := p.calls[index := call.(arguments := call.arguments + piece)]),
                     ToolCallArgumentsDelta(p.sequence, index, call.id, piece))
  {
    var call := p.calls[index];
    var event := ToolCallArgumentsDelta(p.sequence, index, call.id, piece);
    after := Yield(p.(calls := p.calls[index := call.(arguments := call.arguments + piece)]), event);
    FollowedPiece(p, after, index, event);
    AccountedPiece(p, after, index, event);
  }

  lemma FollowedPiece(p: Production, after: Production, index: int, event: ModelEvent)
    requires Followed(p) && index in p.calls
    requires event.ToolCallArgumentsDelta? && event.sequence == p.sequence
    requires event.index == index && event.callId == p.calls[index].id
    requires after == Yield(p.(calls := p.calls[index :=
                              p.calls[index].(arguments := p.calls[index].arguments + event.delta)]), event)
    ensures Followed(after)
  {
    StaysIndistinct(p.calls, after.calls);
    if DistinctIds(after.calls) {
      FoldSnoc(p.events, event);
      var c := Fold(p.events).value;
      assert SameCall(c.states[index], p.calls[index]);
      forall id | id in c.callIds ensures exists i :: i in after.calls && after.calls[i].id == id {
        var i :| i in p.calls && p.calls[i].id == id;
        assert i in after.calls && after.calls[i].id == id;
      }
    }
  }

  lemma AccountedPiece(p: Production, after: Production, index: int, event: ModelEvent)
    requires Accounted(p) && index in p.calls && event.ToolCallArgumentsDelta? && event.index == index
    requires after == Yield(p.(calls := p.calls[index :=
                              p.calls[index].(arguments := p.calls[index].arguments + event.delta)]), event)
    ensures Accounted(after)
  {
    forall i ensures DeltaArguments(after.events, i) == ArgumentsOf(after.calls, i) {
      DeltasSnoc(p.events, event, i);
      assert DeltaArguments(p.events, i) + "" == DeltaArguments(p.events, i);
    }
    DeltasSnoc(p.events, event, 0);
    assert DeltaText(p.events) + "" == DeltaText(p.events);
  }

  // ---- What the provider has said so far.

  ghost predicate CallsTracked(calls: map<int, PartialCall>, seen: seq<Signal>, means: Means) {
    forall index :: (index in calls <==> First(seen, index).Some?)
      && (index in calls ==> calls[index] == CallOf(seen, index, means))
  }

  /** The producer holds exactly what the signals so far amount to. */
  ghost predicate Tracks(p: Production, seen: seq<Signal>, means: Means) {
    && Consistent(seen, means) && p.text == Texts(seen)
    && p.reasoning == (if means.keepReasoning then Thoughts(seen) else [])
    && p.usage == LatestUsage(seen) && p.finish == LatestFinish(seen) && CallsTracked(p.calls, seen, means)
  }

  /** A signal that is no fragment. */
  lemma TracksSignal(p: Production, seen: seq<Signal>, means: Means, signal: Signal, after: Production)
    requires Tracks(p, seen, means) && !signal.Called? && Admitted(seen, signal, means) && after.calls == p.calls
    requires after.text == p.text + (if signal.Said? then [signal.text] else [])
    requires after.reasoning == p.reasoning + (if signal.Thought? && means.keepReasoning then [signal.text] else [])
    requires after.usage == if signal.Counted? then KnownUsageOf(signal.raw) else p.usage
    requires after.finish == if signal.Ended? then FinishOf(signal.reason) else p.finish
    ensures Tracks(after, seen + [signal], means)
  {
    OneMore(seen, signal);
    ConsistentSnoc(seen, signal, means);
    forall index
      ensures index in after.calls <==> First(seen + [signal], index).Some?
      ensures index in after.calls ==> after.calls[index] == CallOf(seen + [signal], index, means)
    {
      OneMoreFor(seen, signal, index);
      assert PiecesFor(seen, index) + "" == PiecesFor(seen, index);
    }
  }

  /** What a fragment adds to its call. */
  function Extended(call: PartialCall, fragment: Fragment): PartialCall {
    PartialCall(call.id, if call.name != "" then call.name else NameIn(fragment), call.arguments + PieceIn(fragment))
  }

  function Grown(calls: map<int, PartialCall>, fragment: Fragment, means: Means): PartialCall {
    Extended(if fragment.index in calls then calls[fragment.index]
             else PartialCall(Identity(means, fragment), NameIn(fragment), ""), fragment)
  }

  lemma TracksFragment(p: Production, seen: seq<Signal>, means: Means, fragment: Fragment, after: Production)
    requires Tracks(p, seen, means) && Admitted(seen, Called(fragment), means)
    requires after.calls == p.calls[fragment.index := Grown(p.calls, fragment, means)]
    requires after.text == p.text && after.reasoning == p.reasoning
    requires after.usage == p.usage && after.finish == p.finish
    ensures Tracks(after, seen + [Called(fragment)], means)
  {
    var signal := Called(fragment);
    OneMore(seen, signal);
    ConsistentSnoc(seen, signal, means);
    forall index
      ensures index in after.calls <==> First(seen + [signal], index).Some?
      ensures index in after.calls ==> after.calls[index] == CallOf(seen + [signal], index, means)
    {
      OneMoreFor(seen, signal, index);
      if index == fragment.index && First(seen, index).None? {
        Unbegun(seen, index);
        assert "" + PieceIn(fragment) == PieceIn(fragment);
      } else if index != fragment.index {
        assert PiecesFor(seen, index) + "" == PiecesFor(seen, index);
      }
    }
  }

  lemma {:induction false} Unbegun(seen: seq<Signal>, index: int)
    requires First(seen, index).None?
    ensures NameFor(seen, index) == "" && PiecesFor(seen, index) == ""
  {
    if seen != [] {
      Unbegun(seen[..|seen| - 1], index);
    }
  }

  /** What the producer can see of whether a fragment is admitted. */
  predicate Agreeable(calls: map<int, PartialCall>, fragment: Fragment) {
    if fragment.index in calls then
      && (fragment.id != "" ==> fragment.id == calls[fragment.index].id)
      && (NameIn(fragment) != "" && calls[fragment.index].name != "" ==> NameIn(fragment) == calls[fragment.index].name)
    else fragment.index >= 0 && RawName(fragment) != Some("")
  }

  /** One fragment begins its call or adds to it. */
  method OnFragment(p: Production, means: Means, fragment: Fragment) returns (r: Result<Production, StreamError>)
    requires InStep(p) && means.Valid()
    ensures r.Ok? <==> Agreeable(p.calls, fragment)
    ensures r.Ok? ==> InStep(r.value) && r.value.calls == p.calls[fragment.index := Grown(p.calls, fragment, means)]
    ensures r.Ok? ==> r.value == p.(events := r.value.events, sequence := r.value.sequence, calls := r.value.calls)
  {
    var q := p;
    if fragment.index !in q.calls {
      q :- BeginCall(q, means, fragment);
      assert fragment.id != "" ==> fragment.id == q.calls[fragment.index].id;
      Overwritten(p.calls, fragment.index, q.calls[fragment.index], Grown(p.calls, fragment, means));
    }
    if fragment.id != "" && fragment.id != q.calls[fragment.index].id {
      return Err(InvalidDeltaState);
    }
    r := AddTo(q, fragment);
  }

  lemma Overwritten(calls: map<int, PartialCall>, index: int, first: PartialCall, second: PartialCall)
    ensures calls[index := first][index := second] == calls[index := second]
  {
  }

  /** What a fragment says of a call that has begun. */
  method AddTo(p: Production, fragment: Fragment) returns (r: Result<Production, StreamError>)
    requires InStep(p) && fragment.index in p.calls
    ensures r.Ok? <==> var name := p.calls[fragment.index].name;
      NameIn(fragment) == "" || name == "" || NameIn(fragment) == name
    ensures r.Ok? ==> InStep(r.value)
    ensures r.Ok? ==>
      r.value == p.(events := r.value.events, sequence := r.value.sequence,
                    calls := p.calls[fragment.index := Extended(p.calls[fragment.index], fragment)])
  {
    var q, call := p, p.calls[fragment.index];
    if fragment.part.Some? {
      var name := fragment.part.value.name;
      if name.Some? && name.value != "" {
        q :- NameCall(q, fragment.index, name.value);
      }
      if fragment.part.value.arguments != "" {
        q := AddPiece(q, fragment.index, fragment.part.value.arguments);
      }
    }
    assert call.arguments + "" == call.arguments;
    Overwritten(p.calls, fragment.index, call.(name := NameIn(fragment)), Extended(call, fragment));
    assert q.calls[fragment.index] == Extended(call, fragment);
    return Ok(q);
  }

  /** Producer and consumer are where the signals so far lead. */
  ghost predicate Abreast(p: Production, seen: seq<Signal>, means: Means) {
    InStep(p) && Tracks(p, seen, means)
  }

  lemma AgreeableIsAdmitted(p: Production, seen: seq<Signal>, means: Means, fragment: Fragment)
    requires Tracks(p, seen, means)
    ensures Agreeable(p.calls, fragment) <==> Consistent(seen + [Called(fragment)], means)
  {
    ConsistentSnoc(seen, Called(fragment), means);
    if fragment.index !in p.calls {
      Unbegun(seen, fragment.index);
    }
  }

  /** A faulty beginning is not mended by what follows. */
  lemma Hopeless(prefix: seq<Signal>, signals: seq<Signal>, means: Means)
    requires prefix <= signals && !Consistent(prefix, means)
    ensures !Consistent(signals, means)
  {
    if Consistent(signals, means) {
      ConsistentPrefix(prefix, signals, means);
    }
  }

  method OnFragments(p: Production, means: Means, fragments: seq<Fragment>, ghost seen: seq<Signal>,
                     ghost next: seq<Signal>) returns (r: Result<Production, StreamError>)
    requires Abreast(p, seen, means) && means.Valid() && next == seen + FragmentSignals(fragments)
    ensures r.Ok? <==> Consistent(next, means)
    ensures r.Ok? ==> Abreast(r.value, next, means)
  {
    var q := p;
    ghost var now := seen;
    for i := 0 to |fragments|
      invariant now == seen + FragmentSignals(fragments[..i]) && Abreast(q, now, means)
    {
      NextFragment(seen, fragments, i);
      ghost var later := seen + FragmentSignals(fragments[..i + 1]);
      r := OneFragment(q, means, fragments[i], now, later);
      if r.Err? {
        Hopeless(later, next, means);
        return;
      }
      q, now := r.value, later;
    }
    assert fragments[..|fragments|] == fragments;
    return Ok(q);
  }

  method OneFragment(p: Production, means: Means, fragment: Fragment, ghost seen: seq<Signal>,
                     ghost next: seq<Signal>) returns (r: Result<Production, StreamError>)
    requires Abreast(p, seen, means) && means.Valid() && next == seen + [Called(fragment)]
    ensures r.Ok? <==> Consistent(next, means)
    ensures r.Ok? ==> Abreast(r.value, next, means)
  {
    AgreeableIsAdmitted(p, seen, means, fragment);
    r := OnFragment(p, means, fragment);
    if r.Ok? {
      ConsistentSnoc(seen, Called(fragment), means);
      TracksFragment(p, seen, means, fragment, r.value);
    }
  }

  lemma NextFragment(seen: seq<Signal>, fragments: seq<Fragment>, i: nat)
    requires i < |fragments|
    ensures seen + FragmentSignals(fragments[..i + 1])
         == seen + FragmentSignals(fragments[..i]) + [Called(fragments[i])]
    ensures seen + FragmentSignals(fragments[..i + 1]) <= seen + FragmentSignals(fragments)
  {
    assert FragmentSignals(fragments[..i + 1]) == FragmentSignals(fragments[..i]) + [Called(fragments[i])];
    Reassociate(seen, FragmentSignals(fragments[..i]), [Called(fragments[i])]);
    assert FragmentSignals(fragments[..i + 1]) <= FragmentSignals(fragments);
    PrefixUnder(seen, FragmentSignals(fragments[..i + 1]), FragmentSignals(fragments));
  }

  method OnFinish(p: Production, means: Means, choice: Choice, ghost seen: seq<Signal>, ghost next: seq<Signal>)
    returns (q: Production)
    requires Abreast(p, seen, means) && next == seen + FinishSignals(choice)
    ensures Abreast(q, next, means)
  {
    q := p;
    if choice.finish.Some? {
      q := q.(finish := FinishOf(choice.finish.value));
      TracksSignal(p, seen, means, Ended(choice.finish.value), q);
    } else {
      assert next == seen;
    }
  }

  method OnThought(p: Production, means: Means, choice: Choice, ghost seen: seq<Signal>, ghost next: seq<Signal>)
    returns (q: Production)
    requires Abreast(p, seen, means) && next == seen + ThoughtSignals(choice)
    ensures Abreast(q, next, means)
  {
    q := p;
    if means.keepReasoning && choice.reasoning != "" {
      q := q.(reasoning := q.reasoning + [choice.reasoning]);
    }
    if choice.reasoning != "" {
      TracksSignal(p, seen, means, Thought(choice.reasoning), q);
    } else {
      assert next == seen;
    }
  }

  method OnContent(p: Production, means: Means, choice: Choice, ghost seen: seq<Signal>, ghost next: seq<Signal>)
    returns (q: Production)
    requires Abreast(p, seen, means) && next == seen + SaidSignals(choice)
    ensures Abreast(q, next, means)
  {
    q := p;
    if choice.content != "" {
      q := OnText(q, choice.content);
      TracksSignal(p, seen, means, Said(choice.content), q);
    } else {
      assert next == seen;
    }
  }

  method OnChoice(p: Production, means: Means, choice: Choice, ghost seen: seq<Signal>, ghost next: seq<Signal>)
    returns (r: Result<Production, StreamError>)
    requires Abreast(p, seen, means) && means.Valid() && next == seen + ChoiceSignals(choice)
    ensures r.Ok? <==> Consistent(next, means)
    ensures r.Ok? ==> Abreast(r.value, next, means)
  {
    ghost var ended := seen + FinishSignals(choice);
    ghost var thought := ended + ThoughtSignals(choice);
    ghost var said := thought + SaidSignals(choice);
    assert said + FragmentSignals(choice.fragments) == next;
    var q := OnFinish(p, means, choice, seen, ended);
    q := OnThought(q, means, choice, ended, thought);
    q := OnContent(q, means, choice, thought, said);
    r := OnFragments(q, means, choice.fragments, said, next);
  }

  lemma NextChoice(seen: seq<Signal>, choices: seq<Choice>, i: nat)
    requires i < |choices|
    ensures seen + ChoicesSignals(choices[..i + 1]) == seen + ChoicesSignals(choices[..i]) + ChoiceSignals(choices[i])
    ensures seen + ChoicesSignals(choices[..i + 1]) <= seen + ChoicesSignals(choices)
  {
    assert choices[..i + 1][..i] == choices[..i];
    Reassociate(seen, ChoicesSignals(choices[..i]), ChoiceSignals(choices[i]));
    ChoicesGrow(choices, i + 1);
    PrefixUnder(seen, ChoicesSignals(choices[..i + 1]), ChoicesSignals(choices));
  }

  method OnChoices(p: Production, means: Means, choices: seq<Choice>, ghost seen: seq<Signal>,
                   ghost next: seq<Signal>) returns (r: Result<Production, StreamError>)
    requires Abreast(p, seen, means) && means.Valid() && next == seen + ChoicesSignals(choices)
    ensures r.Ok? <==> Consistent(next, means)
    ensures r.Ok? ==> Abreast(r.value, next, means)
  {
    var q := p;
    ghost var now := seen;
    for i := 0 to |choices|
      invariant now == seen + ChoicesSignals(choices[..i]) && Abreast(q, now, means)
    {
      NextChoice(seen, choices, i);
      ghost var later := seen + ChoicesSignals(choices[..i + 1]);
      r := OnChoice(q, means, choices[i], now, later);
      if r.Err? {
        Hopeless(later, next, means);
        return;
      }
      q, now := r.value, later;
    }
    assert choices[..|choices|] == choices;
    return Ok(q);
  }

  /** One chunk: what the producer holds afterwards is what the signals amount to, and it goes on exactly when they
      are consistent; the consumer is in step with it all the while. */
  method OnChunk(p: Production, means: Means, chunk: Chunk, ghost seen: seq<Signal>, ghost next: seq<Signal>)
    returns (r: Result<Production, StreamError>)
    requires Abreast(p, seen, means) && means.Valid() && next == seen + ChunkSignals(chunk)
    ensures r.Ok? <==> Consistent(next, means)
    ensures r.Ok? ==> Abreast(r.value, next, means)
  {
    ghost var now := seen + UsageSignals(chunk);
    assert now + ChoicesSignals(chunk.choices) == next;
    r := OnCounts(p, means, chunk, seen, now);
    if r.Err? {
      Hopeless(now, next, means);
      return;
    }
    r := OnChoices(r.value, means, chunk.choices, now, next);
  }

  method OnCounts(p: Production, means: Means, chunk: Chunk, ghost seen: seq<Signal>, ghost next: seq<Signal>)
    returns (r: Result<Production, StreamError>)
    requires Abreast(p, seen, means) && next == seen + UsageSignals(chunk)
    ensures r.Ok? <==> Consistent(next, means)
    ensures r.Ok? ==> Abreast(r.value, next, means)
  {
    if chunk.usage.None? {
      assert next == seen;
      return Ok(p);
    }
    var signal := Counted(chunk.usage.value);
    ConsistentSnoc(seen, signal, means);
    r := OnUsage(p, chunk.usage.value);
    if r.Ok? {
      TracksSignal(p, seen, means, signal, r.value);
    }
  }

  lemma {:induction false} ChoicesGrow(choices: seq<Choice>, n: nat)
    requires n <= |choices|
    ensures ChoicesSignals(choices[..n]) <= ChoicesSignals(choices)
  {
    if n == |choices| {
      assert choices[..n] == choices;
    } else {
      ChoicesGrow(choices[..|choices| - 1], n);
      assert choices[..|choices| - 1][..n] == choices[..n];
    }
  }

  lemma {:induction false} SignalsGrow(chunks: seq<Chunk>, n: nat)
    requires n <= |chunks|
    ensures Signals(chunks[..n]) <= Signals(chunks)
  {
    if n == |chunks| {
      assert chunks[..n] == chunks;
    } else {
      SignalsGrow(chunks[..|chunks| - 1], n);
      assert chunks[..|chunks| - 1][..n] == chunks[..n];
    }
  }

  // ---- The end of the stream.

  /** While the calls are completed in the order of their indices: the first `k` are done. */
  ghost predicate Completing(c: Collector, p: Production, order: seq<int>, k: nat, normalized: seq<ToolCall>) {
    && k == |normalized| <= |order|
    && c.expected == p.sequence && c.started && c.completed.None? && c.usage == p.usage
    && c.states.Keys == p.calls.Keys && (forall i | i in c.calls :: i in p.calls)
    && (forall j | 0 <= j < |order| ::
          && order[j] in p.calls
          && c.states[order[j]].id == p.calls[order[j]].id
          && (c.states[order[j]].name.Some? ==> c.states[order[j]].name.value == p.calls[order[j]].name)
          && (c.states[order[j]].done <==> j < k) && (order[j] in c.calls <==> j < k))
    && (forall j | 0 <= j < k :: c.calls[order[j]] == normalized[j])
  }

  ghost predicate FollowedCompleting(p: Production, order: seq<int>, normalized: seq<ToolCall>) {
    DistinctIds(p.calls) ==> Fold(p.events).Ok? && Completing(Fold(p.events).value, p, order, |normalized|, normalized)
  }

  ghost predicate IsOrder(order: seq<int>, calls: map<int, PartialCall>) {
    && (forall i, j | 0 <= i < j < |order| :: order[i] < order[j])
    && (forall i :: i in order <==> i in calls)
  }

  /** The completed calls are what their partial forms amount to, under distinct identities. */
  ghost predicate Normalized(p: Production, means: Means, order: seq<int>, normalized: seq<ToolCall>) {
    && |normalized| <= |order| && (forall j | 0 <= j < |order| :: order[j] in p.calls)
    && (forall j | 0 <= j < |normalized| ::
          && normalized[j].id == p.calls[order[j]].id && normalized[j].name == p.calls[order[j]].name
          && means.loads(OrEmpty(p.calls[order[j]].arguments)) == Some(normalized[j].arguments))
    && (forall i, j | 0 <= i < j < |normalized| :: normalized[i].id != normalized[j].id)
  }

  lemma CompletesOne(c: Collector, p: Production, order: seq<int>, normalized: seq<ToolCall>, call: ToolCall,
                     event: ModelEvent)
    requires Completing(c, p, order, |normalized|, normalized) && IsOrder(order, p.calls) && |normalized| < |order|
    requires event == ToolCallCompleted(p.sequence, order[|normalized|], call)
    requires call.id == p.calls[order[|normalized|]].id && call.name == p.calls[order[|normalized|]].name
    ensures Step(c, event).Ok?
    ensures Completing(Step(c, event).value, Yield(p, event), order, |normalized| + 1, normalized + [call])
  {
  }

  method NormalizeCall(state: PartialCall, means: Means, ids: set<string>) returns (r: Result<ToolCall, StreamError>)
    ensures r.Ok? <==>
      state.name != "" && means.loads(OrEmpty(state.arguments)).Some? && state.id !in ids
    ensures r.Ok? ==> r.value == ToolCall(state.id, state.name, means.loads(OrEmpty(state.arguments)).value)
  {
    if state.name == "" {
      return Err(IncompleteToolCall);
    }
    var arguments := means.loads(OrEmpty(state.arguments));
    if arguments.None? {
      return Err(InvalidArguments);
    }
    if state.id in ids {
      return Err(DuplicateToolCallId);
    }
    return Ok(ToolCall(state.id, state.name, arguments.value));
  }

  function IdsOf(calls: seq<ToolCall>): set<string> {
    set call | call in calls :: call.id
  }

  /** Completes the calls one by one. */
  method CompleteCalls(p: Production, means: Means, order: seq<int>)
    returns (r: Result<Production, StreamError>, normalized: seq<ToolCall>)
    requires InStep(p) && IsOrder(order, p.calls)
    ensures r.Ok? <==> Completable(p.calls, means)
    ensures r.Ok? ==>
      && Accounted(r.value) && r.value == p.(events := r.value.events, sequence := r.value.sequence)
      && |normalized| == |order| && Normalized(p, means, order, normalized)
      && FollowedCompleting(r.value, order, normalized)
  {
    normalized := [];
    var q, ids := p, {};
    StartsCompleting(p, order);
    for k := 0 to |order|
      invariant |normalized| == k && Normalized(p, means, order, normalized) && ids == IdsOf(normalized)
      invariant Accounted(q) && q == p.(events := q.events, sequence := q.sequence)
      invariant FollowedCompleting(q, order, normalized) && forall j | 0 <= j < k :: p.calls[order[j]].name != ""
    {
      var made := NormalizeCall(q.calls[order[k]], means, ids);
      if made.Err? {
        Incompletable(p, means, order, normalized);
        return Err(made.error), normalized;
      }
      var call := made.value;
      ids := ids + {call.id};
      NormalizedOne(p, means, order, normalized, call);
      q := YieldCompleted(q, order, normalized, call);
      normalized := normalized + [call];
    }
    CompletedIdsAreDistinct(p, means, order, normalized);
    AllCompletable(p, means, order, normalized);
    return Ok(q), normalized;
  }

  /** Every call has a name and readable arguments, under an identity of its own. */
  ghost predicate Completable(calls: map<int, PartialCall>, means: Means) {
    && DistinctIds(calls)
    && forall index | index in calls ::
         calls[index].name != "" && means.loads(OrEmpty(calls[index].arguments)).Some?
  }

  lemma Incompletable(p: Production, means: Means, order: seq<int>, normalized: seq<ToolCall>)
    requires IsOrder(order, p.calls) && Normalized(p, means, order, normalized) && |normalized| < |order|
    requires var call := p.calls[order[|normalized|]];
      call.name == "" || means.loads(OrEmpty(call.arguments)).None? || call.id in IdsOf(normalized)
    ensures !Completable(p.calls, means)
  {
    var call := p.calls[order[|normalized|]];
    assert order[|normalized|] in order;
    if call.id in IdsOf(normalized) {
      var other :| other in normalized && other.id == call.id;
      var k :| 0 <= k < |normalized| && normalized[k] == other;
      assert p.calls[order[k]].id == call.id && order[k] in p.calls && order[k] != order[|normalized|];
    }
  }

  lemma AllCompletable(p: Production, means: Means, order: seq<int>, normalized: seq<ToolCall>)
    requires IsOrder(order, p.calls) && Normalized(p, means, order, normalized) && |normalized| == |order|
    requires DistinctIds(p.calls) && forall k | 0 <= k < |order| :: p.calls[order[k]].name != ""
    ensures Completable(p.calls, means)
  {
    forall index | index in p.calls
      ensures p.calls[index].name != "" && means.loads(OrEmpty(p.calls[index].arguments)).Some?
    {
      assert index in order;
      var k :| 0 <= k < |order| && order[k] == index;
    }
  }

  method YieldCompleted(q: Production, order: seq<int>, normalized: seq<ToolCall>, call: ToolCall)
    returns (after: Production)
    requires Accounted(q) && FollowedCompleting(q, order, normalized)
    requires IsOrder(order, q.calls) && |normalized| < |order| && order[|normalized|] in q.calls
    requires call.id == q.calls[order[|normalized|]].id && call.name == q.calls[order[|normalized|]].name
    ensures Accounted(after) && FollowedCompleting(after, order, normalized + [call])
    ensures after == Yield(q, ToolCallCompleted(q.sequence, order[|normalized|], call))
  {
    var event := ToolCallCompleted(q.sequence, order[|normalized|], call);
    FollowedOne(q, order, normalized, call, event);
    after := Yield(q, event);
    AccountedYield(q, after, event);
  }

  lemma NormalizedOne(p: Production, means: Means, order: seq<int>, normalized: seq<ToolCall>, call: ToolCall)
    requires Normalized(p, means, order, normalized) && |normalized| < |order| && call.id !in IdsOf(normalized)
    requires order[|normalized|] in p.calls
    requires call.id == p.calls[order[|normalized|]].id && call.name == p.calls[order[|normalized|]].name
    requires means.loads(OrEmpty(p.calls[order[|normalized|]].arguments)) == Some(call.arguments)
    ensures Normalized(p, means, order, normalized + [call])
    ensures IdsOf(normalized + [call]) == IdsOf(normalized) + {call.id}
  {
    FreshId(normalized, call);
  }

  lemma FreshId(normalized: seq<ToolCall>, call: ToolCall)
    requires call.id !in IdsOf(normalized)
    ensures forall i | 0 <= i < |normalized| :: normalized[i].id != call.id
    ensures IdsOf(normalized + [call]) == IdsOf(normalized) + {call.id}
  {
    assert call in normalized + [call];
    forall i | 0 <= i < |normalized| ensures normalized[i].id != call.id {
      assert normalized[i] in normalized;
    }
    forall c | c in normalized ensures c in normalized + [call] {
    }
  }

  lemma FollowedOne(q: Production, order: seq<int>, normalized: seq<ToolCall>, call: ToolCall, event: ModelEvent)
    requires FollowedCompleting(q, order, normalized) && IsOrder(order, q.calls) && |normalized| < |order|
    requires event == ToolCallCompleted(q.sequence, order[|normalized|], call) && order[|normalized|] in q.calls
    requires call.id == q.calls[order[|normalized|]].id && call.name == q.calls[order[|normalized|]].name
    ensures FollowedCompleting(Yield(q, event), order, normalized + [call])
  {
    if DistinctIds(q.calls) {
      FoldSnoc(q.events, event);
      CompletesOne(Fold(q.events).value, q, order, normalized, call, event);
    }
  }

  lemma StartsCompleting(p: Production, order: seq<int>)
    requires InStep(p) && IsOrder(order, p.calls)
    ensures FollowedCompleting(p, order, [])
  {
    if DistinctIds(p.calls) {
      var c := Fold(p.events).value;
      forall j | 0 <= j < |order| ensures order[j] in p.calls && SameCall(c.states[order[j]], p.calls[order[j]]) {
        assert order[j] in order;
      }
    }
  }

  /** With every call completed under an identity of its own the producer's calls had distinct identities. */
  lemma CompletedIdsAreDistinct(p: Production, means: Means, order: seq<int>, normalized: seq<ToolCall>)
    requires IsOrder(order, p.calls) && Normalized(p, means, order, normalized) && |normalized| == |order|
    ensures DistinctIds(p.calls)
  {
    forall a, b | a in p.calls && b in p.calls && a != b ensures p.calls[a].id != p.calls[b].id {
      assert a in order && b in order;
      var i :| 0 <= i < |order| && order[i] == a;
      var j :| 0 <= j < |order| && order[j] == b;
      if i < j {
        assert normalized[i].id != normalized[j].id;
      } else {
        assert normalized[j].id != normalized[i].id;
      }
    }
  }

  lemma {:induction false} InOrderIs(calls: map<int, ToolCall>, order: seq<int>, normalized: seq<ToolCall>)
    requires |order| == |normalized|
    requires forall j | 0 <= j < |order| :: order[j] in calls && calls[order[j]] == normalized[j]
    ensures InOrder(calls, order) == normalized
  {
    if order != [] {
      InOrderIs(calls, order[1..], normalized[1..]);
    }
  }

  lemma CompletedAll(c: Collector, p: Production, order: seq<int>, normalized: seq<ToolCall>)
    requires Completing(c, p, order, |normalized|, normalized) && |normalized| == |order| && IsOrder(order, p.calls)
    ensures AllDone(c.states) && c.calls.Keys == p.calls.Keys
  {
    forall i | i in p.calls ensures i in c.calls && c.states[i].done {
      assert i in order;
      var j :| 0 <= j < |order| && order[j] == i;
    }
    assert forall i | i in c.calls.Keys :: i in p.calls.Keys;
    assert c.calls.Keys <= p.calls.Keys;
    assert forall i | i in p.calls.Keys :: i in c.calls.Keys;
    assert p.calls.Keys <= c.calls.Keys;
  }

  /** The consumer takes a final response that has its calls and its usage. */
  lemma TakesResponse(c: Collector, response: Response)
    requires c.started && c.completed.None? && AllDone(c.states) && c.usage == response.usage
    requires response.message.toolCalls == InOrder(c.calls, Sorted(c.calls.Keys))
    ensures Step(c, ResponseCompleted(c.expected, response)) ==
      Ok(c.(expected := c.expected + 1, completed := Some(response)))
  {
  }

  ghost predicate ConsumerHolds(events: seq<ModelEvent>, response: Response) {
    && Fold(events).Ok? && Fold(events).value.completed == Some(response)
    && Fold(events).value.started && AllDone(Fold(events).value.states)
  }

  lemma ConsumerTakes(q: Production, order: seq<int>, normalized: seq<ToolCall>, response: Response)
    requires DistinctIds(q.calls) && FollowedCompleting(q, order, normalized) && |normalized| == |order|
    requires order == Sorted(q.calls.Keys) && IsOrder(order, q.calls)
    requires response.message.toolCalls == normalized && response.usage == q.usage
    ensures ConsumerHolds(q.events + [ResponseCompleted(q.sequence, response)], response)
  {
    var c := Fold(q.events).value;
    FoldSnoc(q.events, ResponseCompleted(q.sequence, response));
    CompletedAll(c, q, order, normalized);
    InOrderIs(c.calls, order, normalized);
    TakesResponse(c, response);
  }

  function TextOf(response: Response): string {
    if |response.message.content| == 1 && response.message.content[0].TextContent?
    then response.message.content[0].text else ""
  }

  /** The text deltas add up to the text of the response, and the argument deltas of each call to the raw text its
      arguments were read from. */
  ghost predicate AddsUp(events: seq<ModelEvent>, response: Response, order: seq<int>, means: Means) {
    && DeltaText(events) == TextOf(response)
    && (response.message.content == [] || response.message.content == [TextContent(DeltaText(events))])
    && |order| == |response.message.toolCalls|
    && (forall i, j | 0 <= i < j < |order| :: order[i] < order[j])
    && (forall j | 0 <= j < |order| ::
          means.loads(OrEmpty(DeltaArguments(events, order[j]))) == Some(response.message.toolCalls[j].arguments))
  }

  lemma AddedUp(p: Production, q: Production, means: Means, order: seq<int>, normalized: seq<ToolCall>,
                response: Response)
    requires Accounted(q) && q.calls == p.calls && IsOrder(order, p.calls)
    requires Normalized(p, means, order, normalized) && |normalized| == |order|
    requires response.message.toolCalls == normalized
    requires response.message.content == if q.text == [] then [] else [TextContent(Flatten(q.text))]
    ensures AddsUp(q.events + [ResponseCompleted(q.sequence, response)], response, order, means)
    ensures forall j | 0 <= j < |order| ::
      DeltaArguments(q.events + [ResponseCompleted(q.sequence, response)], order[j]) == p.calls[order[j]].arguments
  {
    Concluded(q, response, order);
  }

  /** The consumer has had no objection to any event and holds the response, and the deltas add up to it. */
  ghost predicate Delivers(events: seq<ModelEvent>, response: Response, order: seq<int>, means: Means) {
    && ConsumerHolds(events, response) && AddsUp(events, response, order, means)
    && (response.message.content != [] || response.message.toolCalls != [])
  }

  /** The response made of what the producer holds and the completed calls. */
  function ResponseOf(p: Production, normalized: seq<ToolCall>, means: Means): Response {
    var reasoning := Flatten(p.reasoning);
    Response(Reply(if p.text == [] then [] else [TextContent(Flatten(p.text))], normalized,
                   if reasoning == "" then None else Some(reasoning), means.timestamp, means.messageId),
             p.finish, p.usage)
  }

  /** The end of the producer: complete the calls, build the response. */
  method EndStream(p: Production, means: Means)
    returns (r: Result<Response, StreamError>, events: seq<ModelEvent>, order: seq<int>)
    requires InStep(p)
    ensures r.Ok? <==> Completable(p.calls, means) && (p.text != [] || p.calls != map[])
    ensures r.Ok? ==> Delivers(events, r.value, order, means)
    ensures r.Ok? ==>
      && IsOrder(order, p.calls) && Normalized(p, means, order, r.value.message.toolCalls)
      && |order| == |r.value.message.toolCalls|
      && r.value.message.content == (if p.text == [] then [] else [TextContent(Flatten(p.text))])
      && r.value.message.reasoning == (if Flatten(p.reasoning) == "" then None else Some(Flatten(p.reasoning)))
      && r.value.finish == p.finish && r.value.usage == p.usage
      && forall j | 0 <= j < |order| ::
           order[j] in p.calls && DeltaArguments(events, order[j]) == p.calls[order[j]].arguments
  {
    order := Sorted(p.calls.Keys);
    SortedAscends(p.calls.Keys);
    var completed, normalized := CompleteCalls(p, means, order);
    if completed.Err? {
      return Err(completed.error), p.events, order;
    }
    var q := completed.value;
    NoCalls(p.calls, order);
    if q.text == [] && normalized == [] {
      return Err(EmptyResponse), q.events, order;
    }
    var response := ResponseOf(q, normalized, means);
    events := q.events + [ResponseCompleted(q.sequence, response)];
    Delivered(p, q, means, order, normalized);
    return Ok(response), events, order;
  }

  lemma NoCalls(calls: map<int, PartialCall>, order: seq<int>)
    requires IsOrder(order, calls)
    ensures order == [] <==> calls == map[]
  {
    if order != [] {
      assert order[0] in order;
    } else {
      assert forall i | i in calls :: i in order;
      assert calls.Keys == {};
    }
  }

  lemma Delivered(p: Production, q: Production, means: Means, order: seq<int>, normalized: seq<ToolCall>)
    requires Accounted(q) && q == p.(events := q.events, sequence := q.sequence)
    requires order == Sorted(p.calls.Keys) && IsOrder(order, p.calls)
    requires |normalized| == |order| && Normalized(p, means, order, normalized)
    requires FollowedCompleting(q, order, normalized) && (q.text != [] || normalized != [])
    ensures var response := ResponseOf(q, normalized, means);
      var events := q.events + [ResponseCompleted(q.sequence, response)];
      && Delivers(events, response, order, means)
      && forall j | 0 <= j < |order| ::
           order[j] in p.calls && DeltaArguments(events, order[j]) == p.calls[order[j]].arguments
  {
    var response := ResponseOf(q, normalized, means);
    CompletedIdsAreDistinct(p, means, order, normalized);
    ConsumerTakes(q, order, normalized, response);
    AddedUp(p, q, means, order, normalized, response);
  }

  /** The response says what the signals amount to, call by call in the order of their indices. */
  ghost predicate Says(response: Response, signals: seq<Signal>, order: seq<int>, means: Means) {
    var message, thoughts := response.message, Flatten(Thoughts(signals));
    && message.content == (if Texts(signals) == [] then [] else [TextContent(Flatten(Texts(signals)))])
    && message.reasoning == (if means.keepReasoning && thoughts != "" then Some(thoughts) else None)
    && response.finish == LatestFinish(signals) && response.usage == LatestUsage(signals)
    && |order| == |message.toolCalls| && (forall i, j | 0 <= i < j < |order| :: order[i] < order[j])
    && (forall index :: index in order <==> First(signals, index).Some?)
    && forall j | 0 <= j < |order| ::
         && First(signals, order[j]).Some?
         && message.toolCalls[j].id == Identity(means, First(signals, order[j]).value)
         && message.toolCalls[j].name == NameFor(signals, order[j])
         && Some(message.toolCalls[j].arguments) == means.loads(OrEmpty(PiecesFor(signals, order[j])))
  }

  /** The whole producer: it finishes exactly when what the provider said is consistent and complete; then the
      response says just that, the deltas are the provider's own, and the consumer has taken everything. */
  method StreamChunks(chunks: seq<Chunk>, means: Means, responseId: string)
    returns (r: Result<Response, StreamError>, events: seq<ModelEvent>, order: seq<int>)
    requires means.Valid()
    ensures r.Ok? <==> Finishes(Signals(chunks), means)
    ensures r.Ok? ==> Delivers(events, r.value, order, means) && Says(r.value, Signals(chunks), order, means)
    ensures r.Ok? ==> DeltaText(events) == Flatten(Texts(Signals(chunks)))
    ensures r.Ok? ==> forall j | 0 <= j < |order| ::
      DeltaArguments(events, order[j]) == PiecesFor(Signals(chunks), order[j])
  {
    var started := ResponseStarted(0, responseId);
    var p := Production([started], 1, [], [], map[], Other, None);
    StartsInStep(p, started);
    for i := 0 to |chunks|
      invariant Abreast(p, Signals(chunks[..i]), means)
    {
      NextChunk(chunks, i);
      var next := OnChunk(p, means, chunks[i], Signals(chunks[..i]), Signals(chunks[..i + 1]));
      if next.Err? {
        Hopeless(Signals(chunks[..i + 1]), Signals(chunks), means);
        return Err(next.error), p.events, [];
      }
      p := next.value;
    }
    assert chunks[..|chunks|] == chunks;
    r, events, order := Finish(p, means, Signals(chunks));
  }

  method Finish(p: Production, means: Means, ghost signals: seq<Signal>)
    returns (r: Result<Response, StreamError>, events: seq<ModelEvent>, order: seq<int>)
    requires Abreast(p, signals, means)
    ensures r.Ok? <==> Finishes(signals, means)
    ensures r.Ok? ==> Delivers(events, r.value, order, means) && Says(r.value, signals, order, means)
    ensures r.Ok? ==> DeltaText(events) == Flatten(Texts(signals))
    ensures r.Ok? ==> forall j | 0 <= j < |order| :: DeltaArguments(events, order[j]) == PiecesFor(signals, order[j])
  {
    WhenItFinishes(p, signals, means);
    r, events, order := EndStream(p, means);
    if r.Ok? {
      SaysIt(p, signals, means, r.value, order);
    }
  }

  lemma NextChunk(chunks: seq<Chunk>, i: nat)
    requires i < |chunks|
    ensures Signals(chunks[..i + 1]) == Signals(chunks[..i]) + ChunkSignals(chunks[i])
    ensures Signals(chunks[..i + 1]) <= Signals(chunks)
  {
    assert chunks[..i + 1][..i] == chunks[..i];
    SignalsGrow(chunks, i + 1);
  }

  lemma WhenItFinishes(p: Production, signals: seq<Signal>, means: Means)
    requires Tracks(p, signals, means)
    ensures Finishes(signals, means) <==> Completable(p.calls, means) && (p.text != [] || p.calls != map[])
  {
    Inhabited(p.calls.Keys);
    if index :| index in p.calls.Keys {
      assert First(signals, index).Some?;
    }
    if Completable(p.calls, means) {
      forall index | First(signals, index).Some?
        ensures NameFor(signals, index) != "" && means.loads(OrEmpty(PiecesFor(signals, index))).Some?
      {
        assert p.calls[index] == CallOf(signals, index, means);
      }
      forall i, j | First(signals, i).Some? && First(signals, j).Some? && i != j
        ensures Identity(means, First(signals, i).value) != Identity(means, First(signals, j).value)
      {
        assert p.calls[i].id != p.calls[j].id;
      }
    }
    if Finishes(signals, means) {
      forall i, j | i in p.calls && j in p.calls && i != j ensures p.calls[i].id != p.calls[j].id {
        assert First(signals, i).Some? && First(signals, j).Some?;
      }
      forall index | index in p.calls
        ensures p.calls[index].name != "" && means.loads(OrEmpty(p.calls[index].arguments)).Some?
      {
        assert First(signals, index).Some?;
      }
    }
  }

  lemma SaysIt(p: Production, signals: seq<Signal>, means: Means, response: Response, order: seq<int>)
    requires Tracks(p, signals, means) && IsOrder(order, p.calls)
    requires Normalized(p, means, order, response.message.toolCalls) && |order| == |response.message.toolCalls|
    requires response.message.content == (if p.text == [] then [] else [TextContent(Flatten(p.text))])
    requires response.message.reasoning == (if Flatten(p.reasoning) == "" then None else Some(Flatten(p.reasoning)))
    requires response.finish == p.finish && response.usage == p.usage
    ensures Says(response, signals, order, means)
  {
    assert Flatten<char>([]) == [];
    forall j | 0 <= j < |order| ensures p.calls[order[j]] == CallOf(signals, order[j], means) {
      assert order[j] in order;
    }
  }

  lemma StartsInStep(p: Production, started: ModelEvent)
    requires started.ResponseStarted? && started.sequence == 0
    requires p.events == [started] && p.sequence == 1 && p.text == [] && p.calls == map[] && p.usage == None
    ensures InStep(p)
  {
    assert p.events == [] + [started];
    FoldSnoc([], started);
    forall index ensures DeltaArguments(p.events, index) == "" {
      DeltasSnoc([], started, index);
    }
    DeltasSnoc([], started, 0);
  }

  /** The final event carries no delta. */
  lemma Concluded(q: Production, response: Response, order: seq<int>)
    requires Accounted(q)
    ensures var events := q.events + [ResponseCompleted(q.sequence, response)];
      && DeltaText(events) == Flatten(q.text)
      && forall j | 0 <= j < |order| && order[j] in q.calls ::
           DeltaArguments(events, order[j]) == q.calls[order[j]].arguments
  {
    var event := ResponseCompleted(q.sequence, response);
    DeltasSnoc(q.events, event, 0);
    assert DeltaText(q.events) + "" == DeltaText(q.events);
    forall j | 0 <= j < |order| && order[j] in q.calls
      ensures DeltaArguments(q.events + [event], order[j]) == q.calls[order[j]].arguments
    {
      DeltasSnoc(q.events, event, order[j]);
      assert DeltaArguments(q.events, order[j]) == ArgumentsOf(q.calls, order[j]);
      assert DeltaArguments(q.events, order[j]) + "" == DeltaArguments(q.events, order[j]);
    }
  }

  /** What is left for the consumer to refuse is what the model said it cannot do; otherwise it returns the
      response under the identity the caller chose, if any. */
  lemma OnlyCapabilitiesRefuse(c: Collector, response: Response, capabilities: Capabilities, messageId: Option<string>)
    requires c.completed == Some(response) && c.started && AllDone(c.states)
    requires response.message.content == [] || exists text :: response.message.content == [TextContent(text)]
    ensures var r := Conclude(c, capabilities, messageId);
      var calls := response.message.toolCalls;
      && (r.Ok? <==>
            && (response.message.content != [] ==> TextModality in capabilities.outputs)
            && (calls != [] ==> capabilities.toolCalling) && (|calls| > 1 ==> capabilities.parallelToolCalls))
      && (r.Ok? ==> r.value == response.(message := response.message.(messageId :=
            if messageId.Some? then messageId.value else response.message.messageId)))
      && (r.Err? ==> r.error in {UnsupportedOutput, ToolsUnsupported, ParallelCallsUnsupported})
  {
    var content := response.message.content;
    if content != [] {
      assert ModalityOf(content[0]) == TextModality;
    }
  }
}

/** Whole-request budgeting and incremental compaction (roboagent/context/budget.py,
    roboagent/context/manager.py). */
module Compaction {
  import opened Basics
  import opened Messages
  import opened CanonicalData
  import opened Transcript
  import opened EntityRefs
  import opened WorldTrimming

  datatype Segment =
    | MessageSegment(message: AgentMessage)
    | SummarySegment(text: string)
    | WorldSegment(entries: seq<WorldEntry>, omitted: int)

  datatype ModelContext = ModelContext(prompt: Option<string>, segments: seq<Segment>)

  datatype ContextSummary = ContextSummary(sourceEnd: nat, sourceDigest: Digest, text: string,
                                           formatVersion: nat, summarizerId: Option<string>)

  datatype CompactionUpdate = CompactionUpdate(summary: Option<ContextSummary>, expected: Option<Digest>)

  datatype Prepared = Prepared(context: ModelContext, update: Option<CompactionUpdate>)

  datatype Failure =
    | BrokenExchange(fault: ExchangeFault)
    | MissingWindow | ReserveExhaustsWindow
    | TokenEstimation
    | StaticOverhead | MinimumTail | AtomicGroupTooLarge | SummaryAndMinimumTail
    | SummarizerInputTooLarge | SummarizerFailure

  datatype Budget = Budget(maxTokens: Option<nat>, reserve: nat)

  datatype Config = Config(budget: Budget, targetRatio: real, minRecentTurns: nat,
                           providerReserve: nat, formatVersion: nat)
  {
    predicate Valid() {
      0.0 < targetRatio <= 1.0 && minRecentTurns >= 1
    }
  }

  datatype Request = Request(prompt: Option<string>, transcript: seq<AgentMessage>,
                             compaction: Option<ContextSummary>,
                             world: Option<seq<WorldEntry>>, worldId: string, tools: seq<Tool>,
                             window: Option<nat>, maxOutput: Option<nat>)

  /** Estimator, summariser and its input check: total functions that may report failure. */
  datatype Services = Services(
    estimate: ModelContext -> Option<nat>,
    summarizerAccepts: (Option<ContextSummary>, seq<AgentMessage>) -> bool,
    summarize: (Option<ContextSummary>, seq<AgentMessage>) -> Option<(string, Option<string>)>)

  // ---- Segments.

  function MessageSegments(messages: seq<AgentMessage>): (r: seq<Segment>)
    ensures |r| == |messages| && forall i | 0 <= i < |r| :: r[i] == MessageSegment(messages[i])
  {
    seq(|messages|, i requires 0 <= i < |messages| => MessageSegment(messages[i]))
  }

  /** What the model sees of a transcript: a summary of its prefix and the rest verbatim. */
  function ProjectSegments(transcript: seq<AgentMessage>, summary: Option<ContextSummary>): seq<Segment>
    requires summary.Some? ==> summary.value.sourceEnd <= |transcript|
  {
    match summary
    case None => MessageSegments(transcript)
    case Some(s) => [SummarySegment(s.text)] + MessageSegments(transcript[s.sourceEnd..])
  }

  function UnwrapMessages(segments: seq<Segment>): seq<AgentMessage>
    requires forall i | 0 <= i < |segments| :: segments[i].MessageSegment?
  {
    seq(|segments|, i requires 0 <= i < |segments| => segments[i].message)
  }

  predicate AllMessages(segments: seq<Segment>) {
    forall i | 0 <= i < |segments| :: segments[i].MessageSegment?
  }

  /** The check every model context makes: no exchange is split and no answer is an orphan. */
  predicate ExchangesIntact(segments: seq<Segment>) {
    segments == []
    || if !segments[0].MessageSegment? then ExchangesIntact(segments[1..])
       else if OpensExchange(segments[0].message) then
         var size := 1 + |segments[0].message.toolCalls|;
         && size <= |segments| && AllMessages(segments[..size])
         && Groups(UnwrapMessages(segments[..size])).Ok?
         && ExchangesIntact(segments[size..])
       else
         !segments[0].message.ToolResultMessage? && ExchangesIntact(segments[1..])
  }

  function FirstSize(messages: seq<AgentMessage>): nat
    requires messages != []
  {
    if OpensExchange(messages[0]) then 1 + |messages[0].toolCalls| else 1
  }

  lemma {:induction false} IntactMessages(messages: seq<AgentMessage>)
    ensures ExchangesIntact(MessageSegments(messages)) <==> Complete(messages)
    decreases |messages|
  {
    if messages == [] {
      GroupsLanguage(messages);
    } else {
      IntactFirst(messages);
      CompleteFirst(messages);
      if FirstSize(messages) <= |messages| {
        IntactMessages(messages[FirstSize(messages)..]);
      }
    }
  }

  lemma IntactFirst(messages: seq<AgentMessage>)
    requires messages != []
    ensures var size := FirstSize(messages);
      if size > |messages| then !ExchangesIntact(MessageSegments(messages))
      else
        ExchangesIntact(MessageSegments(messages))
        <==> WellFormedGroup(messages[..size]) && ExchangesIntact(MessageSegments(messages[size..]))
  {
    var size, segments := FirstSize(messages), MessageSegments(messages);
    if size <= |messages| {
      assert segments[size..] == MessageSegments(messages[size..]);
      assert UnwrapMessages(segments[..size]) == messages[..size];
      SingleGroup(messages[..size]);
    }
  }

  lemma CompleteFirst(messages: seq<AgentMessage>)
    requires messages != []
    ensures var size := FirstSize(messages);
      if size > |messages| then !Complete(messages)
      else Complete(messages) <==> WellFormedGroup(messages[..size]) && Complete(messages[size..])
  {
    GroupsLanguage(messages);
    if FirstSize(messages) <= |messages| {
      GroupsLanguage(messages[FirstSize(messages)..]);
    }
  }

  /** A list as long as the exchange its first message opens is complete only as that exchange. */
  lemma SingleGroup(messages: seq<AgentMessage>)
    requires messages != []
    requires |messages| == if OpensExchange(messages[0]) then 1 + |messages[0].toolCalls| else 1
    ensures Groups(messages).Ok? <==> WellFormedGroup(messages)
  {
    assert messages[..|messages|] == messages;
    assert messages[|messages|..] == [];
  }

  /** Leading segments that are not messages do not matter. */
  lemma {:induction false} IntactAfterPrefix(prefix: seq<Segment>, segments: seq<Segment>)
    requires forall i | 0 <= i < |prefix| :: !prefix[i].MessageSegment?
    ensures ExchangesIntact(prefix + segments) <==> ExchangesIntact(segments)
  {
    if prefix == [] {
      assert prefix + segments == segments;
    } else {
      IntactAfterPrefix(prefix[1..], segments);
      assert (prefix + segments)[1..] == prefix[1..] + segments;
    }
  }

  /** A projected transcript keeps every exchange whole exactly when its summary ends between groups. */
  lemma ProjectionIntact(transcript: seq<AgentMessage>, groups: seq<seq<AgentMessage>>,
                         summary: ContextSummary, data: seq<Segment>)
    requires Groups(transcript) == Ok(groups) && summary.sourceEnd <= |transcript|
    requires forall i | 0 <= i < |data| :: !data[i].MessageSegment?
    ensures ExchangesIntact(data + ProjectSegments(transcript, Some(summary)))
       <==> summary.sourceEnd in Boundaries(groups)
  {
    var tail := transcript[summary.sourceEnd..];
    assert data + ProjectSegments(transcript, Some(summary))
        == (data + [SummarySegment(summary.text)]) + MessageSegments(tail);
    IntactAfterPrefix(data + [SummarySegment(summary.text)], MessageSegments(tail));
    IntactMessages(tail);
    CutsAreBoundaries(transcript, groups, summary.sourceEnd);
  }

  // ---- Budget and summary validity.

  function MinNat(a: nat, b: nat): nat { if a <= b then a else b }

  function MaxNat(a: nat, b: nat): nat { if a >= b then a else b }

  /** Window minus reserve; only a positive rest is usable. */
  function InputBudget(budget: Budget, window: Option<nat>, maxOutput: Option<nat>, providerReserve: nat)
    : (r: Result<nat, Failure>)
    ensures r.Ok? ==>
      && r.value > 0
      && (budget.maxTokens.Some? ==> r.value + budget.reserve <= budget.maxTokens.value)
      && (window.Some? ==> r.value + budget.reserve <= window.value)
      && (window.Some? && maxOutput.Some? && maxOutput.value > 0 ==> r.value + maxOutput.value <= window.value)
  {
    if budget.maxTokens.None? && window.None? then Err(MissingWindow)
    else
      var effective :=
        if budget.maxTokens.None? then window.value
        else if window.None? then budget.maxTokens.value
        else MinNat(budget.maxTokens.value, window.value);
      var output := if maxOutput.Some? && maxOutput.value > 0 then maxOutput.value else providerReserve;
      var reserve := MaxNat(budget.reserve, output);
      if effective <= reserve then Err(ReserveExhaustsWindow) else Ok(effective - reserve)
  }

  predicate ValidSummary(summary: ContextSummary, transcript: seq<AgentMessage>, boundaries: seq<nat>,
                         formatVersion: nat)
  {
    && summary.formatVersion == formatVersion
    && summary.sourceEnd in boundaries
    && summary.sourceEnd <= |transcript|
    && summary.sourceDigest == MessageDigest(transcript[..summary.sourceEnd])
  }

  /** Group index from which the last `turns` user turns are kept; 0 when there are not that many. */
  function TailStartFrom(groups: seq<seq<AgentMessage>>, turns: nat, index: nat, seen: nat): nat
    requires index <= |groups| && forall i | 0 <= i < |groups| :: groups[i] != []
  {
    if index == 0 then 0
    else if groups[index - 1][0].UserMessage? then
      if seen + 1 == turns then index - 1 else TailStartFrom(groups, turns, index - 1, seen + 1)
    else TailStartFrom(groups, turns, index - 1, seen)
  }

  method MinimumTailStart(groups: seq<seq<AgentMessage>>, turns: nat) returns (r: nat)
    requires forall i | 0 <= i < |groups| :: groups[i] != []
    ensures r == TailStartFrom(groups, turns, |groups|, 0)
  {
    var seen, index := 0, |groups|;
    while index > 0
      invariant 0 <= index <= |groups|
      invariant TailStartFrom(groups, turns, |groups|, 0) == TailStartFrom(groups, turns, index, seen)
    {
      index := index - 1;
      if groups[index][0].UserMessage? {
        seen := seen + 1;
        if seen == turns {
          return index;
        }
      }
    }
    return 0;
  }

  function CountUsers(messages: seq<AgentMessage>): nat {
    if messages == [] then 0
    else (if messages[0].UserMessage? then 1 else 0) + CountUsers(messages[1..])
  }

  lemma {:induction false} CountUsersConcat(a: seq<AgentMessage>, b: seq<AgentMessage>)
    ensures CountUsers(a + b) == CountUsers(a) + CountUsers(b)
  {
    if a == [] {
      assert a + b == b;
    } else {
      CountUsersConcat(a[1..], b);
      assert (a + b)[1..] == a[1..] + b;
    }
  }

  lemma {:induction false} TailHoldsTurns(groups: seq<seq<AgentMessage>>, turns: nat, index: nat, seen: nat)
    requires index <= |groups| && forall i | 0 <= i < |groups| :: groups[i] != []
    requires seen < turns && CountUsers(Flatten(groups[index..])) >= seen
    ensures var start := TailStartFrom(groups, turns, index, seen);
      && start <= index
      && (start > 0 ==> CountUsers(Flatten(groups[start..])) >= turns)
  {
    if index > 0 {
      var group := groups[index - 1];
      SuffixStep(groups, index - 1);
      CountUsersConcat(group, Flatten(groups[index..]));
      if group[0].UserMessage? {
        if seen + 1 < turns {
          TailHoldsTurns(groups, turns, index - 1, seen + 1);
        }
      } else {
        TailHoldsTurns(groups, turns, index - 1, seen);
      }
    }
  }

  // ---- What `prepare` computes.

  function DataSegments(world: Option<seq<WorldEntry>>, kept: seq<WorldEntry>): (r: seq<Segment>)
    ensures forall i | 0 <= i < |r| :: r[i].WorldSegment?
  {
    match world
    case None => []
    case Some(all) => [WorldSegment(kept, |all| - |kept|)]
  }

  function MentionsOf(request: Request): seq<set<string>> {
    Mentions(request.transcript, request.tools, if request.world.Some? then Some(request.worldId) else None)
  }

  function RelevantOf(request: Request): set<string> {
    Relevant(MentionsOf(request), Dependencies(request.tools))
  }

  /** The world entries in rank order. */
  function WorldOf(request: Request): seq<WorldEntry> {
    if request.world.None? then []
    else Ordered(request.world.value, MentionsOf(request), Dependencies(request.tools))
  }

  method OrderWorld(request: Request) returns (ordered: seq<WorldEntry>)
    ensures ordered == WorldOf(request)
  {
    if request.world.None? {
      return [];
    }
    var entries := request.world.value;
    var order := RankEntries(entries, MentionsOf(request), Dependencies(request.tools));
    return Arranged(entries, order);
  }

  function ContextWith(request: Request, kept: seq<WorldEntry>, rest: seq<Segment>): ModelContext {
    ModelContext(request.prompt, DataSegments(request.world, kept) + rest)
  }

  function CostWith(services: Services, request: Request, rest: seq<Segment>): seq<WorldEntry> -> Option<nat> {
    kept => services.estimate(ContextWith(request, kept, rest))
  }

  function Target(limit: nat, ratio: real): (r: nat)
    requires limit > 0 && 0.0 < ratio <= 1.0
    ensures 1 <= r <= limit
  {
    TargetBound(limit, ratio);
    MaxNat(1, (limit as real * ratio).Floor)
  }

  lemma TargetBound(limit: nat, ratio: real)
    requires limit > 0 && 0.0 < ratio <= 1.0
    ensures 0 <= (limit as real * ratio).Floor <= limit
  {
    assert limit as real * ratio <= limit as real * 1.0;
  }

  /** The first group boundary whose projection under a stand-in summary meets the target. */
  function FirstEnd(services: Services, request: Request, kept: seq<WorldEntry>, placeholder: string,
                    target: nat, ends: seq<nat>): (r: Result<nat, Failure>)
    requires forall i | 0 <= i < |ends| :: ends[i] <= |request.transcript|
    ensures r.Ok? ==> r.value in ends
  {
    if ends == [] then Err(SummaryAndMinimumTail)
    else
      var rest := [SummarySegment(placeholder)] + MessageSegments(request.transcript[ends[0]..]);
      match services.estimate(ContextWith(request, kept, rest))
      case None => Err(TokenEstimation)
      case Some(tokens) =>
        if tokens <= target then Ok(ends[0])
        else FirstEnd(services, request, kept, placeholder, target, ends[1..])
  }

  /** Every retained group must fit by itself. */
  function GroupsFit(services: Services, request: Request, kept: seq<WorldEntry>, limit: nat,
                     tail: seq<seq<AgentMessage>>): Option<Failure>
  {
    if tail == [] then None
    else match services.estimate(ContextWith(request, kept, MessageSegments(tail[0])))
      case None => Some(TokenEstimation)
      case Some(tokens) =>
        if tokens > limit then Some(AtomicGroupTooLarge)
        else GroupsFit(services, request, kept, limit, tail[1..])
  }

  function EndsBetween(boundaries: seq<nat>, low: nat, high: nat): (r: seq<nat>)
    ensures forall i | 0 <= i < |r| :: r[i] in boundaries && low < r[i] <= high
  {
    if boundaries == [] then []
    else (if low < boundaries[0] <= high then [boundaries[0]] else []) + EndsBetween(boundaries[1..], low, high)
  }

  function Compact(config: Config, services: Services, request: Request, groups: seq<seq<AgentMessage>>,
                   current: Option<ContextSummary>, kept: seq<WorldEntry>, limit: nat)
    : Result<Prepared, Failure>
    requires config.Valid() && limit > 0 && Groups(request.transcript) == Ok(groups)
    requires forall i | 0 <= i < |groups| :: groups[i] != []
    requires current.Some? ==> current.value.sourceEnd <= |request.transcript|
  {
    var fixed := services.estimate(ContextWith(request, kept, []));
    if fixed.None? then Err(TokenEstimation)
    else if fixed.value > limit then Err(StaticOverhead)
    else
      var tailStart := TailStartFrom(groups, config.minRecentTurns, |groups|, 0);
      if tailStart == 0 then Err(MinimumTail)
      else
        TailInRange(groups, config.minRecentTurns, |groups|, 0);
        var oversized := GroupsFit(services, request, kept, limit, groups[tailStart..]);
        if oversized.Some? then Err(oversized.value)
        else
          var oldEnd := if current.Some? then current.value.sourceEnd else 0;
          var placeholder := if current.Some? then current.value.text else "Earlier conversation summary.";
          var target := Target(limit, config.targetRatio);
          TailEnd(request.transcript, groups, tailStart);
          var ends := EndsBetween(Boundaries(groups), oldEnd, BoundaryAt(groups, tailStart));
          match FirstEnd(services, request, kept, placeholder, target, ends)
          case Err(failure) => Err(failure)
          case Ok(end) => Summarise(config, services, request, current, kept, target, oldEnd, end)
  }

  function Summarise(config: Config, services: Services, request: Request, current: Option<ContextSummary>,
                     kept: seq<WorldEntry>, target: nat, oldEnd: nat, end: nat): Result<Prepared, Failure>
    requires oldEnd <= end <= |request.transcript|
  {
    var added := request.transcript[oldEnd..end];
    if !services.summarizerAccepts(current, added) then Err(SummarizerInputTooLarge)
    else match services.summarize(current, added)
      case None => Err(SummarizerFailure)
      case Some((text, summarizer)) =>
        var summary := ContextSummary(end, MessageDigest(request.transcript[..end]), text,
                                      config.formatVersion, summarizer);
        var context := ContextWith(request, kept, ProjectSegments(request.transcript, Some(summary)));
        match services.estimate(context)
        case None => Err(TokenEstimation)
        case Some(tokens) =>
          if tokens > target then Err(SummaryAndMinimumTail)
          else
            var expected := if request.compaction.Some? then Some(request.compaction.value.sourceDigest) else None;
            Ok(Prepared(context, Some(CompactionUpdate(Some(summary), expected))))
  }

  lemma TailInRange(groups: seq<seq<AgentMessage>>, turns: nat, index: nat, seen: nat)
    requires index <= |groups| && forall i | 0 <= i < |groups| :: groups[i] != []
    ensures TailStartFrom(groups, turns, index, seen) <= index
  {
  }

  lemma TailEnd(transcript: seq<AgentMessage>, groups: seq<seq<AgentMessage>>, tailStart: nat)
    requires Groups(transcript) == Ok(groups) && tailStart <= |groups|
    ensures BoundaryAt(groups, tailStart) <= |transcript|
  {
    GroupsLanguage(transcript);
    CutAtGroup(groups, tailStart);
  }

  /** The summary the request may still rely on, and the update that drops one it may not. */
  function UsableSummary(config: Config, request: Request, groups: seq<seq<AgentMessage>>)
    : (r: (Option<ContextSummary>, Option<CompactionUpdate>))
  {
    match request.compaction
    case None => (None, None)
    case Some(earlier) =>
      if ValidSummary(earlier, request.transcript, Boundaries(groups), config.formatVersion) then (Some(earlier), None)
      else (None, Some(CompactionUpdate(None, Some(earlier.sourceDigest))))
  }

  ghost function Prepare(config: Config, services: Services, request: Request): Result<Prepared, Failure>
    requires config.Valid()
  {
    match Groups(request.transcript)
    case Err(fault) => Err(BrokenExchange(fault))
    case Ok(groups) =>
      GroupsLanguage(request.transcript);
      match InputBudget(config.budget, request.window, request.maxOutput, config.providerReserve)
      case Err(failure) => Err(failure)
      case Ok(limit) => PrepareWithin(config, services, request, groups, limit)
  }

  ghost function PrepareWithin(config: Config, services: Services, request: Request,
                               groups: seq<seq<AgentMessage>>, limit: nat): Result<Prepared, Failure>
    requires config.Valid() && limit > 0 && Groups(request.transcript) == Ok(groups)
    requires forall i | 0 <= i < |groups| :: groups[i] != []
  {
    var (current, clear) := UsableSummary(config, request, groups);
    var rest := ProjectSegments(request.transcript, current);
    var protected := ProtectedKeys(WorldOf(request), RelevantOf(request));
    var bounded := Bounded(WorldOf(request), protected);
    match FitFrom(CostWith(services, request, rest), limit, bounded, protected, CountUnprotected(bounded, protected))
    case Err(_) => Err(TokenEstimation)
    case Ok(Some(k)) => Ok(Prepared(ContextWith(request, Keep(bounded, protected, k), rest), clear))
    case Ok(None) => Compact(config, services, request, groups, current, Keep(bounded, protected, 0), limit)
  }

  method PrepareContext(config: Config, services: Services, request: Request)
    returns (r: Result<Prepared, Failure>)
    requires config.Valid()
    ensures r == Prepare(config, services, request)
  {
    var grouped := MessageGroups(request.transcript);
    if grouped.Err? {
      return Err(BrokenExchange(grouped.error));
    }
    var groups := grouped.value;
    var boundaries := GroupBoundaries(groups);
    var current: Option<ContextSummary>, clear: Option<CompactionUpdate> := None, None;
    if request.compaction.Some? {
      var earlier := request.compaction.value;
      if ValidSummary(earlier, request.transcript, boundaries, config.formatVersion) {
        current := Some(earlier);
      } else {
        clear := Some(CompactionUpdate(None, Some(earlier.sourceDigest)));
      }
    }
    var ordered := OrderWorld(request);
    var protected := ProtectedKeys(ordered, RelevantOf(request));
    var entries := BoundedEntries(ordered, protected);
    var budget := InputBudget(config.budget, request.window, request.maxOutput, config.providerReserve);
    if budget.Err? {
      return Err(budget.error);
    }
    var limit := budget.value;
    var rest := ProjectSegments(request.transcript, current);
    var fits, kept, k := Trim(CostWith(services, request, rest), limit, entries, protected);
    if fits.Err? {
      return Err(TokenEstimation);
    }
    if fits.value {
      return Ok(Prepared(ContextWith(request, kept, rest), clear));
    }
    r := CompactContext(config, services, request, groups, boundaries, current, kept, limit);
  }

  method CompactContext(config: Config, services: Services, request: Request, groups: seq<seq<AgentMessage>>,
                        boundaries: seq<nat>, current: Option<ContextSummary>, kept: seq<WorldEntry>, limit: nat)
    returns (r: Result<Prepared, Failure>)
    requires config.Valid() && limit > 0 && Groups(request.transcript) == Ok(groups)
    requires forall i | 0 <= i < |groups| :: groups[i] != []
    requires boundaries == Boundaries(groups)
    requires current.Some? ==> current.value.sourceEnd <= |request.transcript|
    ensures r == Compact(config, services, request, groups, current, kept, limit)
  {
    var fixed := services.estimate(ContextWith(request, kept, []));
    if fixed.None? {
      return Err(TokenEstimation);
    }
    if fixed.value > limit {
      return Err(StaticOverhead);
    }
    var tailStart := MinimumTailStart(groups, config.minRecentTurns);
    if tailStart == 0 {
      return Err(MinimumTail);
    }
    TailInRange(groups, config.minRecentTurns, |groups|, 0);
    var oversized := CheckTailGroups(services, request, kept, limit, groups[tailStart..]);
    if oversized.Some? {
      return Err(oversized.value);
    }
    TailEnd(request.transcript, groups, tailStart);
    var oldEnd := if current.Some? then current.value.sourceEnd else 0;
    var placeholder := if current.Some? then current.value.text else "Earlier conversation summary.";
    var target := Target(limit, config.targetRatio);
    var ends := EndsBetween(boundaries, oldEnd, |Flatten(groups[..tailStart])|);
    var end := FindEnd(services, request, kept, placeholder, target, ends);
    if end.Err? {
      return Err(end.error);
    }
    r := Summarise(config, services, request, current, kept, target, oldEnd, end.value);
  }

  method CheckTailGroups(services: Services, request: Request, kept: seq<WorldEntry>, limit: nat,
                         tail: seq<seq<AgentMessage>>) returns (r: Option<Failure>)
    ensures r == GroupsFit(services, request, kept, limit, tail)
  {
    for index := 0 to |tail|
      invariant GroupsFit(services, request, kept, limit, tail)
             == GroupsFit(services, request, kept, limit, tail[index..])
    {
      assert tail[index..][1..] == tail[index + 1..];
      var tokens := services.estimate(ContextWith(request, kept, MessageSegments(tail[index])));
      if tokens.None? {
        return Some(TokenEstimation);
      }
      if tokens.value > limit {
        return Some(AtomicGroupTooLarge);
      }
    }
    return None;
  }

  method FindEnd(services: Services, request: Request, kept: seq<WorldEntry>, placeholder: string,
                 target: nat, ends: seq<nat>) returns (r: Result<nat, Failure>)
    requires forall i | 0 <= i < |ends| :: ends[i] <= |request.transcript|
    ensures r == FirstEnd(services, request, kept, placeholder, target, ends)
  {
    for index := 0 to |ends|
      invariant FirstEnd(services, request, kept, placeholder, target, ends)
             == FirstEnd(services, request, kept, placeholder, target, ends[index..])
    {
      assert ends[index..][1..] == ends[index + 1..];
      var projected := [SummarySegment(placeholder)] + MessageSegments(request.transcript[ends[index]..]);
      var tokens := services.estimate(ContextWith(request, kept, projected));
      if tokens.None? {
        return Err(TokenEstimation);
      }
      if tokens.value <= target {
        return Ok(ends[index]);
      }
    }
    return Err(SummaryAndMinimumTail);
  }

  // ---- Safety of what is prepared.

  ghost predicate FitsWithin(services: Services, context: ModelContext, limit: nat) {
    services.estimate(context).Some? && services.estimate(context).value <= limit
  }

  ghost function LimitOf(config: Config, request: Request): Result<nat, Failure> {
    InputBudget(config.budget, request.window, request.maxOutput, config.providerReserve)
  }

  /** The new summary a preparation proposes, if it proposes one. */
  ghost function NewSummary(prepared: Prepared): Option<ContextSummary> {
    if prepared.update.Some? then prepared.update.value.summary else None
  }

  ghost function ExpectedDigest(request: Request): Option<Digest> {
    if request.compaction.Some? then Some(request.compaction.value.sourceDigest) else None
  }

  /** `p` replaces exactly the prefix before `end` by a summary, and meets the target. */
  ghost predicate Replaces(p: Prepared, config: Config, services: Services, request: Request,
                           kept: seq<WorldEntry>, target: nat, end: nat)
  {
    && NewSummary(p).Some? && p.update.value.expected == ExpectedDigest(request)
    && var s := NewSummary(p).value;
       && s.sourceEnd == end <= |request.transcript|
       && s.sourceDigest == MessageDigest(request.transcript[..end])
       && s.formatVersion == config.formatVersion
       && p.context == ContextWith(request, kept, ProjectSegments(request.transcript, Some(s)))
       && FitsWithin(services, p.context, target)
  }

  lemma SummariseShape(config: Config, services: Services, request: Request, current: Option<ContextSummary>,
                       kept: seq<WorldEntry>, target: nat, oldEnd: nat, end: nat)
    requires oldEnd <= end <= |request.transcript|
    requires Summarise(config, services, request, current, kept, target, oldEnd, end).Ok?
    ensures Replaces(Summarise(config, services, request, current, kept, target, oldEnd, end).value,
                     config, services, request, kept, target, end)
  {
  }

  /** How compaction can succeed: one boundary past the earlier summary and before the kept tail. */
  lemma CompactShape(config: Config, services: Services, request: Request, groups: seq<seq<AgentMessage>>,
                     current: Option<ContextSummary>, kept: seq<WorldEntry>, limit: nat) returns (end: nat)
    requires config.Valid() && limit > 0 && Groups(request.transcript) == Ok(groups)
    requires forall i | 0 <= i < |groups| :: groups[i] != []
    requires current.Some? ==> current.value.sourceEnd <= |request.transcript|
    requires Compact(config, services, request, groups, current, kept, limit).Ok?
    ensures var tailStart := TailStartFrom(groups, config.minRecentTurns, |groups|, 0);
      && end in Boundaries(groups)
      && (if current.Some? then current.value.sourceEnd else 0) < end
      && 0 < tailStart <= |groups| && end <= BoundaryAt(groups, tailStart)
      && Replaces(Compact(config, services, request, groups, current, kept, limit).value,
                  config, services, request, kept, Target(limit, config.targetRatio), end)
  {
    TailInRange(groups, config.minRecentTurns, |groups|, 0);
    var tailStart := TailStartFrom(groups, config.minRecentTurns, |groups|, 0);
    TailEnd(request.transcript, groups, tailStart);
    var oldEnd := if current.Some? then current.value.sourceEnd else 0;
    var placeholder := if current.Some? then current.value.text else "Earlier conversation summary.";
    var target := Target(limit, config.targetRatio);
    var ends := EndsBetween(Boundaries(groups), oldEnd, BoundaryAt(groups, tailStart));
    end := FirstEnd(services, request, kept, placeholder, target, ends).value;
    SummariseShape(config, services, request, current, kept, target, oldEnd, end);
  }

  /** The two ways a preparation succeeds. */
  lemma PrepareCases(config: Config, services: Services, request: Request)
    returns (groups: seq<seq<AgentMessage>>, limit: nat, k: Option<nat>)
    requires config.Valid() && Prepare(config, services, request).Ok?
    ensures Groups(request.transcript) == Ok(groups) && LimitOf(config, request) == Ok(limit) && limit > 0
    ensures WellFormedGroups(groups) && Flatten(groups) == request.transcript
    ensures forall i | 0 <= i < |groups| :: groups[i] != []
    ensures var (current, clear) := UsableSummary(config, request, groups);
      var protected := ProtectedKeys(WorldOf(request), RelevantOf(request));
      var bounded := Bounded(WorldOf(request), protected);
      var cost := CostWith(services, request, ProjectSegments(request.transcript, current));
      && FitFrom(cost, limit, bounded, protected, CountUnprotected(bounded, protected)) == Ok(k)
      && Prepare(config, services, request) ==
           if k.Some? then
             Ok(Prepared(ContextWith(request, Keep(bounded, protected, k.value),
                                     ProjectSegments(request.transcript, current)), clear))
           else Compact(config, services, request, groups, current, Keep(bounded, protected, 0), limit)
  {
    GroupsLanguage(request.transcript);
    groups, limit := Groups(request.transcript).value, LimitOf(config, request).value;
    var (current, clear) := UsableSummary(config, request, groups);
    var protected := ProtectedKeys(WorldOf(request), RelevantOf(request));
    var bounded := Bounded(WorldOf(request), protected);
    var cost := CostWith(services, request, ProjectSegments(request.transcript, current));
    k := FitFrom(cost, limit, bounded, protected, CountUnprotected(bounded, protected)).value;
  }

  /** Every context handed to a model fits the window minus the reserve and splits no exchange. */
  lemma PreparedContextFits(config: Config, services: Services, request: Request)
    requires config.Valid() && Prepare(config, services, request).Ok?
    ensures var p := Prepare(config, services, request).value;
      && LimitOf(config, request).Ok?
      && FitsWithin(services, p.context, LimitOf(config, request).value)
      && ExchangesIntact(p.context.segments)
  {
    var groups, limit, best := PrepareCases(config, services, request);
    var (current, clear) := UsableSummary(config, request, groups);
    var protected := ProtectedKeys(WorldOf(request), RelevantOf(request));
    var bounded := Bounded(WorldOf(request), protected);
    var cost := CostWith(services, request, ProjectSegments(request.transcript, current));
    FitFromIsLargest(cost, limit, bounded, protected, CountUnprotected(bounded, protected));
    match best {
      case Some(k) =>
        var data := DataSegments(request.world, Keep(bounded, protected, k));
        if current.Some? {
          ProjectionIntact(request.transcript, groups, current.value, data);
        } else {
          IntactAfterPrefix(data, MessageSegments(request.transcript));
          IntactMessages(request.transcript);
        }
      case None =>
        var kept := Keep(bounded, protected, 0);
        var end := CompactShape(config, services, request, groups, current, kept, limit);
        var summary := NewSummary(Prepare(config, services, request).value).value;
        ProjectionIntact(request.transcript, groups, summary, DataSegments(request.world, kept));
    }
  }

  /** A new summary ends at a group boundary strictly past the usable earlier one, describes exactly
      the prefix it replaces, and leaves the required user turns verbatim. */
  lemma NewSummaryIsSafe(config: Config, services: Services, request: Request)
    requires config.Valid() && Prepare(config, services, request).Ok?
    requires NewSummary(Prepare(config, services, request).value).Some?
    ensures var s := NewSummary(Prepare(config, services, request).value).value;
      var groups := Groups(request.transcript);
      && groups.Ok?
      && ValidSummary(s, request.transcript, Boundaries(groups.value), config.formatVersion)
      && s.sourceEnd > 0
      && (UsableSummary(config, request, groups.value).0.Some? ==>
            request.compaction.value.sourceEnd < s.sourceEnd)
      && CountUsers(request.transcript[s.sourceEnd..]) >= config.minRecentTurns
      && Complete(request.transcript[s.sourceEnd..])
  {
    var groups, limit, best := PrepareCases(config, services, request);
    var (current, clear) := UsableSummary(config, request, groups);
    var protected := ProtectedKeys(WorldOf(request), RelevantOf(request));
    var kept := Keep(Bounded(WorldOf(request), protected), protected, 0);
    var end := CompactShape(config, services, request, groups, current, kept, limit);
    CutsAreBoundaries(request.transcript, groups, end);
    TailKeepsTurns(request.transcript, groups, config.minRecentTurns, end);
  }

  /** Whatever is cut before the kept tail, the tail's user turns remain. */
  lemma TailKeepsTurns(transcript: seq<AgentMessage>, groups: seq<seq<AgentMessage>>, turns: nat, end: nat)
    requires Flatten(groups) == transcript && turns > 0
    requires forall i | 0 <= i < |groups| :: groups[i] != []
    requires var tailStart := TailStartFrom(groups, turns, |groups|, 0);
      0 < tailStart <= |groups| && end <= BoundaryAt(groups, tailStart)
    ensures end <= |transcript| && CountUsers(transcript[end..]) >= turns
  {
    var tailStart := TailStartFrom(groups, turns, |groups|, 0);
    assert groups[|groups|..] == [];
    TailHoldsTurns(groups, turns, |groups|, 0);
    CutAtGroup(groups, tailStart);
    var cut := BoundaryAt(groups, tailStart);
    assert transcript[end..] == transcript[end..cut] + transcript[cut..];
    CountUsersConcat(transcript[end..cut], transcript[cut..]);
  }

  /** A valid summary stays valid when complete exchanges are appended to the transcript. */
  lemma SummaryStaysValid(config: Config, summary: ContextSummary, transcript: seq<AgentMessage>,
                          more: seq<AgentMessage>)
    requires Complete(transcript) && Complete(more)
    requires Groups(transcript).Ok?
    requires ValidSummary(summary, transcript, Boundaries(Groups(transcript).value), config.formatVersion)
    ensures Groups(transcript + more).Ok?
    ensures ValidSummary(summary, transcript + more, Boundaries(Groups(transcript + more).value),
                         config.formatVersion)
  {
    CompleteConcat(transcript, more);
    var groups, longer := Groups(transcript).value, Groups(transcript + more).value;
    CutsAreBoundaries(transcript, groups, summary.sourceEnd);
    assert (transcript + more)[..summary.sourceEnd] == transcript[..summary.sourceEnd];
    CutsAreBoundaries(transcript + more, longer, summary.sourceEnd);
  }

  /** The session's compaction state after it accepts the update of a preparation. */
  ghost function Committed(request: Request, prepared: Prepared): Request {
    if prepared.update.None? then request
    else request.(compaction := prepared.update.value.summary)
  }

  /** The update names the summary the session still holds, so the session accepts it. */
  lemma UpdateExpectsCurrent(config: Config, services: Services, request: Request)
    requires config.Valid() && Prepare(config, services, request).Ok?
    requires Prepare(config, services, request).value.update.Some?
    ensures Prepare(config, services, request).value.update.value.expected == ExpectedDigest(request)
  {
    var groups, limit, best := PrepareCases(config, services, request);
    if best.None? {
      var protected := ProtectedKeys(WorldOf(request), RelevantOf(request));
      var end := CompactShape(config, services, request, groups, UsableSummary(config, request, groups).0,
                              Keep(Bounded(WorldOf(request), protected), protected, 0), limit);
    }
  }

  /** Preparing again on the committed state needs no further update. Only an estimator that fails
      on some context can make the second preparation fail. */
  lemma PreparingAgainIsStable(config: Config, services: Services, request: Request)
    requires config.Valid() && Prepare(config, services, request).Ok?
    ensures var again := Prepare(config, services, Committed(request, Prepare(config, services, request).value));
      && (again.Ok? ==> again.value.update.None?)
      && (again.Err? ==> again.error == TokenEstimation)
      && ((forall context :: services.estimate(context).Some?) ==> again.Ok?)
  {
    var prepared := Prepare(config, services, request).value;
    var groups, limit, best := PrepareCases(config, services, request);
    if best.None? {
      var protected := ProtectedKeys(WorldOf(request), RelevantOf(request));
      var kept := Keep(Bounded(WorldOf(request), protected), protected, 0);
      var current := UsableSummary(config, request, groups).0;
      var end := CompactShape(config, services, request, groups, current, kept, limit);
      StableAfterSummary(config, services, request, groups, limit, prepared, end);
    } else {
      StableWithoutSummary(config, services, request, groups, limit, prepared, best.value);
    }
  }

  lemma StableAfterSummary(config: Config, services: Services, request: Request,
                           groups: seq<seq<AgentMessage>>, limit: nat, prepared: Prepared, end: nat)
    requires config.Valid() && Groups(request.transcript) == Ok(groups) && LimitOf(config, request) == Ok(limit)
    requires end in Boundaries(groups)
    requires var protected := ProtectedKeys(WorldOf(request), RelevantOf(request));
      Replaces(prepared, config, services, request, Keep(Bounded(WorldOf(request), protected), protected, 0),
               Target(limit, config.targetRatio), end)
    ensures var again := Prepare(config, services, Committed(request, prepared));
      && (again.Ok? ==> again.value.update.None?)
      && (again.Err? ==> again.error == TokenEstimation)
      && ((forall context :: services.estimate(context).Some?) ==> again.Ok?)
  {
    var later := Committed(request, prepared);
    GroupsLanguage(request.transcript);
    var protected := ProtectedKeys(WorldOf(request), RelevantOf(request));
    var bounded := Bounded(WorldOf(request), protected);
    var summary := NewSummary(prepared).value;
    assert UsableSummary(config, later, groups) == (Some(summary), None);
    var rest := ProjectSegments(request.transcript, Some(summary));
    var cost := CostWith(services, later, rest);
    assert ContextWith(later, Keep(bounded, protected, 0), rest) == prepared.context;
    assert Fits(cost, limit, bounded, protected, 0);
    var count := CountUnprotected(bounded, protected);
    if forall context :: services.estimate(context).Some? {
      forall kept ensures cost(kept).Some? {
        assert cost(kept) == services.estimate(ContextWith(later, kept, rest));
      }
      AlwaysEstimated(cost, limit, bounded, protected, count);
    }
    if FitFrom(cost, limit, bounded, protected, count).Ok? {
      FitFromIsLargest(cost, limit, bounded, protected, count);
    }
  }

  lemma StableWithoutSummary(config: Config, services: Services, request: Request,
                             groups: seq<seq<AgentMessage>>, limit: nat, prepared: Prepared, k: nat)
    requires config.Valid() && Groups(request.transcript) == Ok(groups) && LimitOf(config, request) == Ok(limit)
    requires var (current, clear) := UsableSummary(config, request, groups);
      var protected := ProtectedKeys(WorldOf(request), RelevantOf(request));
      var bounded := Bounded(WorldOf(request), protected);
      var rest := ProjectSegments(request.transcript, current);
      && FitFrom(CostWith(services, request, rest), limit, bounded, protected,
                 CountUnprotected(bounded, protected)) == Ok(Some(k))
      && prepared == Prepared(ContextWith(request, Keep(bounded, protected, k), rest), clear)
    ensures Prepare(config, services, Committed(request, prepared)) == Ok(Prepared(prepared.context, None))
  {
    var later := Committed(request, prepared);
    GroupsLanguage(request.transcript);
    var (current, clear) := UsableSummary(config, request, groups);
    assert UsableSummary(config, later, groups) == (current, None);
    var protected := ProtectedKeys(WorldOf(request), RelevantOf(request));
    var bounded := Bounded(WorldOf(request), protected);
    var rest := ProjectSegments(request.transcript, current);
    var cost, again := CostWith(services, request, rest), CostWith(services, later, rest);
    forall kept ensures cost(kept) == again(kept) {
      assert ContextWith(later, kept, rest) == ContextWith(request, kept, rest);
      assert cost(kept) == services.estimate(ContextWith(request, kept, rest));
      assert again(kept) == services.estimate(ContextWith(later, kept, rest));
    }
    SameScan(cost, again, limit, bounded, protected, CountUnprotected(bounded, protected));
  }

  lemma {:induction false} AlwaysEstimated(cost: seq<WorldEntry> -> Option<nat>, limit: nat,
                                           entries: seq<WorldEntry>, protected: set<string>, k: nat)
    requires forall kept :: cost(kept).Some?
    ensures FitFrom(cost, limit, entries, protected, k).Ok?
  {
    if k > 0 {
      AlwaysEstimated(cost, limit, entries, protected, k - 1);
    }
  }

  lemma {:induction false} SameScan(a: seq<WorldEntry> -> Option<nat>, b: seq<WorldEntry> -> Option<nat>, limit: nat,
                                    entries: seq<WorldEntry>, protected: set<string>, k: nat)
    requires forall kept :: a(kept) == b(kept)
    ensures FitFrom(a, limit, entries, protected, k) == FitFrom(b, limit, entries, protected, k)
  {
    if k > 0 {
      SameScan(a, b, limit, entries, protected, k - 1);
    }
  }
}

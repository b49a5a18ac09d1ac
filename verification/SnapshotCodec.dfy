/** Session snapshots: encoding, strict decoding and restoring
    (roboagent/agent/persistence.py, roboagent/agent/session.py). */
module SnapshotCodec {
  import opened Basics
  import opened Messages
  import opened CanonicalData
  import opened Transcript
  import opened Compaction

  const SCHEMA_VERSION := 2
  const MIN_SUPPORTED_SCHEMA_VERSION := 1

  datatype CodecError = Corrupted | VersionUnsupported | InlineMediaTooLarge

  datatype InputReceipt = InputReceipt(inputId: string, sequence: int, sessionId: string)

  datatype InputKind = Steer | FollowUp

  datatype PendingInput = PendingInput(receipt: InputReceipt, message: AgentMessage, kind: InputKind)

  datatype SessionSnapshot = SessionSnapshot(
    schemaVersion: int, sessionId: string, revision: int, lastPendingSequence: int,
    messages: seq<AgentMessage>, pending: seq<PendingInput>,
    compaction: Option<ContextSummary>, metadata: seq<Member>)

  /** What the constructors of the message classes check and the codec does not repeat:
      field syntax, white space, normal form of error messages, and the identity
      given to a record of the first schema version. */
  datatype Constructors = Constructors(
    content: Content -> bool,
    blank: string -> bool,
    toolError: ToolError -> Option<ToolError>,
    mint: Tree -> string)

  // ---- Encoding.

  /** Member order survives because an object is written as a list of entries. */
  function EncodeJson(value: Json): Tree
    decreases value
  {
    match value
    case JNull => Dict(map["type" := Str("scalar"), "value" := Null])
    case JBool(b) => Dict(map["type" := Str("scalar"), "value" := Bool(b)])
    case JInt(n) => Dict(map["type" := Str("scalar"), "value" := Int(n)])
    case JFloat(x) => Dict(map["type" := Str("scalar"), "value" := Float(x)])
    case JStr(s) => Dict(map["type" := Str("scalar"), "value" := Str(s)])
    case JArray(items) => Dict(map["type" := Str("array"), "items" := List(EncodeItems(items))])
    case JObject(members) => Dict(map["type" := Str("object"), "entries" := List(EncodeEntries(members))])
  }

  function EncodeItems(items: seq<Json>): seq<Tree>
    decreases items
  {
    if items == [] then [] else [EncodeJson(items[0])] + EncodeItems(items[1..])
  }

  function EncodeEntries(members: seq<Member>): seq<Tree>
    decreases members
  {
    if members == [] then []
    else
      var head := members[0];
      assert head in members;
      [List([Str(head.key), EncodeJson(head.value)])] + EncodeEntries(members[1..])
  }

  function EncodeContent(content: Content): Tree {
    match content
    case TextContent(text) => Dict(map["type" := Str("text"), "text" := Str(text)])
    case JsonContent(value) => Dict(map["type" := Str("json"), "value" := EncodeJson(value)])
    case ArtifactContent(uri, mediaType, size, digest, preview) =>
      Dict(map["type" := Str("artifact_reference"), "uri" := Str(uri), "media_type" := OptionalText(mediaType),
               "size" := Int(size), "digest" := Str(digest), "preview" := OptionalText(preview)])
    case MediaContent(kind, source, mediaType, note) =>
      Dict(map["type" := Str(KindName(kind)), "source" := EncodeSource(source),
               "media_type" := OptionalText(mediaType), NoteName(kind) := OptionalText(note)])
  }

  function EncodeSource(source: MediaSource): Tree {
    match source
    case BytesSource(data) =>
      Dict(map["type" := Str("bytes"), "encoding" := Str("base64"), "data" := Base64(data)])
    case FileSource(path) => Dict(map["type" := Str("file"), "path" := Str(path)])
    case UrlSource(url) => Dict(map["type" := Str("url"), "url" := Str(url)])
  }

  function EncodeCall(call: ToolCall): Tree {
    Dict(map["id" := Str(call.id), "name" := Str(call.name), "arguments" := EncodeJson(JObject(call.arguments))])
  }

  function TypeName(message: AgentMessage): string {
    match message
    case UserMessage(_, _, _) => "user_message"
    case AssistantMessage(_, _, _, _, _) => "assistant_message"
    case ToolResultMessage(_, _, _, _, _, _, _) => "tool_message"
  }

  function EncodeMessage(message: AgentMessage): Tree {
    var shared := map["type" := Str(TypeName(message)), "message_id" := Str(message.messageId),
                      "timestamp" := Float(message.timestamp),
                      "content" := List(seq(|message.content|,
                        i requires 0 <= i < |message.content| => EncodeContent(message.content[i])))];
    match message
    case UserMessage(_, _, _) => Dict(shared)
    case AssistantMessage(_, calls, reasoning, _, _) =>
      var body := shared["tool_calls" := List(seq(|calls|, i requires 0 <= i < |calls| => EncodeCall(calls[i])))];
      Dict(if reasoning.Some? then body["reasoning_content" := Str(reasoning.value)] else body)
    case ToolResultMessage(callId, name, status, _, error, _, _) =>
      Dict(shared["tool_call_id" := Str(callId)]["tool_name" := Str(name)]
                 ["status" := Str(StatusName(status))]["error" := ErrorData(error)])
  }

  function EncodePending(item: PendingInput): Tree {
    Dict(map["receipt" := Dict(map["input_id" := Str(item.receipt.inputId), "sequence" := Int(item.receipt.sequence),
                                   "session_id" := Str(item.receipt.sessionId)]),
             "message" := EncodeMessage(item.message),
             "kind" := Str(if item.kind.Steer? then "steer" else "follow_up")])
  }

  function DigestText(digest: Digest): Tree {
    match digest
    case Digest(values) => Sha256(values)
    case Foreign(text) => Str(text)
  }

  /** Any non-empty string may stand for a digest; one that is none matches no transcript. */
  function DigestOf(value: Tree): Result<Digest, CodecError> {
    match value
    case Sha256(values) => Ok(Digest(values))
    case Str(text) => if text != "" then Ok(Foreign(text)) else Err(Corrupted)
    case _ => Err(Corrupted)
  }

  function EncodeCompaction(summary: Option<ContextSummary>): Tree {
    match summary
    case None => Null
    case Some(s) =>
      Dict(map["source_start" := Int(0), "source_end_exclusive" := Int(s.sourceEnd),
               "source_digest" := DigestText(s.sourceDigest), "text" := Str(s.text),
               "summary_format_version" := Int(s.formatVersion), "summarizer_id" := OptionalText(s.summarizerId)])
  }

  predicate InlineWithin(message: AgentMessage, maxInline: nat) {
    forall i | 0 <= i < |message.content| ::
      message.content[i].MediaContent? && message.content[i].source.BytesSource? ==>
        |message.content[i].source.data| <= maxInline
  }

  predicate SnapshotInlineWithin(snapshot: SessionSnapshot, maxInline: nat) {
    && (forall i | 0 <= i < |snapshot.messages| :: InlineWithin(snapshot.messages[i], maxInline))
    && (forall i | 0 <= i < |snapshot.pending| :: InlineWithin(snapshot.pending[i].message, maxInline))
  }

  function SnapshotMembers(snapshot: SessionSnapshot): map<string, Tree> {
    map["schema_version" := Int(snapshot.schemaVersion),
        "session_id" := Str(snapshot.sessionId),
        "revision" := Int(snapshot.revision),
        "last_pending_sequence" := Int(snapshot.lastPendingSequence),
        "messages" := List(seq(|snapshot.messages|, i requires 0 <= i < |snapshot.messages| =>
                                 EncodeMessage(snapshot.messages[i]))),
        "pending" := List(seq(|snapshot.pending|, i requires 0 <= i < |snapshot.pending| =>
                                EncodePending(snapshot.pending[i]))),
        "compaction" := EncodeCompaction(snapshot.compaction),
        "metadata" := EncodeJson(JObject(snapshot.metadata))]
  }

  function Encode(snapshot: SessionSnapshot, maxInline: nat): Result<Tree, CodecError> {
    if SnapshotInlineWithin(snapshot, maxInline) then Ok(Dict(SnapshotMembers(snapshot)))
    else Err(InlineMediaTooLarge)
  }

  // ---- Decoding.

  function Entry(members: map<string, Tree>, key: string): (r: Result<Tree, CodecError>)
    ensures r.Ok? ==> key in members && r.value == members[key]
  {
    if key in members then Ok(members[key]) else Err(Corrupted)
  }

  function TextOf(value: Tree): Result<string, CodecError> {
    if value.Str? then Ok(value.text) else Err(Corrupted)
  }

  function NonEmpty(value: Tree): Result<string, CodecError> {
    if value.Str? && value.text != "" then Ok(value.text) else Err(Corrupted)
  }

  /** A member that may be missing or null. */
  function OptionalMember(members: map<string, Tree>, key: string): Result<Option<string>, CodecError> {
    if key !in members || members[key].Null? then Ok(None)
    else if members[key].Str? then Ok(Some(members[key].text))
    else Err(Corrupted)
  }

  function DecodeJson(value: Tree): Result<Json, CodecError>
    decreases value
  {
    if !value.Dict? || "type" !in value.members then Err(Corrupted)
    else if value.members["type"] == Str("scalar") then
      var scalar :- Entry(value.members, "value");
      (match scalar
       case Null => Ok(JNull)
       case Bool(b) => Ok(JBool(b))
       case Int(n) => Ok(JInt(n))
       case Float(x) => Ok(JFloat(x))
       case Str(s) => Ok(JStr(s))
       case _ => Err(Corrupted))
    else if value.members["type"] == Str("array") then
      if "items" !in value.members || !value.members["items"].List? then Err(Corrupted)
      else
        var items :- DecodeItems(value.members["items"].items);
        Ok(JArray(items))
    else if value.members["type"] == Str("object") then
      if "entries" !in value.members || !value.members["entries"].List? then Err(Corrupted)
      else
        var members :- DecodeEntries(value.members["entries"].items);
        if DistinctKeys(members) then Ok(JObject(members)) else Err(Corrupted)
    else Err(Corrupted)
  }

  function DecodeItems(items: seq<Tree>): Result<seq<Json>, CodecError>
    decreases items
  {
    if items == [] then Ok([])
    else
      var head :- DecodeJson(items[0]);
      var rest :- DecodeItems(items[1..]);
      Ok([head] + rest)
  }

  function DecodeEntries(entries: seq<Tree>): Result<seq<Member>, CodecError>
    decreases entries
  {
    if entries == [] then Ok([])
    else
      var head := entries[0];
      assert head in entries;
      if !(head.List? && |head.items| == 2 && head.items[0].Str?) then Err(Corrupted)
      else
        var value :- DecodeJson(head.items[1]);
        var rest :- DecodeEntries(entries[1..]);
        Ok([Member(head.items[0].text, value)] + rest)
  }

  /** The frozen object refuses a repeated key. */
  predicate DistinctKeys(members: seq<Member>) {
    forall i, j | 0 <= i < j < |members| :: members[i].key != members[j].key
  }

  function DecodeSource(value: Tree, maxInline: nat): Result<MediaSource, CodecError> {
    if !value.Dict? || "type" !in value.members then Err(Corrupted)
    else if value.members["type"] == Str("bytes") then
      var encoding :- Entry(value.members, "encoding");
      var payload :- Entry(value.members, "data");
      if encoding != Str("base64") || !payload.Base64? || |payload.data| > maxInline then Err(Corrupted)
      else Ok(BytesSource(payload.data))
    else if value.members["type"] == Str("file") then
      var path :- Entry(value.members, "path");
      var text :- TextOf(path);
      Ok(FileSource(text))
    else if value.members["type"] == Str("url") then
      var url :- Entry(value.members, "url");
      var text :- TextOf(url);
      Ok(UrlSource(text))
    else Err(Corrupted)
  }

  function Constructed(make: Constructors, content: Content): Result<Content, CodecError> {
    if make.content(content) then Ok(content) else Err(Corrupted)
  }

  function DecodeMedia(make: Constructors, kind: MediaKind, members: map<string, Tree>, maxInline: nat)
    : Result<Content, CodecError>
  {
    var sourceData :- Entry(members, "source");
    var source :- DecodeSource(sourceData, maxInline);
    var mediaType :- OptionalMember(members, "media_type");
    var note :- OptionalMember(members, NoteName(kind));
    Constructed(make, MediaContent(kind, source, mediaType, note))
  }

  function DecodeText(make: Constructors, members: map<string, Tree>): Result<Content, CodecError> {
    var field :- Entry(members, "text");
    var text :- TextOf(field);
    Constructed(make, TextContent(text))
  }

  function DecodeJsonContent(make: Constructors, members: map<string, Tree>): Result<Content, CodecError> {
    var field :- Entry(members, "value");
    var json :- DecodeJson(field);
    Constructed(make, JsonContent(json))
  }

  function DecodeArtifact(make: Constructors, members: map<string, Tree>): Result<Content, CodecError> {
    var uriField :- Entry(members, "uri");
    var uri :- TextOf(uriField);
    var mediaType :- OptionalMember(members, "media_type");
    var size :- Entry(members, "size");
    var digestField :- Entry(members, "digest");
    var digest :- TextOf(digestField);
    var preview :- OptionalMember(members, "preview");
    if !size.Int? || size.whole < 0 then Err(Corrupted)
    else Constructed(make, ArtifactContent(uri, mediaType, size.whole, digest, preview))
  }

  function DecodeContent(make: Constructors, value: Tree, maxInline: nat): Result<Content, CodecError> {
    if !value.Dict? || "type" !in value.members || !value.members["type"].Str? then Err(Corrupted)
    else
      var kind := value.members["type"].text;
      if kind == "text" then DecodeText(make, value.members)
      else if kind == "json" then DecodeJsonContent(make, value.members)
      else if kind == "artifact_reference" then DecodeArtifact(make, value.members)
      else if kind == "image" then DecodeMedia(make, Image, value.members, maxInline)
      else if kind == "audio" then DecodeMedia(make, Audio, value.members, maxInline)
      else if kind == "file" then DecodeMedia(make, File, value.members, maxInline)
      else Err(Corrupted)
  }

  function DecodeContents(make: Constructors, values: seq<Tree>, maxInline: nat): Result<seq<Content>, CodecError> {
    if values == [] then Ok([])
    else
      var head :- DecodeContent(make, values[0], maxInline);
      var rest :- DecodeContents(make, values[1..], maxInline);
      Ok([head] + rest)
  }

  function DecodeCall(value: Tree): Result<ToolCall, CodecError> {
    if !value.Dict? then Err(Corrupted)
    else
      var argumentField :- Entry(value.members, "arguments");
      var arguments :- DecodeJson(argumentField);
      var idField :- Entry(value.members, "id");
      var id :- NonEmpty(idField);
      var nameField :- Entry(value.members, "name");
      var name :- NonEmpty(nameField);
      if arguments.JObject? then Ok(ToolCall(id, name, arguments.members)) else Err(Corrupted)
  }

  function DecodeCalls(values: seq<Tree>): Result<seq<ToolCall>, CodecError> {
    if values == [] then Ok([])
    else
      var head :- DecodeCall(values[0]);
      var rest :- DecodeCalls(values[1..]);
      Ok([head] + rest)
  }

  predicate DistinctIds(calls: seq<ToolCall>) {
    forall i, j | 0 <= i < j < |calls| :: calls[i].id != calls[j].id
  }

  function DecodeToolError(make: Constructors, value: Tree): Result<Option<ToolError>, CodecError> {
    if value.Null? then Ok(None)
    else if !value.Dict? || !(value.members.Keys <= {"code", "message", "retryable"}) then Err(Corrupted)
    else
      var codeField :- Entry(value.members, "code");
      var code :- TextOf(codeField);
      var messageField :- Entry(value.members, "message");
      var message :- TextOf(messageField);
      var retryable := if "retryable" in value.members then value.members["retryable"] else Bool(false);
      if !retryable.Bool? then Err(Corrupted)
      else match make.toolError(ToolError(code, message, retryable.flag))
        case None => Err(Corrupted)
        case Some(error) => Ok(Some(error))
  }

  /** The constructor of a user message wants text that is not blank, or media. */
  predicate HasSubstance(make: Constructors, content: seq<Content>) {
    exists i | 0 <= i < |content| :: !content[i].TextContent? || !make.blank(content[i].text)
  }

  datatype Header = Header(content: seq<Content>, time: real, messageId: string)

  /** The fields every message record shares; a record without an identity is given one. */
  function DecodeHeader(make: Constructors, value: Tree, maxInline: nat): Result<Header, CodecError>
    requires value.Dict?
  {
    var contentField :- Entry(value.members, "content");
    var timeField :- Entry(value.members, "timestamp");
    if !contentField.List? || !(timeField.Int? || timeField.Float?) then Err(Corrupted)
    else
      var time := if timeField.Int? then timeField.whole as real else timeField.number;
      var content :- DecodeContents(make, contentField.items, maxInline);
      if "message_id" !in value.members || value.members["message_id"].Null?
      then Ok(Header(content, time, make.mint(value)))
      else
        var messageId :- NonEmpty(value.members["message_id"]);
        Ok(Header(content, time, messageId))
  }

  function DecodeBody(make: Constructors, members: map<string, Tree>, header: Header, limits: MediaLimits)
    : Result<AgentMessage, CodecError>
  {
    if !WithinLimits(header.content, limits) || "type" !in members || !members["type"].Str? then Err(Corrupted)
    else
      var kind := members["type"].text;
      if kind == "user_message" then
        if HasSubstance(make, header.content) then Ok(UserMessage(header.content, header.time, header.messageId))
        else Err(Corrupted)
      else if kind == "assistant_message" then
        DecodeAssistant(members, header.content, header.time, header.messageId)
      else if kind == "tool_message" then
        DecodeToolResult(make, members, header.content, header.time, header.messageId)
      else Err(Corrupted)
  }

  function DecodeMessage(make: Constructors, value: Tree, maxInline: nat, limits: MediaLimits)
    : Result<AgentMessage, CodecError>
  {
    if !value.Dict? then Err(Corrupted)
    else
      var header :- DecodeHeader(make, value, maxInline);
      DecodeBody(make, value.members, header, limits)
  }

  function DecodeAssistant(members: map<string, Tree>, content: seq<Content>, time: real, messageId: string)
    : Result<AgentMessage, CodecError>
  {
    var callField := if "tool_calls" in members then members["tool_calls"] else List([]);
    if !callField.List? then Err(Corrupted)
    else
      var calls :- DecodeCalls(callField.items);
      var reasoning :- OptionalMember(members, "reasoning_content");
      if DistinctIds(calls) then Ok(AssistantMessage(content, calls, reasoning, time, messageId)) else Err(Corrupted)
  }

  function DecodeToolResult(make: Constructors, members: map<string, Tree>, content: seq<Content>, time: real,
                            messageId: string): Result<AgentMessage, CodecError>
  {
    var status :- Entry(members, "status");
    var error :- DecodeToolError(make, if "error" in members then members["error"] else Null);
    var callField :- Entry(members, "tool_call_id");
    var callId :- NonEmpty(callField);
    var nameField :- Entry(members, "tool_name");
    var name :- NonEmpty(nameField);
    if status == Str("success") && error.None? then
      Ok(ToolResultMessage(callId, name, Success, content, error, time, messageId))
    else if status == Str("error") && error.Some? then
      Ok(ToolResultMessage(callId, name, Error, content, error, time, messageId))
    else Err(Corrupted)
  }

  function DecodeMessages(make: Constructors, values: seq<Tree>, maxInline: nat, limits: MediaLimits)
    : Result<seq<AgentMessage>, CodecError>
  {
    if values == [] then Ok([])
    else
      var head :- DecodeMessage(make, values[0], maxInline, limits);
      var rest :- DecodeMessages(make, values[1..], maxInline, limits);
      Ok([head] + rest)
  }

  function DecodeReceipt(value: Tree): Result<InputReceipt, CodecError> {
    if !value.Dict? || value.members.Keys != {"input_id", "sequence", "session_id"} then Err(Corrupted)
    else
      var inputId :- NonEmpty(value.members["input_id"]);
      var sessionId :- NonEmpty(value.members["session_id"]);
      var sequence := value.members["sequence"];
      if !sequence.Int? || sequence.whole < 1 then Err(Corrupted)
      else Ok(InputReceipt(inputId, sequence.whole, sessionId))
  }

  function DecodePending(make: Constructors, value: Tree, maxInline: nat, limits: MediaLimits)
    : Result<PendingInput, CodecError>
  {
    if !value.Dict? then Err(Corrupted)
    else
      var messageField :- Entry(value.members, "message");
      var message :- DecodeMessage(make, messageField, maxInline, limits);
      var receiptField :- Entry(value.members, "receipt");
      var receipt :- DecodeReceipt(receiptField);
      var kind :- Entry(value.members, "kind");
      if !message.UserMessage? then Err(Corrupted)
      else if kind == Str("steer") then Ok(PendingInput(receipt, message, Steer))
      else if kind == Str("follow_up") then Ok(PendingInput(receipt, message, FollowUp))
      else Err(Corrupted)
  }

  function DecodePendings(make: Constructors, values: seq<Tree>, maxInline: nat, limits: MediaLimits)
    : Result<seq<PendingInput>, CodecError>
  {
    if values == [] then Ok([])
    else
      var head :- DecodePending(make, values[0], maxInline, limits);
      var rest :- DecodePendings(make, values[1..], maxInline, limits);
      Ok([head] + rest)
  }

  const SUMMARY_KEYS := {"source_start", "source_end_exclusive", "source_digest", "text",
                         "summary_format_version", "summarizer_id"}

  function DecodeCompaction(value: Tree): Result<Option<ContextSummary>, CodecError> {
    if value.Null? then Ok(None)
    else if !value.Dict? || !(value.members.Keys <= SUMMARY_KEYS) then Err(Corrupted)
    else
      var start :- Entry(value.members, "source_start");
      var end :- Entry(value.members, "source_end_exclusive");
      var digestField :- Entry(value.members, "source_digest");
      var digest :- DigestOf(digestField);
      var textField :- Entry(value.members, "text");
      var text :- TextOf(textField);
      var version :- Entry(value.members, "summary_format_version");
      var summarizer :- OptionalMember(value.members, "summarizer_id");
      if start != Int(0) || !end.Int? || end.whole < 0 || !version.Int? || version.whole < 1
         || summarizer == Some("")
      then Err(Corrupted)
      else Ok(Some(ContextSummary(end.whole, digest, text, version.whole, summarizer)))
  }

  function DecodeList(members: map<string, Tree>, key: string): Result<seq<Tree>, CodecError> {
    var field :- Entry(members, key);
    if field.List? then Ok(field.items) else Err(Corrupted)
  }

  function DecodeCount(members: map<string, Tree>, key: string): Result<int, CodecError> {
    var field :- Entry(members, key);
    if field.Int? && field.whole >= 0 then Ok(field.whole) else Err(Corrupted)
  }

  function DecodeMetadata(members: map<string, Tree>): Result<seq<Member>, CodecError> {
    var field :- Entry(members, "metadata");
    var value :- DecodeJson(field);
    if value.JObject? then Ok(value.members) else Err(Corrupted)
  }

  function DecodeSessionId(members: map<string, Tree>): Result<string, CodecError> {
    var field :- Entry(members, "session_id");
    NonEmpty(field)
  }

  predicate SupportedVersion(members: map<string, Tree>) {
    && "schema_version" in members && members["schema_version"].Int?
    && MIN_SUPPORTED_SCHEMA_VERSION <= members["schema_version"].whole <= SCHEMA_VERSION
  }

  function Decode(make: Constructors, value: Tree, maxInline: nat, limits: MediaLimits)
    : Result<SessionSnapshot, CodecError>
  {
    if !value.Dict? then Err(Corrupted)
    else if !SupportedVersion(value.members) then Err(VersionUnsupported)
    else
      var messageItems :- DecodeList(value.members, "messages");
      var messages :- DecodeMessages(make, messageItems, maxInline, limits);
      var pendingItems :- DecodeList(value.members, "pending");
      var pending :- DecodePendings(make, pendingItems, maxInline, limits);
      var compaction :- DecodeCompaction(if "compaction" in value.members then value.members["compaction"] else Null);
      var metadata :- DecodeMetadata(value.members);
      var sessionId :- DecodeSessionId(value.members);
      var revision :- DecodeCount(value.members, "revision");
      var sequence :- DecodeCount(value.members, "last_pending_sequence");
      Ok(SessionSnapshot(SCHEMA_VERSION, sessionId, revision, sequence, messages, pending, compaction, metadata))
  }

  // ---- Round trip.

  /** Frozen JSON never repeats a key. */
  predicate Frozen(value: Json)
    decreases value
  {
    match value
    case JArray(items) => forall i | 0 <= i < |items| :: Frozen(items[i])
    case JObject(members) => DistinctKeys(members) && forall i | 0 <= i < |members| :: Frozen(members[i].value)
    case _ => true
  }

  lemma {:induction false} JsonRoundTrip(value: Json)
    requires Frozen(value)
    ensures DecodeJson(EncodeJson(value)) == Ok(value)
    decreases value, 0
  {
    match value {
      case JArray(items) => ItemsRoundTrip(items);
      case JObject(members) => EntriesRoundTrip(members);
      case _ =>
    }
  }

  lemma {:induction false} ItemsRoundTrip(items: seq<Json>)
    requires forall i | 0 <= i < |items| :: Frozen(items[i])
    ensures DecodeItems(EncodeItems(items)) == Ok(items)
    decreases items, 1
  {
    if items != [] {
      JsonRoundTrip(items[0]);
      ItemsRoundTrip(items[1..]);
      assert EncodeItems(items)[1..] == EncodeItems(items[1..]);
      assert [items[0]] + items[1..] == items;
    }
  }

  lemma {:induction false} EntriesRoundTrip(members: seq<Member>)
    requires forall i | 0 <= i < |members| :: Frozen(members[i].value)
    ensures DecodeEntries(EncodeEntries(members)) == Ok(members)
    decreases members, 1
  {
    if members != [] {
      var head := members[0];
      assert head in members;
      JsonRoundTrip(head.value);
      EntriesRoundTrip(members[1..]);
      assert EncodeEntries(members)[1..] == EncodeEntries(members[1..]);
      assert [Member(head.key, head.value)] + members[1..] == members;
    }
  }

  predicate CanonicalContent(make: Constructors, content: Content, maxInline: nat) {
    && make.content(content)
    && (content.JsonContent? ==> Frozen(content.value))
    && (content.ArtifactContent? ==> content.size >= 0)
    && (content.MediaContent? && content.source.BytesSource? ==> |content.source.data| <= maxInline)
  }

  predicate CanonicalCall(call: ToolCall) {
    call.id != "" && call.name != "" && Frozen(JObject(call.arguments))
  }

  /** What holds of every message the constructors built. */
  predicate CanonicalMessage(make: Constructors, message: AgentMessage, maxInline: nat, limits: MediaLimits) {
    && message.messageId != ""
    && WithinLimits(message.content, limits)
    && (forall i | 0 <= i < |message.content| :: CanonicalContent(make, message.content[i], maxInline))
    && match message
       case UserMessage(content, _, _) => HasSubstance(make, content)
       case AssistantMessage(_, calls, _, _, _) =>
         DistinctIds(calls) && forall i | 0 <= i < |calls| :: CanonicalCall(calls[i])
       case ToolResultMessage(callId, name, status, _, error, _, _) =>
         && callId != "" && name != "" && (status.Success? <==> error.None?)
         && (error.Some? ==> make.toolError(error.value) == Some(error.value))
  }

  lemma SourceRoundTrip(source: MediaSource, maxInline: nat)
    requires source.BytesSource? ==> |source.data| <= maxInline
    ensures DecodeSource(EncodeSource(source), maxInline) == Ok(source)
  {
  }

  lemma MediaRoundTrip(make: Constructors, content: Content, maxInline: nat)
    requires content.MediaContent? && CanonicalContent(make, content, maxInline)
    ensures DecodeMedia(make, content.kind, EncodeContent(content).members, maxInline) == Ok(content)
  {
    SourceRoundTrip(content.source, maxInline);
    var members := EncodeContent(content).members;
    assert members["source"] == EncodeSource(content.source);
    assert OptionalMember(members, "media_type") == Ok(content.mediaType);
    assert OptionalMember(members, NoteName(content.kind)) == Ok(content.note);
  }

  lemma ArtifactRoundTrip(make: Constructors, content: Content, maxInline: nat)
    requires content.ArtifactContent? && CanonicalContent(make, content, maxInline)
    ensures DecodeArtifact(make, EncodeContent(content).members) == Ok(content)
  {
    var members := EncodeContent(content).members;
    assert OptionalMember(members, "media_type") == Ok(content.mediaType);
    assert OptionalMember(members, "preview") == Ok(content.preview);
  }

  lemma ContentRoundTrip(make: Constructors, content: Content, maxInline: nat)
    requires CanonicalContent(make, content, maxInline)
    ensures DecodeContent(make, EncodeContent(content), maxInline) == Ok(content)
  {
    match content {
      case TextContent(_) =>
      case JsonContent(value) => JsonRoundTrip(value);
      case ArtifactContent(_, _, _, _, _) => ArtifactRoundTrip(make, content, maxInline);
      case MediaContent(_, _, _, _) => MediaRoundTrip(make, content, maxInline);
    }
  }

  lemma {:induction false} ContentsRoundTrip(make: Constructors, contents: seq<Content>, values: seq<Tree>,
                                             maxInline: nat)
    requires |values| == |contents|
    requires forall i | 0 <= i < |contents| ::
      CanonicalContent(make, contents[i], maxInline) && values[i] == EncodeContent(contents[i])
    ensures DecodeContents(make, values, maxInline) == Ok(contents)
  {
    if contents != [] {
      ContentRoundTrip(make, contents[0], maxInline);
      ContentsRoundTrip(make, contents[1..], values[1..], maxInline);
      assert contents == [contents[0]] + contents[1..];
    }
  }

  lemma CallRoundTrip(call: ToolCall)
    requires CanonicalCall(call)
    ensures DecodeCall(EncodeCall(call)) == Ok(call)
  {
    JsonRoundTrip(JObject(call.arguments));
  }

  lemma {:induction false} CallsRoundTrip(calls: seq<ToolCall>, values: seq<Tree>)
    requires |values| == |calls|
    requires forall i | 0 <= i < |calls| :: CanonicalCall(calls[i]) && values[i] == EncodeCall(calls[i])
    ensures DecodeCalls(values) == Ok(calls)
  {
    if calls != [] {
      CallRoundTrip(calls[0]);
      CallsRoundTrip(calls[1..], values[1..]);
      CallsFromHead(calls, values);
    }
  }

  lemma CallsFromHead(calls: seq<ToolCall>, values: seq<Tree>)
    requires calls != [] && values != []
    requires DecodeCall(values[0]) == Ok(calls[0]) && DecodeCalls(values[1..]) == Ok(calls[1..])
    ensures DecodeCalls(values) == Ok(calls)
  {
    assert calls == [calls[0]] + calls[1..];
  }

  /** Any dictionary with the members all messages share is read as the header of the message. */
  lemma HeaderOf(make: Constructors, members: map<string, Tree>, message: AgentMessage, maxInline: nat)
    requires "content" in members && members["content"].List?
    requires DecodeContents(make, members["content"].items, maxInline) == Ok(message.content)
    requires "timestamp" in members && members["timestamp"] == Float(message.timestamp)
    requires "message_id" in members && members["message_id"] == Str(message.messageId) && message.messageId != ""
    ensures DecodeHeader(make, Dict(members), maxInline)
         == Ok(Header(message.content, message.timestamp, message.messageId))
  {
  }

  lemma HeaderRoundTrip(make: Constructors, message: AgentMessage, maxInline: nat, limits: MediaLimits)
    requires CanonicalMessage(make, message, maxInline, limits)
    ensures EncodeMessage(message).Dict?
    ensures DecodeHeader(make, EncodeMessage(message), maxInline)
         == Ok(Header(message.content, message.timestamp, message.messageId))
  {
    var members := EncodeMessage(message).members;
    ContentsRoundTrip(make, message.content, members["content"].items, maxInline);
    HeaderOf(make, members, message, maxInline);
  }

  lemma AssistantRoundTrip(make: Constructors, message: AgentMessage, maxInline: nat, limits: MediaLimits)
    requires message.AssistantMessage? && CanonicalMessage(make, message, maxInline, limits)
    ensures DecodeAssistant(EncodeMessage(message).members, message.content, message.timestamp, message.messageId)
         == Ok(message)
  {
    var members := EncodeMessage(message).members;
    CallsRoundTrip(message.toolCalls, members["tool_calls"].items);
    assert OptionalMember(members, "reasoning_content") == Ok(message.reasoning);
  }

  lemma ToolErrorRoundTrip(make: Constructors, error: Option<ToolError>)
    requires error.Some? ==> make.toolError(error.value) == Some(error.value)
    ensures DecodeToolError(make, ErrorData(error)) == Ok(error)
  {
  }

  lemma ToolResultRoundTrip(make: Constructors, message: AgentMessage, maxInline: nat, limits: MediaLimits)
    requires message.ToolResultMessage? && CanonicalMessage(make, message, maxInline, limits)
    ensures DecodeToolResult(make, EncodeMessage(message).members, message.content, message.timestamp,
                             message.messageId) == Ok(message)
  {
    ToolErrorRoundTrip(make, message.error);
    var members := EncodeMessage(message).members;
    assert members["error"] == ErrorData(message.error);
    assert members["status"] == Str(StatusName(message.status));
    assert members["tool_call_id"] == Str(message.toolCallId) && members["tool_name"] == Str(message.toolName);
  }

  lemma MessageRoundTrip(make: Constructors, message: AgentMessage, maxInline: nat, limits: MediaLimits)
    requires CanonicalMessage(make, message, maxInline, limits)
    ensures DecodeMessage(make, EncodeMessage(message), maxInline, limits) == Ok(message)
  {
    HeaderRoundTrip(make, message, maxInline, limits);
    assert EncodeMessage(message).members["type"] == Str(TypeName(message));
    match message {
      case UserMessage(_, _, _) =>
      case AssistantMessage(_, _, _, _, _) => AssistantRoundTrip(make, message, maxInline, limits);
      case ToolResultMessage(_, _, _, _, _, _, _) => ToolResultRoundTrip(make, message, maxInline, limits);
    }
  }

  lemma {:induction false} MessagesRoundTrip(make: Constructors, messages: seq<AgentMessage>, values: seq<Tree>,
                                             maxInline: nat, limits: MediaLimits)
    requires |values| == |messages|
    requires forall i | 0 <= i < |messages| ::
      CanonicalMessage(make, messages[i], maxInline, limits) && values[i] == EncodeMessage(messages[i])
    ensures DecodeMessages(make, values, maxInline, limits) == Ok(messages)
  {
    if messages != [] {
      MessageRoundTrip(make, messages[0], maxInline, limits);
      MessagesRoundTrip(make, messages[1..], values[1..], maxInline, limits);
      MessagesFromHead(make, messages, values, maxInline, limits);
    }
  }

  lemma MessagesFromHead(make: Constructors, messages: seq<AgentMessage>, values: seq<Tree>, maxInline: nat,
                         limits: MediaLimits)
    requires messages != [] && values != []
    requires DecodeMessage(make, values[0], maxInline, limits) == Ok(messages[0])
    requires DecodeMessages(make, values[1..], maxInline, limits) == Ok(messages[1..])
    ensures DecodeMessages(make, values, maxInline, limits) == Ok(messages)
  {
    assert messages == [messages[0]] + messages[1..];
  }

  predicate CanonicalPending(make: Constructors, item: PendingInput, maxInline: nat, limits: MediaLimits) {
    && item.message.UserMessage? && CanonicalMessage(make, item.message, maxInline, limits)
    && item.receipt.inputId != "" && item.receipt.sessionId != "" && item.receipt.sequence >= 1
  }

  lemma ReceiptRoundTrip(receipt: InputReceipt)
    requires receipt.inputId != "" && receipt.sessionId != "" && receipt.sequence >= 1
    ensures DecodeReceipt(Dict(map["input_id" := Str(receipt.inputId), "sequence" := Int(receipt.sequence),
                                   "session_id" := Str(receipt.sessionId)])) == Ok(receipt)
  {
    var members := map["input_id" := Str(receipt.inputId), "sequence" := Int(receipt.sequence),
                       "session_id" := Str(receipt.sessionId)];
    assert members.Keys == {"input_id", "sequence", "session_id"};
  }

  lemma PendingOf(make: Constructors, members: map<string, Tree>, item: PendingInput, maxInline: nat,
                  limits: MediaLimits)
    requires "message" in members && DecodeMessage(make, members["message"], maxInline, limits) == Ok(item.message)
    requires "receipt" in members && DecodeReceipt(members["receipt"]) == Ok(item.receipt)
    requires "kind" in members && members["kind"] == Str(if item.kind.Steer? then "steer" else "follow_up")
    requires item.message.UserMessage?
    ensures DecodePending(make, Dict(members), maxInline, limits) == Ok(item)
  {
    assert "steer" != "follow_up";
  }

  lemma PendingRoundTrip(make: Constructors, item: PendingInput, maxInline: nat, limits: MediaLimits)
    requires CanonicalPending(make, item, maxInline, limits)
    ensures DecodePending(make, EncodePending(item), maxInline, limits) == Ok(item)
  {
    MessageRoundTrip(make, item.message, maxInline, limits);
    ReceiptRoundTrip(item.receipt);
    PendingOf(make, EncodePending(item).members, item, maxInline, limits);
  }

  lemma {:induction false} PendingsRoundTrip(make: Constructors, items: seq<PendingInput>, values: seq<Tree>,
                                             maxInline: nat, limits: MediaLimits)
    requires |values| == |items|
    requires forall i | 0 <= i < |items| ::
      CanonicalPending(make, items[i], maxInline, limits) && values[i] == EncodePending(items[i])
    ensures DecodePendings(make, values, maxInline, limits) == Ok(items)
  {
    if items != [] {
      PendingRoundTrip(make, items[0], maxInline, limits);
      PendingsRoundTrip(make, items[1..], values[1..], maxInline, limits);
      PendingsFromHead(make, items, values, maxInline, limits);
    }
  }

  lemma PendingsFromHead(make: Constructors, items: seq<PendingInput>, values: seq<Tree>, maxInline: nat,
                         limits: MediaLimits)
    requires items != [] && values != []
    requires DecodePending(make, values[0], maxInline, limits) == Ok(items[0])
    requires DecodePendings(make, values[1..], maxInline, limits) == Ok(items[1..])
    ensures DecodePendings(make, values, maxInline, limits) == Ok(items)
  {
    assert items == [items[0]] + items[1..];
  }

  predicate CanonicalSummary(summary: ContextSummary) {
    summary.formatVersion >= 1 && summary.summarizerId != Some("") && summary.sourceDigest != Foreign("")
  }

  lemma CompactionRoundTrip(summary: Option<ContextSummary>)
    requires summary.Some? ==> CanonicalSummary(summary.value)
    ensures DecodeCompaction(EncodeCompaction(summary)) == Ok(summary)
  {
    if summary.Some? {
      assert EncodeCompaction(summary).members.Keys == SUMMARY_KEYS;
    }
  }

  predicate CanonicalSnapshot(make: Constructors, snapshot: SessionSnapshot, maxInline: nat, limits: MediaLimits) {
    && snapshot.schemaVersion == SCHEMA_VERSION && snapshot.sessionId != ""
    && snapshot.revision >= 0 && snapshot.lastPendingSequence >= 0
    && (forall i | 0 <= i < |snapshot.messages| :: CanonicalMessage(make, snapshot.messages[i], maxInline, limits))
    && (forall i | 0 <= i < |snapshot.pending| :: CanonicalPending(make, snapshot.pending[i], maxInline, limits))
    && (snapshot.compaction.Some? ==> CanonicalSummary(snapshot.compaction.value))
    && Frozen(JObject(snapshot.metadata))
  }

  /** Encoding a canonical snapshot succeeds, and decoding gives back the very same snapshot. */
  lemma SnapshotRoundTrip(make: Constructors, snapshot: SessionSnapshot, maxInline: nat, limits: MediaLimits)
    requires CanonicalSnapshot(make, snapshot, maxInline, limits)
    ensures Encode(snapshot, maxInline).Ok?
    ensures Decode(make, Encode(snapshot, maxInline).value, maxInline, limits) == Ok(snapshot)
  {
    CanonicalIsInline(make, snapshot, maxInline, limits);
    SnapshotPartsRoundTrip(make, snapshot, maxInline, limits);
  }

  lemma CanonicalIsInline(make: Constructors, snapshot: SessionSnapshot, maxInline: nat, limits: MediaLimits)
    requires CanonicalSnapshot(make, snapshot, maxInline, limits)
    ensures SnapshotInlineWithin(snapshot, maxInline)
  {
    forall i | 0 <= i < |snapshot.messages| ensures InlineWithin(snapshot.messages[i], maxInline) {
      assert CanonicalMessage(make, snapshot.messages[i], maxInline, limits);
    }
    forall i | 0 <= i < |snapshot.pending| ensures InlineWithin(snapshot.pending[i].message, maxInline) {
      assert CanonicalPending(make, snapshot.pending[i], maxInline, limits);
    }
  }

  lemma ListsRoundTrip(make: Constructors, snapshot: SessionSnapshot, maxInline: nat, limits: MediaLimits)
    requires CanonicalSnapshot(make, snapshot, maxInline, limits)
    ensures var members := SnapshotMembers(snapshot);
      && DecodeList(members, "messages").Ok? && DecodeList(members, "pending").Ok?
      && DecodeMessages(make, DecodeList(members, "messages").value, maxInline, limits) == Ok(snapshot.messages)
      && DecodePendings(make, DecodeList(members, "pending").value, maxInline, limits) == Ok(snapshot.pending)
  {
    var members := SnapshotMembers(snapshot);
    MessagesRoundTrip(make, snapshot.messages, members["messages"].items, maxInline, limits);
    PendingsRoundTrip(make, snapshot.pending, members["pending"].items, maxInline, limits);
  }

  lemma FieldsRoundTrip(snapshot: SessionSnapshot)
    requires snapshot.schemaVersion == SCHEMA_VERSION && snapshot.sessionId != ""
    requires snapshot.revision >= 0 && snapshot.lastPendingSequence >= 0 && Frozen(JObject(snapshot.metadata))
    requires snapshot.compaction.Some? ==> CanonicalSummary(snapshot.compaction.value)
    ensures var members := SnapshotMembers(snapshot);
      && SupportedVersion(members)
      && "compaction" in members && DecodeCompaction(members["compaction"]) == Ok(snapshot.compaction)
      && DecodeMetadata(members) == Ok(snapshot.metadata)
      && DecodeSessionId(members) == Ok(snapshot.sessionId)
      && DecodeCount(members, "revision") == Ok(snapshot.revision)
      && DecodeCount(members, "last_pending_sequence") == Ok(snapshot.lastPendingSequence)
  {
    CompactionRoundTrip(snapshot.compaction);
    JsonRoundTrip(JObject(snapshot.metadata));
  }

  lemma SnapshotPartsRoundTrip(make: Constructors, snapshot: SessionSnapshot, maxInline: nat, limits: MediaLimits)
    requires CanonicalSnapshot(make, snapshot, maxInline, limits)
    ensures Decode(make, Dict(SnapshotMembers(snapshot)), maxInline, limits) == Ok(snapshot)
  {
    ListsRoundTrip(make, snapshot, maxInline, limits);
    FieldsRoundTrip(snapshot);
    AssembleSnapshot(make, SnapshotMembers(snapshot), snapshot, maxInline, limits);
  }

  lemma AssembleSnapshot(make: Constructors, members: map<string, Tree>, snapshot: SessionSnapshot,
                         maxInline: nat, limits: MediaLimits)
    requires snapshot.schemaVersion == SCHEMA_VERSION && SupportedVersion(members)
    requires DecodeList(members, "messages").Ok? && DecodeList(members, "pending").Ok?
    requires DecodeMessages(make, DecodeList(members, "messages").value, maxInline, limits) == Ok(snapshot.messages)
    requires DecodePendings(make, DecodeList(members, "pending").value, maxInline, limits) == Ok(snapshot.pending)
    requires "compaction" in members && DecodeCompaction(members["compaction"]) == Ok(snapshot.compaction)
    requires DecodeMetadata(members) == Ok(snapshot.metadata)
    requires DecodeSessionId(members) == Ok(snapshot.sessionId)
    requires DecodeCount(members, "revision") == Ok(snapshot.revision)
    requires DecodeCount(members, "last_pending_sequence") == Ok(snapshot.lastPendingSequence)
    ensures Decode(make, Dict(members), maxInline, limits) == Ok(snapshot)
  {
  }

  // ---- Restoring.

  datatype SessionState = SessionState(
    sessionId: string, messages: seq<AgentMessage>, pending: seq<PendingInput>, sequence: int,
    compaction: Option<ContextSummary>, metadata: seq<Member>,
    runtimeRevision: int, durableRevision: Option<int>)

  datatype RestoreError = UnsupportedVersion | InvalidTranscript | ForeignPending | UnorderedPending | StaleSequence

  function TakeSnapshot(state: SessionState): SessionSnapshot {
    SessionSnapshot(SCHEMA_VERSION, state.sessionId, state.runtimeRevision, state.sequence,
                    state.messages, state.pending, state.compaction, state.metadata)
  }

  predicate IncreasingReceipts(pending: seq<PendingInput>) {
    forall i, j | 0 <= i < j < |pending| :: pending[i].receipt.sequence < pending[j].receipt.sequence
  }

  /** A summary is kept when its prefix is a complete transcript with the recorded digest. */
  ghost predicate SummaryHolds(summary: ContextSummary, messages: seq<AgentMessage>) {
    && summary.sourceEnd <= |messages|
    && Complete(messages[..summary.sourceEnd])
    && MessageDigest(messages[..summary.sourceEnd]) == summary.sourceDigest
  }

  method Restore(snapshot: SessionSnapshot, limits: MediaLimits) returns (r: Result<SessionState, RestoreError>)
    ensures r.Ok? <==>
      && MIN_SUPPORTED_SCHEMA_VERSION <= snapshot.schemaVersion <= SCHEMA_VERSION
      && ContentsWithin(snapshot.messages, limits) && Complete(snapshot.messages)
      && (forall i | 0 <= i < |snapshot.pending| :: snapshot.pending[i].receipt.sessionId == snapshot.sessionId)
      && IncreasingReceipts(snapshot.pending)
      && (snapshot.pending != [] ==>
            snapshot.pending[|snapshot.pending| - 1].receipt.sequence <= snapshot.lastPendingSequence)
    ensures r.Ok? ==> r.value == SessionState(
      snapshot.sessionId, snapshot.messages, snapshot.pending, snapshot.lastPendingSequence,
      (if snapshot.compaction.Some? && SummaryHolds(snapshot.compaction.value, snapshot.messages)
       then snapshot.compaction else None),
      snapshot.metadata, snapshot.revision, Some(snapshot.revision))
  {
    if !(MIN_SUPPORTED_SCHEMA_VERSION <= snapshot.schemaVersion <= SCHEMA_VERSION) {
      return Err(UnsupportedVersion);
    }
    var valid := Validate(snapshot.messages, limits, true);
    if !valid {
      return Err(InvalidTranscript);
    }
    for i := 0 to |snapshot.pending|
      invariant forall k | 0 <= k < i :: snapshot.pending[k].receipt.sessionId == snapshot.sessionId
    {
      if snapshot.pending[i].receipt.sessionId != snapshot.sessionId {
        return Err(ForeignPending);
      }
    }
    for i := 0 to |snapshot.pending|
      invariant IncreasingReceipts(snapshot.pending[..i])
    {
      if i > 0 && snapshot.pending[i - 1].receipt.sequence >= snapshot.pending[i].receipt.sequence {
        return Err(UnorderedPending);
      }
      forall k | 0 <= k < i ensures snapshot.pending[k].receipt.sequence < snapshot.pending[i].receipt.sequence {
        assert snapshot.pending[..i][k] == snapshot.pending[k];
        assert snapshot.pending[..i][i - 1] == snapshot.pending[i - 1];
      }
    }
    assert snapshot.pending[..|snapshot.pending|] == snapshot.pending;
    var queued := |snapshot.pending|;
    if queued > 0 && snapshot.lastPendingSequence < snapshot.pending[queued - 1].receipt.sequence {
      return Err(StaleSequence);
    }
    var compaction := snapshot.compaction;
    if compaction.Some? {
      var end := compaction.value.sourceEnd;
      var prefix := if end <= |snapshot.messages| then snapshot.messages[..end] else snapshot.messages;
      var complete := Validate(prefix, limits, true);
      if !complete || end > |snapshot.messages| || MessageDigest(prefix) != compaction.value.sourceDigest {
        compaction := None;
      }
    }
    r := Ok(SessionState(snapshot.sessionId, snapshot.messages, snapshot.pending, snapshot.lastPendingSequence,
                         compaction, snapshot.metadata, snapshot.revision, Some(snapshot.revision)));
  }

  /** A codec: the message constructors with their own limits, and the bytes it takes inline. */
  datatype Codec = Codec(make: Constructors, maxInline: nat, limits: MediaLimits)

  /** The state a live session is always in; `limits` are those of its agent. */
  ghost predicate LiveState(codec: Codec, state: SessionState, limits: MediaLimits) {
    && CanonicalSnapshot(codec.make, TakeSnapshot(state), codec.maxInline, codec.limits)
    && Complete(state.messages) && ContentsWithin(state.messages, limits)
    && IncreasingReceipts(state.pending)
    && (forall i | 0 <= i < |state.pending| ::
          state.pending[i].receipt.sessionId == state.sessionId && state.pending[i].receipt.sequence <= state.sequence)
  }

  /** Saving, loading and restoring a live session gives the session back; its compaction survives
      exactly when the summary still describes a complete prefix. */
  method SaveAndRestore(codec: Codec, state: SessionState, limits: MediaLimits)
    returns (r: Result<SessionState, RestoreError>)
    requires LiveState(codec, state, limits)
    ensures r.Ok?
    ensures r.value.(compaction := None, durableRevision := None) == state.(compaction := None, durableRevision := None)
    ensures r.value.durableRevision == Some(state.runtimeRevision)
    ensures state.compaction.Some? ==>
      (r.value.compaction == state.compaction <==> SummaryHolds(state.compaction.value, state.messages))
    ensures r.value.compaction == state.compaction || r.value.compaction.None?
  {
    var snapshot := TakeSnapshot(state);
    SnapshotRoundTrip(codec.make, snapshot, codec.maxInline, codec.limits);
    var loaded := Decode(codec.make, Encode(snapshot, codec.maxInline).value, codec.maxInline, codec.limits).value;
    r := Restore(loaded, limits);
  }

  /** What was restored is live again. */
  lemma RestoredIsLive(codec: Codec, state: SessionState, restored: SessionState, limits: MediaLimits)
    requires LiveState(codec, state, limits)
    requires restored.(compaction := None, durableRevision := None)
          == state.(compaction := None, durableRevision := None)
    requires restored.compaction == state.compaction || restored.compaction.None?
    ensures LiveState(codec, restored, limits)
  {
  }

  /** A summary made by the compacting context manager survives: it was made for a transcript to
      which only complete exchanges were appended since. */
  lemma PreparedSummarySurvives(config: Config, services: Services, request: Request, more: seq<AgentMessage>)
    requires config.Valid() && Prepare(config, services, request).Ok?
    requires NewSummary(Prepare(config, services, request).value).Some?
    requires Complete(request.transcript + more)
    ensures SummaryHolds(NewSummary(Prepare(config, services, request).value).value, request.transcript + more)
  {
    var summary := NewSummary(Prepare(config, services, request).value).value;
    NewSummaryIsSafe(config, services, request);
    CutsAreBoundaries(request.transcript, Groups(request.transcript).value, summary.sourceEnd);
    assert (request.transcript + more)[..summary.sourceEnd] == request.transcript[..summary.sourceEnd];
  }
}

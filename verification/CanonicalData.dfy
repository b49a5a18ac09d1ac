/** The JSON values that digests and snapshots are written from.
    `json.dumps(..., sort_keys=True)` forgets the order of dictionary members,
    so a dictionary is a map; dumping and loading such a tree is the identity. */
module CanonicalData {
  import opened Basics
  import opened Messages

  datatype Tree =
    | Null
    | Bool(flag: bool)
    | Int(whole: int)
    | Float(number: real)
    | Str(text: string)
    | Base64(data: seq<bv8>)       // a string holding the base64 text of `data`
    | Sha256(of: seq<Tree>)        // a string holding the hexadecimal digest of a dumped list
    | List(items: seq<Tree>)
    | Dict(members: map<string, Tree>)

  function OptionalText(value: Option<string>): Tree {
    match value
    case None => Null
    case Some(text) => Str(text)
  }

  /** Plain dictionaries and lists: member order is gone. */
  function Thaw(value: Json): Tree
    decreases value
  {
    match value
    case JNull => Null
    case JBool(b) => Bool(b)
    case JInt(n) => Int(n)
    case JFloat(x) => Float(x)
    case JStr(s) => Str(s)
    case JArray(items) => List(seq(|items|, i requires 0 <= i < |items| => Thaw(items[i])))
    case JObject(members) => Dict(ThawMembers(members))
  }

  function ThawMembers(members: seq<Member>): map<string, Tree>
    decreases members
  {
    if members == [] then map[]
    else
      var last := members[|members| - 1];
      assert last in members;
      ThawMembers(members[..|members| - 1])[last.key := Thaw(last.value)]
  }

  function SourceData(source: MediaSource): Tree {
    match source
    case BytesSource(data) => Dict(map["type" := Str("bytes"), "data" := Base64(data)])
    case FileSource(path) => Dict(map["type" := Str("file"), "path" := Str(path)])
    case UrlSource(url) => Dict(map["type" := Str("url"), "url" := Str(url)])
  }

  function KindName(kind: MediaKind): string {
    match kind case Image => "image" case Audio => "audio" case File => "file"
  }

  function NoteName(kind: MediaKind): string {
    match kind case Image => "detail" case Audio => "transcript" case File => "filename"
  }

  function ContentData(content: Content): Tree {
    match content
    case TextContent(text) => Dict(map["type" := Str("text"), "text" := Str(text)])
    case JsonContent(value) => Dict(map["type" := Str("json"), "value" := Thaw(value)])
    case ArtifactContent(uri, mediaType, size, digest, preview) =>
      Dict(map["type" := Str("artifact_reference"), "uri" := Str(uri),
               "media_type" := OptionalText(mediaType), "size" := Int(size),
               "digest" := Str(digest), "preview" := OptionalText(preview)])
    case MediaContent(kind, source, mediaType, note) =>
      Dict(map["type" := Str(KindName(kind)), "source" := SourceData(source),
               "media_type" := OptionalText(mediaType), NoteName(kind) := OptionalText(note)])
  }

  function StatusName(status: ToolStatus): string {
    match status case Success => "success" case Error => "error"
  }

  function ErrorData(error: Option<ToolError>): Tree {
    match error
    case None => Null
    case Some(e) => Dict(map["code" := Str(e.code), "message" := Str(e.message), "retryable" := Bool(e.retryable)])
  }

  /** What a message contributes to a digest: everything but its message id. */
  function MessageData(message: AgentMessage): Tree {
    var shared := map["content" := List(seq(|message.content|,
                        i requires 0 <= i < |message.content| => ContentData(message.content[i]))),
                      "timestamp" := Float(message.timestamp)];
    match message
    case UserMessage(_, _, _) => Dict(shared["type" := Str("user")])
    case AssistantMessage(_, calls, reasoning, _, _) =>
      var body := shared["type" := Str("assistant")]["tool_calls" := List(seq(|calls|,
        i requires 0 <= i < |calls| =>
          Dict(map["id" := Str(calls[i].id), "name" := Str(calls[i].name),
                   "arguments" := Dict(ThawMembers(calls[i].arguments))])))];
      Dict(if reasoning.Some? then body["reasoning_content" := Str(reasoning.value)] else body)
    case ToolResultMessage(callId, name, status, _, error, _, _) =>
      Dict(shared["type" := Str("tool")]["tool_call_id" := Str(callId)]["tool_name" := Str(name)]
                 ["status" := Str(StatusName(status))]["error" := ErrorData(error)])
  }

  /** SHA-256 of the dumped list, taken to be injective in the dumped value; or a string that is the digest of
      nothing. */
  datatype Digest = Digest(values: seq<Tree>) | Foreign(text: string)

  function MessageDigest(messages: seq<AgentMessage>): Digest {
    Digest(seq(|messages|, i requires 0 <= i < |messages| => MessageData(messages[i])))
  }
}

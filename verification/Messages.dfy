/** Canonical JSON, content and transcript messages (roboagent/message.py). */
module Messages {
  import opened Basics

  /** A frozen JSON value; an object keeps the order of its members. */
  datatype Json =
    | JNull
    | JBool(flag: bool)
    | JInt(whole: int)
    | JFloat(number: real)
    | JStr(text: string)
    | JArray(items: seq<Json>)
    | JObject(members: seq<Member>)

  datatype Member = Member(key: string, value: Json)

  datatype MediaSource =
    | BytesSource(data: seq<bv8>)
    | FileSource(path: string)
    | UrlSource(url: string)

  datatype MediaKind = Image | Audio | File

  /** `note` is the detail of an image, the transcript of an audio, the name of a file. */
  datatype Content =
    | TextContent(text: string)
    | JsonContent(value: Json)
    | ArtifactContent(uri: string, mediaType: Option<string>, size: int,
                      digest: string, preview: Option<string>)
    | MediaContent(kind: MediaKind, source: MediaSource,
                   mediaType: Option<string>, note: Option<string>)

  datatype ToolCall = ToolCall(id: string, name: string, arguments: seq<Member>)

  datatype ToolError = ToolError(code: string, message: string, retryable: bool)

  datatype ToolStatus = Success | Error

  datatype AgentMessage =
    | UserMessage(content: seq<Content>, timestamp: real, messageId: string)
    | AssistantMessage(content: seq<Content>, toolCalls: seq<ToolCall>,
                       reasoning: Option<string>, timestamp: real, messageId: string)
    | ToolResultMessage(toolCallId: string, toolName: string, status: ToolStatus,
                        content: seq<Content>, error: Option<ToolError>,
                        timestamp: real, messageId: string)

  datatype MediaLimits = MediaLimits(maxInlineBytes: nat, maxContents: nat)

  /** The content check the validator repeats on every message. */
  predicate WithinLimits(content: seq<Content>, limits: MediaLimits) {
    && |content| <= limits.maxContents
    && forall i | 0 <= i < |content| ::
        content[i].MediaContent? && content[i].source.BytesSource? ==>
          |content[i].source.data| <= limits.maxInlineBytes
  }
}

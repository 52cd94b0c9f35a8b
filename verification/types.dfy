/** Values exchanged by the Hugging Face API chat generator: the vendor's
    tool-call, streaming and completion records, and the framework's tool
    calls, streaming chunks and chat messages. */
module HfTypes {

  datatype Option<+T> = None | Some(value: T) {
    function GetOr(default: T): T {
      match this
      case Some(v) => v
      case None => default
    }
  }

  datatype Result<+T, +E> = Success(value: T) | Failure(error: E)

  /** A JSON value as Python's json module hands it over; numbers are
      restricted to integers (floating point is not modelled). */
  datatype Json =
    | JNull
    | JBool(b: bool)
    | JNum(n: int)
    | JStr(s: string)
    | JArr(items: seq<Json>)
    | JObj(fields: map<string, Json>)

  /** Python truthiness of a decoded JSON value: `None`, `False`, `0`, `""`,
      `[]` and `{}` are falsy, everything else is truthy. */
  predicate Truthy(j: Json) {
    match j
    case JNull => false
    case JBool(b) => b
    case JNum(n) => n != 0
    case JStr(s) => s != ""
    case JArr(items) => items != []
    case JObj(fields) => fields != map[]
  }

  /** Token counts reported by the vendor. */
  datatype Usage = Usage(promptTokens: nat, completionTokens: nat)

  /** The `{"prompt_tokens": .., "completion_tokens": ..}` mapping put in metadata. */
  function UsageJson(u: Usage): Json {
    JObj(map["prompt_tokens" := JNum(u.promptTokens), "completion_tokens" := JNum(u.completionTokens)])
  }

  /** Usage reported when the vendor reported none. */
  function ZeroUsage(): Json {
    UsageJson(Usage(0, 0))
  }

  // ---- The framework's side ----

  /** A tool the model may call; its Python function is not modelled. */
  datatype Tool = Tool(name: string, description: string, parameters: map<string, Json>)

  /** Python truthiness of the optional tool list (or tool set). */
  predicate ToolsGiven(tools: Option<seq<Tool>>) {
    tools.Some? && tools.value != []
  }

  /** A normalised tool call. The arguments are whatever truthy value the
      vendor payload yielded (see ToolConversion). */
  datatype ToolCall = ToolCall(toolName: string, arguments: Json, id: string)

  /** The framework's shared finish-reason enumeration. */
  datatype FinishReason = Stop | Length | ToolCalls | ContentFilter

  /** Identity of the component that produced a chunk. */
  datatype ComponentInfo = ComponentInfo(typeName: string, name: Option<string>)

  datatype StreamingChunk = StreamingChunk(
    content: string,
    meta: map<string, Json>,
    componentInfo: Option<ComponentInfo>,
    index: Option<nat>,
    start: bool,
    finishReason: Option<FinishReason>)

  datatype Role = SystemRole | UserRole | AssistantRole | ToolRole

  datatype ChatMessage = ChatMessage(
    role: Role,
    text: Option<string>,
    toolCalls: seq<ToolCall>,
    meta: map<string, Json>)

  // ---- The vendor's side ----

  /** The `arguments` of a vendor tool call: an already-decoded mapping, a
      JSON text, or a value of some other Python type, known by its printed
      form `shown`. */
  datatype HfArguments =
    | DictArguments(fields: map<string, Json>)
    | TextArguments(text: string)
    | OtherArguments(shown: string)

  /** A vendor tool call; `name` and `arguments` sit in its `function` part. */
  datatype HfToolCall = HfToolCall(id: string, name: string, arguments: HfArguments)

  /** The delta of one streamed choice; `toolCalls` is only inspected for presence. */
  datatype StreamDelta = StreamDelta(
    content: Option<string>,
    toolCalls: Option<seq<Json>>,
    toolCallId: Option<string>)

  datatype StreamChoice = StreamChoice(delta: StreamDelta, finishReason: Option<string>, index: int)

  /** One event of a streamed completion. */
  datatype StreamEvent = StreamEvent(model: string, choices: seq<StreamChoice>, usage: Option<Usage>)

  datatype OutputMessage = OutputMessage(content: Option<string>, toolCalls: Option<seq<HfToolCall>>)

  datatype OutputChoice = OutputChoice(message: OutputMessage, finishReason: string, index: int)

  /** The answer of a non-streamed completion request. */
  datatype ChatCompletionOutput = ChatCompletionOutput(choices: Option<seq<OutputChoice>>, usage: Option<Usage>)

  /** Which key the installed vendor library uses for a tool's JSON schema. */
  datatype SchemaKey = ArgumentsKey | ParametersKey

  datatype HfFunctionDefinition = HfFunctionDefinition(
    name: string,
    description: string,
    parameters: map<string, Json>,
    key: SchemaKey)

  /** A tool definition as the vendor expects it; `kind` is its `type` field
      and `definition` its `function` field. */
  datatype HfTool = HfTool(kind: string, definition: HfFunctionDefinition)
}

/** The Hugging Face API chat generator: the checks and the generation
    parameters of its construction, the precedence rules of one call, and the
    shaping of a non-streamed reply. The inference client is abstracted as
    the functions `complete` and `stream` from a request to the vendor's
    answer. */
module HfChatGenerator {
  import opened HfTypes
  import opened ToolConversion
  import opened Streaming

  datatype ApiType = TextGenerationInference | InferenceEndpoints | ServerlessInferenceApi

  /** The API type as the constructor receives it: the enumeration, or its name. */
  datatype ApiTypeArg = Given(apiType: ApiType) | Named(name: string)

  function ApiTypeName(t: ApiType): string {
    match t
    case TextGenerationInference => "text_generation_inference"
    case InferenceEndpoints => "inference_endpoints"
    case ServerlessInferenceApi => "serverless_inference_api"
  }

  /** The API type a name stands for, if any. */
  function ParseApiType(name: string): (r: Option<ApiType>)
    ensures r.Some? ==> ApiTypeName(r.value) == name
    ensures forall t :: ApiTypeName(t) == name ==> r == Some(t)
  {
    if name == "text_generation_inference" then Some(TextGenerationInference)
    else if name == "inference_endpoints" then Some(InferenceEndpoints)
    else if name == "serverless_inference_api" then Some(ServerlessInferenceApi)
    else None
  }

  function ResolveApiType(arg: ApiTypeArg): Option<ApiType> {
    match arg
    case Given(t) => Some(t)
    case Named(name) => ParseApiType(name)
  }

  /** The configuration errors raised by construction and by a call. */
  datatype ConfigError =
    | UnknownApiType(name: string)
    | MissingModel
    | MissingUrl
    | InvalidUrl(url: string)
    | ToolsWithStreaming
    | DuplicateToolNames
    | StopNotAList

  /** A streaming callback, known only by its identity. */
  datatype CallbackId = CallbackId(name: string)

  /** What the inference client is created for: the model id or the URL. */
  datatype Endpoint = Endpoint(apiType: ApiType, modelOrUrl: string)

  predicate DistinctToolNames(tools: seq<Tool>) {
    forall i, j :: 0 <= i < j < |tools| ==> tools[i].name != tools[j].name
  }

  /** The serverless API needs a model id; the dedicated endpoints and
      self-hosted servers need a URL that `isValidUrl` accepts. */
  function ResolveEndpoint(apiType: ApiTypeArg, apiParams: map<string, string>, isValidUrl: string -> bool)
    : (r: Result<Endpoint, ConfigError>)
    ensures ResolveApiType(apiType).None? ==> r == Failure(UnknownApiType(apiType.name))
    ensures ResolveApiType(apiType) == Some(ServerlessInferenceApi) ==>
      && (r.Success? <==> "model" in apiParams)
      && (r.Success? ==> r.value == Endpoint(ServerlessInferenceApi, apiParams["model"]))
      && (r.Failure? ==> r.error == MissingModel)
    ensures ResolveApiType(apiType).Some? && ResolveApiType(apiType) != Some(ServerlessInferenceApi) ==>
      && (r.Success? <==> "url" in apiParams && isValidUrl(apiParams["url"]))
      && (r.Success? ==> r.value == Endpoint(ResolveApiType(apiType).value, apiParams["url"]))
      && (r.Failure? ==> r.error == if "url" in apiParams then InvalidUrl(apiParams["url"]) else MissingUrl)
  {
    match ResolveApiType(apiType)
    case None => Failure(UnknownApiType(apiType.name))
    case Some(ServerlessInferenceApi) =>
      if "model" in apiParams then Success(Endpoint(ServerlessInferenceApi, apiParams["model"])) else Failure(MissingModel)
    case Some(t) =>
      if "url" !in apiParams then Failure(MissingUrl)
      else if !isValidUrl(apiParams["url"]) then Failure(InvalidUrl(apiParams["url"]))
      else Success(Endpoint(t, apiParams["url"]))
  }

  /** The checks of construction, in the order they are made: the endpoint,
      then tools together with a streaming callback, then duplicate tool names. */
  function CheckConstruction(apiType: ApiTypeArg, apiParams: map<string, string>, isValidUrl: string -> bool,
                             streamingCallback: Option<CallbackId>, tools: Option<seq<Tool>>)
    : (r: Result<Endpoint, ConfigError>)
    ensures r.Success? <==>
      && ResolveEndpoint(apiType, apiParams, isValidUrl).Success?
      && !(ToolsGiven(tools) && streamingCallback.Some?)
      && DistinctToolNames(tools.GetOr([]))
    ensures r.Success? ==> r == ResolveEndpoint(apiType, apiParams, isValidUrl)
    ensures ResolveEndpoint(apiType, apiParams, isValidUrl).Failure? ==> r == ResolveEndpoint(apiType, apiParams, isValidUrl)
    ensures ResolveEndpoint(apiType, apiParams, isValidUrl).Success? && ToolsGiven(tools) && streamingCallback.Some? ==>
      r == Failure(ToolsWithStreaming)
    ensures
      && ResolveEndpoint(apiType, apiParams, isValidUrl).Success?
      && !(ToolsGiven(tools) && streamingCallback.Some?)
      && !DistinctToolNames(tools.GetOr([]))
      ==> r == Failure(DuplicateToolNames)
  {
    var endpoint := ResolveEndpoint(apiType, apiParams, isValidUrl);
    if endpoint.Failure? then endpoint
    else if ToolsGiven(tools) && streamingCallback.Some? then Failure(ToolsWithStreaming)
    else if !DistinctToolNames(tools.GetOr([])) then Failure(DuplicateToolNames)
    else endpoint
  }

  /** The stop words as JSON strings. */
  function WordValues(words: seq<string>): seq<Json> {
    seq(|words|, i requires 0 <= i < |words| => JStr(words[i]))
  }

  /** The generation parameters an instance keeps: a copy of the given ones
      whose "stop" list (empty when absent) is extended by the stop words and
      whose "max_tokens" defaults to 512. A "stop" entry that is not a list
      cannot be extended, which is an error. */
  function PreparedKwargs(kwargs: Option<map<string, Json>>, stopWords: Option<seq<string>>)
    : (r: Result<map<string, Json>, ConfigError>)
    ensures r.Failure? <==> "stop" in kwargs.GetOr(map[]) && !kwargs.GetOr(map[])["stop"].JArr?
    ensures r.Failure? ==> r.error == StopNotAList
    ensures r.Success? ==> r.value.Keys == kwargs.GetOr(map[]).Keys + {"stop", "max_tokens"}
    ensures r.Success? ==>
      && r.value["stop"].JArr?
      && r.value["stop"].items ==
           (if "stop" in kwargs.GetOr(map[]) then kwargs.GetOr(map[])["stop"].items else [])
           + WordValues(stopWords.GetOr([]))
    ensures r.Success? ==>
      r.value["max_tokens"] == if "max_tokens" in kwargs.GetOr(map[]) then kwargs.GetOr(map[])["max_tokens"] else JNum(512)
    ensures r.Success? ==>
      forall k :: k in kwargs.GetOr(map[]) && k != "stop" && k != "max_tokens" ==> r.value[k] == kwargs.GetOr(map[])[k]
  {
    var given := kwargs.GetOr(map[]);
    var stop := if "stop" in given then given["stop"] else JArr([]);
    if !stop.JArr? then Failure(StopNotAList)
    else
      var withStop := given["stop" := JArr(stop.items + WordValues(stopWords.GetOr([])))];
      Success(if "max_tokens" in withStop then withStop else withStop["max_tokens" := JNum(512)])
  }

  /** Sets up the generation parameters step by step on a local copy. */
  method PrepareGenerationKwargs(kwargs: Option<map<string, Json>>, stopWords: Option<seq<string>>)
    returns (r: Result<map<string, Json>, ConfigError>)
    ensures r == PreparedKwargs(kwargs, stopWords)
  {
    var generationKwargs: map<string, Json> := if kwargs.Some? && kwargs.value != map[] then kwargs.value else map[];
    ghost var given := generationKwargs;
    var stop := if "stop" in generationKwargs then generationKwargs["stop"] else JArr([]);
    generationKwargs := generationKwargs["stop" := stop];
    if !stop.JArr? {
      return Failure(StopNotAList);
    }
    var words := if stopWords.Some? then stopWords.value else [];
    generationKwargs := generationKwargs["stop" := JArr(stop.items + WordValues(words))];
    assert generationKwargs == given["stop" := JArr(stop.items + WordValues(words))];
    if "max_tokens" !in generationKwargs {
      generationKwargs := generationKwargs["max_tokens" := JNum(512)];
    }
    r := Success(generationKwargs);
  }

  /** The call-time parameters override the instance's, key by key. */
  function MergeKwargs(defaults: map<string, Json>, overrides: Option<map<string, Json>>): (r: map<string, Json>)
    ensures r.Keys == defaults.Keys + overrides.GetOr(map[]).Keys
    ensures forall k :: k in overrides.GetOr(map[]) ==> r[k] == overrides.GetOr(map[])[k]
    ensures forall k :: k in defaults && k !in overrides.GetOr(map[]) ==> r[k] == defaults[k]
  {
    defaults + overrides.GetOr(map[])
  }

  /** Call-time tools replace the instance's when given (Python's `or`). */
  function EffectiveTools(callTools: Option<seq<Tool>>, instanceTools: Option<seq<Tool>>): Option<seq<Tool>> {
    if ToolsGiven(callTools) then callTools else instanceTools
  }

  /** A call-time callback takes precedence over the instance's. */
  function SelectCallback(instanceCallback: Option<CallbackId>, callCallback: Option<CallbackId>): Option<CallbackId> {
    if callCallback.Some? then callCallback else instanceCallback
  }

  /** The request a call sends to the vendor. */
  datatype Request =
    | StreamingRequest(kwargs: map<string, Json>, callback: CallbackId)
    | CompletionRequest(kwargs: map<string, Json>, hfTools: Option<seq<HfTool>>)

  /** What one call decides before reaching the vendor. Only the instance's
      callback is weighed against the tools; a call-time callback still
      selects streaming, and streaming requests carry no tools. */
  function PlanRun(instanceKwargs: map<string, Json>, instanceTools: Option<seq<Tool>>, instanceCallback: Option<CallbackId>,
                   callKwargs: Option<map<string, Json>>, callTools: Option<seq<Tool>>, callCallback: Option<CallbackId>,
                   key: SchemaKey)
    : (r: Result<Request, ConfigError>)
    ensures r.Failure? <==>
      || (ToolsGiven(EffectiveTools(callTools, instanceTools)) && instanceCallback.Some?)
      || !DistinctToolNames(EffectiveTools(callTools, instanceTools).GetOr([]))
    ensures ToolsGiven(EffectiveTools(callTools, instanceTools)) && instanceCallback.Some? ==> r == Failure(ToolsWithStreaming)
    ensures r.Failure? ==> r.error in {ToolsWithStreaming, DuplicateToolNames}
    ensures
      && !(ToolsGiven(EffectiveTools(callTools, instanceTools)) && instanceCallback.Some?)
      && !DistinctToolNames(EffectiveTools(callTools, instanceTools).GetOr([]))
      ==> r == Failure(DuplicateToolNames)
    ensures r.Success? ==> r.value.kwargs == MergeKwargs(instanceKwargs, callKwargs)
    ensures r.Success? ==> (r.value.StreamingRequest? <==> callCallback.Some? || instanceCallback.Some?)
    ensures r.Success? && r.value.StreamingRequest? ==>
      r.value.callback == if callCallback.Some? then callCallback.value else instanceCallback.value
    ensures r.Success? && r.value.CompletionRequest? ==>
      r.value.hfTools == ConvertTools(if ToolsGiven(callTools) then callTools else instanceTools, key)
  {
    var kwargs := MergeKwargs(instanceKwargs, callKwargs);
    var tools := EffectiveTools(callTools, instanceTools);
    if ToolsGiven(tools) && instanceCallback.Some? then Failure(ToolsWithStreaming)
    else if !DistinctToolNames(tools.GetOr([])) then Failure(DuplicateToolNames)
    else
      var callback := SelectCallback(instanceCallback, callCallback);
      if callback.Some? then Success(StreamingRequest(kwargs, callback.value))
      else Success(CompletionRequest(kwargs, ConvertTools(tools, key)))
  }

  /** With no callback on the instance, tools and a call-time callback are
      not rejected: the call streams and the tools are not sent. */
  lemma CallTimeCallbackDropsTools(instanceKwargs: map<string, Json>, instanceTools: Option<seq<Tool>>,
                                   callKwargs: Option<map<string, Json>>, callTools: Option<seq<Tool>>,
                                   callback: CallbackId, key: SchemaKey)
    requires ToolsGiven(callTools) && DistinctToolNames(callTools.value)
    ensures PlanRun(instanceKwargs, instanceTools, None, callKwargs, callTools, Some(callback), key)
         == Success(StreamingRequest(MergeKwargs(instanceKwargs, callKwargs), callback))
  {
  }

  /** The replies of a non-streamed completion: none when the vendor returned
      no choices, otherwise one assistant message built from the first choice,
      with its tool calls normalised and its usage defaulted to zero counts. */
  function CompletionReplies(output: ChatCompletionOutput, model: string, decode: string -> Option<Json>)
    : (replies: seq<ChatMessage>)
    ensures replies == [] <==> output.choices.None? || output.choices.value == []
    ensures |replies| <= 1
    ensures replies != [] ==>
      && replies[0].role == AssistantRole
      && replies[0].text == output.choices.value[0].message.content
      && replies[0].toolCalls == ConvertAll(output.choices.value[0].message.toolCalls.GetOr([]), decode)
      && replies[0].meta.Keys == {"model", "finish_reason", "index", "usage"}
      && replies[0].meta["model"] == JStr(model)
      && replies[0].meta["finish_reason"] == JStr(output.choices.value[0].finishReason)
      && replies[0].meta["index"] == JNum(output.choices.value[0].index)
      && HasUsage(replies[0].meta)
      && replies[0].meta["usage"] == UsageJson(output.usage.GetOr(Usage(0, 0)))
  {
    if output.choices.None? || |output.choices.value| == 0 then []
    else
      var choice := output.choices.value[0];
      var usage := if output.usage.Some? then output.usage.value else Usage(0, 0);
      var meta := map["model" := JStr(model), "finish_reason" := JStr(choice.finishReason),
                      "index" := JNum(choice.index), "usage" := UsageJson(usage)];
      [ChatMessage(AssistantRole, choice.message.content, ConvertAll(choice.message.toolCalls.GetOr([]), decode), meta)]
  }

  /** Shapes the vendor's answer to a non-streamed request into replies. */
  method ShapeCompletion(output: ChatCompletionOutput, model: string, decode: string -> Option<Json>)
    returns (replies: seq<ChatMessage>)
    ensures replies == CompletionReplies(output, model, decode)
  {
    if output.choices.None? || |output.choices.value| == 0 {
      return [];
    }
    var choice := output.choices.value[0];
    var toolCalls, _ := ConvertHfToolCalls(choice.message.toolCalls, decode);
    var meta := map["model" := JStr(model), "finish_reason" := JStr(choice.finishReason), "index" := JNum(choice.index)];
    var usage := UsageJson(Usage(0, 0));
    if output.usage.Some? {
      usage := UsageJson(output.usage.value);
    }
    meta := meta["usage" := usage];
    replies := [ChatMessage(AssistantRole, choice.message.content, toolCalls, meta)];
  }

  /** Both paths report usage: a reply, streamed or not, always carries a
      usage entry, zero counts when the vendor reported none. */
  lemma UsageAlwaysReported(output: ChatCompletionOutput, model: string, decode: string -> Option<Json>,
                            events: seq<StreamEvent>, info: Option<ComponentInfo>, clock: nat -> string,
                            fold: seq<StreamingChunk> -> ChatMessage)
    ensures forall m :: m in CompletionReplies(output, model, decode) ==> HasUsage(m.meta)
    ensures HasUsage(WithDefaultUsage(fold(ChunksOf(events, info, clock))).meta)
  {
  }

  class ChatGenerator {
    const apiType: ApiType
    const apiParams: map<string, string>
    const generationKwargs: map<string, Json>
    const streamingCallback: Option<CallbackId>
    const tools: Option<seq<Tool>>
    /** The model id or URL the inference client was created for. */
    const clientModel: string
    /** The parameters handed on to the inference client: all but "model" and "url". */
    const clientParams: map<string, string>

    constructor (endpoint: Endpoint, apiParams: map<string, string>, generationKwargs: map<string, Json>,
                 streamingCallback: Option<CallbackId>, tools: Option<seq<Tool>>)
      ensures this.apiType == endpoint.apiType && this.clientModel == endpoint.modelOrUrl
      ensures this.apiParams == apiParams && this.generationKwargs == generationKwargs
      ensures this.streamingCallback == streamingCallback && this.tools == tools
      ensures clientParams.Keys == apiParams.Keys - {"model", "url"}
      ensures forall k :: k in clientParams ==> clientParams[k] == apiParams[k]
    {
      this.apiType := endpoint.apiType;
      this.apiParams := apiParams;
      this.generationKwargs := generationKwargs;
      this.streamingCallback := streamingCallback;
      this.tools := tools;
      this.clientModel := endpoint.modelOrUrl;
      this.clientParams := map k | k in apiParams && k != "model" && k != "url" :: apiParams[k];
    }

    /** Construction: the checks of CheckConstruction, then the generation
        parameters of PreparedKwargs; the first failure is the error raised. */
    static method Create(apiType: ApiTypeArg, apiParams: map<string, string>, isValidUrl: string -> bool,
                         generationKwargs: Option<map<string, Json>>, stopWords: Option<seq<string>>,
                         streamingCallback: Option<CallbackId>, tools: Option<seq<Tool>>)
      returns (r: Result<ChatGenerator, ConfigError>)
      ensures CheckConstruction(apiType, apiParams, isValidUrl, streamingCallback, tools).Failure? ==>
        r == Failure(CheckConstruction(apiType, apiParams, isValidUrl, streamingCallback, tools).error)
      ensures CheckConstruction(apiType, apiParams, isValidUrl, streamingCallback, tools).Success? ==>
        (r.Failure? <==> PreparedKwargs(generationKwargs, stopWords).Failure?)
      ensures r.Failure? && CheckConstruction(apiType, apiParams, isValidUrl, streamingCallback, tools).Success? ==>
        r.error == StopNotAList
      ensures r.Success? ==>
        && fresh(r.value)
        && Endpoint(r.value.apiType, r.value.clientModel) == CheckConstruction(apiType, apiParams, isValidUrl, streamingCallback, tools).value
        && Success(r.value.generationKwargs) == PreparedKwargs(generationKwargs, stopWords)
        && r.value.apiParams == apiParams && r.value.streamingCallback == streamingCallback && r.value.tools == tools
        && r.value.clientParams.Keys == apiParams.Keys - {"model", "url"}
        && (forall k :: k in r.value.clientParams ==> r.value.clientParams[k] == apiParams[k])
    {
      var checked := CheckConstruction(apiType, apiParams, isValidUrl, streamingCallback, tools);
      if checked.Failure? {
        return Failure(checked.error);
      }
      var kwargs := PrepareGenerationKwargs(generationKwargs, stopWords);
      if kwargs.Failure? {
        return Failure(kwargs.error);
      }
      var generator := new ChatGenerator(checked.value, apiParams, kwargs.value, streamingCallback, tools);
      r := Success(generator);
    }

    /** One synchronous call. `complete` and `stream` stand for the inference
        client, `decode` for JSON decoding, `fold` for the conversion of the
        collected chunks into one message, `clock` for the receipt time
        stamps and `key` for the vendor library's schema key. */
    method Run(callKwargs: Option<map<string, Json>>, callTools: Option<seq<Tool>>, callCallback: Option<CallbackId>,
               key: SchemaKey, decode: string -> Option<Json>,
               complete: Request -> ChatCompletionOutput, stream: Request -> seq<StreamEvent>,
               info: Option<ComponentInfo>, clock: nat -> string, fold: seq<StreamingChunk> -> ChatMessage)
      returns (r: Result<seq<ChatMessage>, ConfigError>)
      ensures PlanRun(generationKwargs, tools, streamingCallback, callKwargs, callTools, callCallback, key).Failure? ==>
        r == Failure(PlanRun(generationKwargs, tools, streamingCallback, callKwargs, callTools, callCallback, key).error)
      ensures PlanRun(generationKwargs, tools, streamingCallback, callKwargs, callTools, callCallback, key).Success? ==>
        var request := PlanRun(generationKwargs, tools, streamingCallback, callKwargs, callTools, callCallback, key).value;
        r == Success(
          if request.StreamingRequest? then [WithDefaultUsage(fold(ChunksOf(stream(request), info, clock)))]
          else CompletionReplies(complete(request), clientModel, decode))
    {
      var kwargs := MergeKwargs(generationKwargs, callKwargs);
      var effectiveTools := if ToolsGiven(callTools) then callTools else tools;
      if ToolsGiven(effectiveTools) && streamingCallback.Some? {
        return Failure(ToolsWithStreaming);
      }
      if !DistinctToolNames(effectiveTools.GetOr([])) {
        return Failure(DuplicateToolNames);
      }
      var callback := SelectCallback(streamingCallback, callCallback);
      if callback.Some? {
        var events := stream(StreamingRequest(kwargs, callback.value));
        var replies := RunStreaming(events, info, clock, fold);
        return Success(replies);
      }
      var hfTools := ConvertToolsToHfTools(effectiveTools, key);
      var output := complete(CompletionRequest(kwargs, hfTools));
      var replies := ShapeCompletion(output, clientModel, decode);
      r := Success(replies);
    }
  }
}

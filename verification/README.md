# Hugging Face API chat generator, modelled in Dafny

This project models the data shaping of haystack's `HuggingFaceAPIChatGenerator`
(`haystack/components/generators/chat/hugging_face_api.py`), the component that
lets a pipeline chat with the Hugging Face serverless inference API, a paid
inference endpoint or a self-hosted Text Generation Inference server. The
network calls are not modelled. The model covers what the component does
around them:

- **Finish-reason mapping** (`Streaming.MapFinishReason`). The vendor's stop
  string becomes the framework's shared `FinishReason`.
- **Tool-call normalisation** (`ToolConversion`). The vendor's tool calls
  become framework `ToolCall`s. Records with undecodable or wrongly typed
  arguments are dropped with a warning; records whose arguments are empty are
  dropped without one.
- **Tool-definition conversion** (`ToolConversion`). Framework tools become
  the vendor's function-typed tool definitions.
- **Chunk translation** (`Streaming`). Each streamed vendor event becomes one
  `StreamingChunk`. A loop collects the chunks of a turn, and the message
  folded from them gets a usage default.
- **Construction and call rules** (`HfChatGenerator`). These cover the API
  variant and its required parameter, the tools/streaming exclusion, the stop
  words and the `max_tokens` default, the call-time override precedence, and
  the shaping of a non-streamed reply.

Some things the component depends on are not shown, or have no behaviour to
verify. They are parameters of the model:

- `decode: string -> Option<Json>` stands for `json.loads`. It gives `None`
  where `json.loads` raises.
- `isValidUrl` stands for `is_valid_http_url`.
- `complete` and `stream` stand for the inference client's `chat_completion`.
- `fold` stands for `_convert_streaming_chunks_to_chat_message`.
- `clock` stands for the receipt time stamps.
- `key` stands for the vendor library's schema key: `"arguments"` on older
  libraries, `"parameters"` on newer ones.

Python truthiness is written out explicitly:

- `HfTypes.Truthy` gives the truthiness of a decoded JSON value.
- `HfTypes.ToolsGiven` gives the truthiness of an optional tool list.

The model follows the code in three places where its behaviour is easy to
miss:

- **Tool-call arguments need not be a mapping.** `json.loads` can return any
  JSON value, and the code keeps any truthy one. So `"[1]"` or `"5"` yields a
  `ToolCall` whose arguments are a list or a number.
  `ToolCall.arguments` is therefore a `Json`. What is proved is that the
  arguments are truthy (`ConvertAllArgumentsTruthy`), not that they are a
  mapping.
- **`run` checks tools only against the instance's callback** (lines 419-421).
  Suppose the instance has no callback, and the call passes both tools and a
  callback. The call is not rejected: it streams, and the tools are never sent.
  `CallTimeCallbackDropsTools` proves this.
- **An empty vendor finish reason `""` is falsy but not `None`.** Its chunk
  therefore has no `index` (line 181) and no mapped finish reason (line 175).
  `ToStreamingChunk` states both.

## Model

| member | source | states |
|---|---|---|
| `Streaming.MapFinishReason` | haystack/components/generators/chat/hugging_face_api.py:132-149 | an absent vendor reason maps to absent; tool-call evidence (`delta.tool_calls` or `delta.tool_call_id`) gives `tool_calls` whatever the string; otherwise `"length"` gives length and every other string (`eos_token`, `stop_sequence`, unknown) gives stop; never fails |
| `ToolConversion.ConvertRecord` | haystack/components/generators/chat/hugging_face_api.py:64-90 | a record is kept exactly when its arguments are a non-empty mapping or a text that decodes to a truthy value; other types and undecodable text are never kept; a kept record keeps its name and id, has truthy arguments, a mapping is passed through unchanged and a text's arguments are exactly its decoded value |
| `ToolConversion.ConvertHfToolCalls` | haystack/components/generators/chat/hugging_face_api.py:50-92 | the loop returns exactly the normalised calls of the records, in order, and the warnings for undecodable or wrongly typed arguments; absent or empty input gives nothing |
| `ToolConversion.ConvertAllAppend` | haystack/components/generators/chat/hugging_face_api.py:63-92 | normalisation is order-preserving: normalising a concatenation concatenates the results |
| `ToolConversion.ConvertAllBounded` | haystack/components/generators/chat/hugging_face_api.py:63-90 | each record yields a tool call, a warning or neither, so calls plus warnings never exceed the records (hence output length at most input length) |
| `ToolConversion.ConvertAllIsOrderedSubsequence` | haystack/components/generators/chat/hugging_face_api.py:61-92 | the output is the subsequence of kept records: strictly increasing record indices, each output element the conversion of its record, and every kept record present |
| `ToolConversion.ConvertAllArgumentsTruthy` | haystack/components/generators/chat/hugging_face_api.py:89-90 | every emitted tool call has truthy (non-empty) arguments |
| `ToolConversion.MalformedJsonSkipped` | haystack/components/generators/chat/hugging_face_api.py:69-79 | a record whose text does not decode gives no tool call and exactly one warning naming its id, tool and text, with nothing raised |
| `ToolConversion.ConvertToolsToHfTools` | haystack/components/generators/chat/hugging_face_api.py:95-112 | the loop builds exactly the definitions of `ConvertTools`: none for absent or empty tools, otherwise one per tool in order |
| `ToolConversion.DefinitionsOfFaithful` | haystack/components/generators/chat/hugging_face_api.py:104-110 | one definition per tool, in input order, each of type "function" with the tool's name, description and parameters under the library's schema key |
| `ToolConversion.DefinitionsRoundTrip` | haystack/components/generators/chat/hugging_face_api.py:104-110 | reading the tools back from their definitions gives the original tool list |
| `ToolConversion.ConvertToolsRoundTrip` | haystack/components/generators/chat/hugging_face_api.py:98-112 | the conversion is absent exactly when tools are absent or empty, and otherwise round-trips to the tools |
| `Streaming.ToStreamingChunk` | haystack/components/generators/chat/hugging_face_api.py:160-186 | zero choices: empty content, no index, not a start, no finish reason, meta exactly model, time stamp and usage (the event's prompt/completion counts, or null); otherwise content is the delta's content or "", index is 0 exactly when the vendor reason is absent, start exactly when no chunk came before, a mapped finish reason exactly for a non-empty vendor reason, and meta carries the raw vendor reason |
| `Streaming.ChunksOf` | haystack/components/generators/chat/hugging_face_api.py:505-511 | a turn yields exactly one chunk per event |
| `Streaming.CollectChunks` | haystack/components/generators/chat/hugging_face_api.py:504-511 | the loop, where each translation sees the chunks gathered so far, produces exactly `ChunksOf` of the events |
| `Streaming.ChunksOfPrefix` | haystack/components/generators/chat/hugging_face_api.py:505-510 | the chunks of a prefix of the events are the prefix of the chunks; a chunk never depends on later events |
| `Streaming.ChunkAt` | haystack/components/generators/chat/hugging_face_api.py:506-510 | chunk i is the translation of event i given the i chunks before it |
| `Streaming.StartMarksFirstChunkOnly` | haystack/components/generators/chat/hugging_face_api.py:183 | in a turn only the first chunk can be a start, and it is one exactly when the first event has a choice |
| `Streaming.WithDefaultUsage` | haystack/components/generators/chat/hugging_face_api.py:513-515 | afterwards usage is present; absent or null usage becomes zero counts; reported usage and every other field and meta entry are unchanged |
| `Streaming.RunStreaming` | haystack/components/generators/chat/hugging_face_api.py:491-517 | a streamed turn replies with exactly one message: the fold of the turn's chunks, with usage defaulted |
| `HfChatGenerator.ParseApiType` | haystack/components/generators/chat/hugging_face_api.py:306-307 | an API-type name is parsed to the variant of that name, and every variant's name parses back to it |
| `HfChatGenerator.ResolveEndpoint` | haystack/components/generators/chat/hugging_face_api.py:309-330 | serverless needs "model" (else missing-model error) and the client targets it; endpoints and TGI need "url" (else missing-url) that the URL check accepts (else invalid-url) and the client targets it; an unknown name is an error |
| `HfChatGenerator.CheckConstruction` | haystack/components/generators/chat/hugging_face_api.py:306-334 | construction passes its checks exactly when the endpoint resolves, not both tools and a callback are given, and tool names are distinct; endpoint errors come first, then the tools/streaming error, then the duplicate-names error |
| `HfChatGenerator.PreparedKwargs` | haystack/components/generators/chat/hugging_face_api.py:337-340 | "stop" becomes the given stop list (or empty) followed by the stop words; "max_tokens" is 512 exactly when not supplied and the supplied value otherwise; all other keys are kept; a "stop" that is not a list is an error |
| `HfChatGenerator.PrepareGenerationKwargs` | haystack/components/generators/chat/hugging_face_api.py:337-340 | the in-place setup on a local copy produces exactly `PreparedKwargs` |
| `HfChatGenerator.MergeKwargs` | haystack/components/generators/chat/hugging_face_api.py:415 | the effective generation kwargs have the keys of both; call-time values win key by key and the instance's fill the rest |
| `HfChatGenerator.PlanRun` | haystack/components/generators/chat/hugging_face_api.py:414-437 | a call fails exactly when effective tools meet the instance callback (error tools-with-streaming) or, failing that, tool names repeat (error duplicate-names); call-time tools replace the instance's when given; it streams exactly when a callback exists, the call-time one winning; non-streaming requests carry the converted effective tools; kwargs are the merge |
| `HfChatGenerator.CallTimeCallbackDropsTools` | haystack/components/generators/chat/hugging_face_api.py:419-430 | with no instance callback, call-time tools plus a call-time callback are not rejected: the call streams without tools |
| `HfChatGenerator.CompletionReplies` | haystack/components/generators/chat/hugging_face_api.py:529-556 | absent or empty choices give no replies; otherwise one assistant reply with the first choice's text and normalised tool calls, and meta exactly model, finish reason, index and usage (zero counts when unreported) |
| `HfChatGenerator.ShapeCompletion` | haystack/components/generators/chat/hugging_face_api.py:519-556 | the step-by-step reply assembly produces exactly `CompletionReplies` |
| `HfChatGenerator.UsageAlwaysReported` | haystack/components/generators/chat/hugging_face_api.py:513-553 | on both the non-streaming and streaming paths every reply carries non-null usage |
| `HfChatGenerator.ChatGenerator.constructor` | haystack/components/generators/chat/hugging_face_api.py:342-355 | the instance keeps API type, parameters, prepared kwargs, callback and tools; the client targets the resolved model or URL with every parameter except "model" and "url" |
| `HfChatGenerator.ChatGenerator.Create` | haystack/components/generators/chat/hugging_face_api.py:306-355 | construction raises the first failing check, then the stop-list error; on success the fresh instance holds the resolved endpoint, exactly the prepared kwargs, and client parameters equal to `api_params` without "model" and "url" |
| `HfChatGenerator.ChatGenerator.Run` | haystack/components/generators/chat/hugging_face_api.py:389-437 | a call raises exactly the planned error; otherwise it replies with the streamed turn's defaulted message or the completion replies of the planned request |

## Left out

- Network I/O: the `InferenceClient` / `AsyncInferenceClient` calls. They are parameters (`complete`, `stream`), and a transport failure is not modelled.
- The asynchronous variants (`run_async`, `_run_streaming_async`, `_run_non_streaming_async`). They repeat the synchronous logic.
- `check_valid_model` (a remote lookup at line 315). It is not part of this model.
- `is_valid_http_url` and `json.loads`: their source is not shown. They are the parameters `isValidUrl` and `decode`.
- `HFGenerationAPIType.from_str`: its source is not shown. `ParseApiType` accepts the three names that the class docstring lists.
- `_check_duplicate_tool_names`: its source is not shown. It is modelled as the error `DuplicateToolNames` when two tools share a name.
- `_convert_streaming_chunks_to_chat_message`, the fold of the chunks into one message: it is not part of this model. It is the parameter `fold`, so the text concatenation it performs is not proved here.
- `convert_message_to_hf_format`: not part of this model. Requests carry no message list.
- `select_streaming_callback`: not part of this model. Only its precedence is modelled (a call-time callback wins). Its check that the callback is synchronous is not modelled.
- Streaming callback invocation: not modelled as an effect. The callback receives, in order, the chunks that `CollectChunks` returns.
- `datetime.now().isoformat()`: the time stamps are the parameter `clock`.
- `ComponentInfo.from_component`: the parameter `info`.
- Logging: only the skip warnings of the tool-call normaliser are kept, as a returned sequence.
- `UnsupportedArgumentType` carries the id, the tool name and the arguments' printed form, which is what the log call at lines 81-86 passes. Its message template also names a `{_type}` placeholder, but no value is passed for it, so the model's warning carries no type name.
- `to_dict` / `from_dict`, secrets and the token: serialisation is not modelled.
- A `Toolset` and a tool list are both modelled as a sequence of tools.
- JSON numbers are integers only. Floating point is not modelled.
- `HfChatGenerator.PrepareGenerationKwargs`: works on values. So it does not capture that the shallow `copy()` at line 337 lets `.extend` at line 339 grow the caller's own `stop` list.
- `HfChatGenerator.CompletionReplies`: assumes the client's `model` attribute is the model id or URL it was created with.

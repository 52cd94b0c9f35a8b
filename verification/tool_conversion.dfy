/** The two converters between the framework's tools and the vendor's:
    the tool-call normaliser (vendor tool calls to framework tool calls) and
    the tool-definition converter (framework tools to vendor definitions). */
module ToolConversion {
  import opened HfTypes

  /** The warning logged when a vendor tool call is skipped, with the values
      the log call hands over: the call's id, its tool name and its arguments. */
  datatype SkipWarning =
    | MalformedJson(id: string, name: string, text: string)
    | UnsupportedArgumentType(id: string, name: string, arguments: string)

  /** The arguments obtained from a vendor payload: the mapping as it is, the
      decoded text, or None when the text does not decode or the type is
      neither mapping nor text. `decode` stands for `json.loads`; it answers
      None where `json.loads` raises. */
  function ParsedArguments(args: HfArguments, decode: string -> Option<Json>): Option<Json> {
    match args
    case DictArguments(fields) => Some(JObj(fields))
    case TextArguments(text) => decode(text)
    case OtherArguments(_) => None
  }

  /** The tool call one vendor record yields, if any. */
  function ConvertRecord(tc: HfToolCall, decode: string -> Option<Json>): (r: Option<ToolCall>)
    ensures r.Some? <==>
      match tc.arguments
      case DictArguments(fields) => fields != map[]
      case TextArguments(text) => decode(text).Some? && Truthy(decode(text).value)
      case OtherArguments(_) => false
    ensures r.Some? ==> r.value.toolName == tc.name && r.value.id == tc.id && Truthy(r.value.arguments)
    ensures r.Some? && tc.arguments.DictArguments? ==> r.value.arguments == JObj(tc.arguments.fields)
    ensures r.Some? && tc.arguments.TextArguments? ==> r.value.arguments == decode(tc.arguments.text).value
  {
    match ParsedArguments(tc.arguments, decode)
    case Some(a) => if Truthy(a) then Some(ToolCall(tc.name, a, tc.id)) else None
    case None => None
  }

  /** The warning one vendor record causes, if any. */
  function RecordWarning(tc: HfToolCall, decode: string -> Option<Json>): Option<SkipWarning> {
    match tc.arguments
    case DictArguments(_) => None
    case TextArguments(text) => if decode(text).None? then Some(MalformedJson(tc.id, tc.name, text)) else None
    case OtherArguments(shown) => Some(UnsupportedArgumentType(tc.id, tc.name, shown))
  }

  function Present<T>(o: Option<T>): seq<T> {
    if o.Some? then [o.value] else []
  }

  /** The tool calls the records yield, in record order. */
  function ConvertAll(records: seq<HfToolCall>, decode: string -> Option<Json>): seq<ToolCall>
    decreases |records|
  {
    if records == [] then []
    else ConvertAll(records[..|records| - 1], decode) + Present(ConvertRecord(records[|records| - 1], decode))
  }

  /** The warnings the records cause, in record order. */
  function WarningsOf(records: seq<HfToolCall>, decode: string -> Option<Json>): seq<SkipWarning>
    decreases |records|
  {
    if records == [] then []
    else WarningsOf(records[..|records| - 1], decode) + Present(RecordWarning(records[|records| - 1], decode))
  }

  /** Normalises the vendor's optional tool-call list, returning the tool
      calls kept and the warnings logged for the records skipped. */
  method ConvertHfToolCalls(hfToolCalls: Option<seq<HfToolCall>>, decode: string -> Option<Json>)
    returns (toolCalls: seq<ToolCall>, warnings: seq<SkipWarning>)
    ensures toolCalls == ConvertAll(hfToolCalls.GetOr([]), decode)
    ensures warnings == WarningsOf(hfToolCalls.GetOr([]), decode)
  {
    toolCalls, warnings := [], [];
    if hfToolCalls.None? || hfToolCalls.value == [] {
      return;
    }
    var records := hfToolCalls.value;
    var i := 0;
    while i < |records|
      invariant 0 <= i <= |records|
      invariant toolCalls == ConvertAll(records[..i], decode)
      invariant warnings == WarningsOf(records[..i], decode)
    {
      var tc := records[i];
      var arguments: Option<Json> := None;
      match tc.arguments {
        case DictArguments(fields) =>
          arguments := Some(JObj(fields));
        case TextArguments(text) =>
          arguments := decode(text);
          if arguments.None? {
            warnings := warnings + [MalformedJson(tc.id, tc.name, text)];
          }
        case OtherArguments(shown) =>
          warnings := warnings + [UnsupportedArgumentType(tc.id, tc.name, shown)];
      }
      if arguments.Some? && Truthy(arguments.value) {
        toolCalls := toolCalls + [ToolCall(tc.name, arguments.value, tc.id)];
      }
      assert records[..i + 1][..i] == records[..i];
      i := i + 1;
    }
    assert records[..|records|] == records;
  }

  /** Normalising a concatenation normalises each part. */
  lemma {:induction false} ConvertAllAppend(a: seq<HfToolCall>, b: seq<HfToolCall>, decode: string -> Option<Json>)
    ensures ConvertAll(a + b, decode) == ConvertAll(a, decode) + ConvertAll(b, decode)
    decreases |b|
  {
    if b == [] {
      assert a + b == a;
    } else {
      var b' := b[..|b| - 1];
      assert (a + b)[..|a + b| - 1] == a + b';
      assert (a + b)[|a + b| - 1] == b[|b| - 1];
      ConvertAllAppend(a, b', decode);
    }
  }

  /** Every record yields a tool call, a warning, or neither, never both:
      so the kept calls and the warnings together are no more than the records. */
  lemma {:induction false} ConvertAllBounded(records: seq<HfToolCall>, decode: string -> Option<Json>)
    ensures |ConvertAll(records, decode)| + |WarningsOf(records, decode)| <= |records|
    decreases |records|
  {
    if records != [] {
      ConvertAllBounded(records[..|records| - 1], decode);
    }
  }

  /** The calls of the records before the last one keep their places, and
      their source records, when the last record is appended. */
  lemma {:induction false} PickedCallsPersist(records: seq<HfToolCall>, decode: string -> Option<Json>, earlier: seq<nat>)
    requires records != []
    requires |earlier| == |ConvertAll(records[..|records| - 1], decode)|
    requires forall k :: 0 <= k < |earlier| ==>
      earlier[k] < |records| - 1 &&
      ConvertRecord(records[..|records| - 1][earlier[k]], decode) == Some(ConvertAll(records[..|records| - 1], decode)[k])
    ensures forall k :: 0 <= k < |earlier| ==>
      earlier[k] < |records| && ConvertRecord(records[earlier[k]], decode) == Some(ConvertAll(records, decode)[k])
  {
    var prefix := records[..|records| - 1];
    assert ConvertAll(records, decode) == ConvertAll(prefix, decode) + Present(ConvertRecord(records[|records| - 1], decode));
    forall k | 0 <= k < |earlier|
      ensures earlier[k] < |records| && ConvertRecord(records[earlier[k]], decode) == Some(ConvertAll(records, decode)[k])
    {
      assert records[earlier[k]] == prefix[earlier[k]];
    }
  }

  /** A kept record before the last one is still among the picked indices. */
  lemma {:induction false} KeptRecordsPicked(records: seq<HfToolCall>, decode: string -> Option<Json>, earlier: seq<nat>)
    requires records != []
    requires forall j :: 0 <= j < |records| - 1 && ConvertRecord(records[..|records| - 1][j], decode).Some? ==> j in earlier
    ensures forall j :: 0 <= j < |records| - 1 && ConvertRecord(records[j], decode).Some? ==> j in earlier
  {
    forall j | 0 <= j < |records| - 1 && ConvertRecord(records[j], decode).Some?
      ensures j in earlier
    {
      assert records[j] == records[..|records| - 1][j];
    }
  }

  /** The output is the subsequence of the records that are kept, in their
      order: `picked` gives, for each tool call, the record it came from. */
  lemma {:induction false} ConvertAllIsOrderedSubsequence(records: seq<HfToolCall>, decode: string -> Option<Json>)
    returns (picked: seq<nat>)
    ensures |picked| == |ConvertAll(records, decode)|
    ensures forall k :: 0 <= k < |picked| ==>
      picked[k] < |records| && ConvertRecord(records[picked[k]], decode) == Some(ConvertAll(records, decode)[k])
    ensures forall k, l :: 0 <= k < l < |picked| ==> picked[k] < picked[l]
    ensures forall j :: 0 <= j < |records| && ConvertRecord(records[j], decode).Some? ==> j in picked
    decreases |records|
  {
    if records == [] {
      picked := [];
    } else {
      var n := |records| - 1;
      var earlier := ConvertAllIsOrderedSubsequence(records[..n], decode);
      PickedCallsPersist(records, decode, earlier);
      KeptRecordsPicked(records, decode, earlier);
      var out := ConvertAll(records, decode);
      var last := ConvertRecord(records[n], decode);
      assert out == ConvertAll(records[..n], decode) + Present(last);
      if last.Some? {
        picked := earlier + [n];
        assert picked[|earlier|] == n && out[|earlier|] == last.value;
        forall k | 0 <= k < |picked|
          ensures picked[k] < |records| && ConvertRecord(records[picked[k]], decode) == Some(out[k])
        {
          if k < |earlier| {
            assert picked[k] == earlier[k];
          }
        }
      } else {
        picked := earlier;
      }
    }
  }

  /** Every emitted tool call has truthy (non-empty) arguments. */
  lemma {:induction false} ConvertAllArgumentsTruthy(records: seq<HfToolCall>, decode: string -> Option<Json>)
    ensures forall k :: 0 <= k < |ConvertAll(records, decode)| ==> Truthy(ConvertAll(records, decode)[k].arguments)
    decreases |records|
  {
    if records != [] {
      ConvertAllArgumentsTruthy(records[..|records| - 1], decode);
    }
  }

  /** A lone record whose text arguments do not decode is skipped, with
      exactly one warning naming its id and tool. */
  lemma MalformedJsonSkipped(tc: HfToolCall, decode: string -> Option<Json>)
    requires tc.arguments.TextArguments? && decode(tc.arguments.text).None?
    ensures ConvertAll([tc], decode) == []
    ensures WarningsOf([tc], decode) == [MalformedJson(tc.id, tc.name, tc.arguments.text)]
  {
    assert [tc][..0] == [];
  }

  // ---- Tool definitions ----

  /** The vendor definition of one tool. */
  function DefinitionOf(tool: Tool, key: SchemaKey): HfTool {
    HfTool("function", HfFunctionDefinition(tool.name, tool.description, tool.parameters, key))
  }

  /** The tool a vendor definition describes. */
  function ToolOf(h: HfTool): Tool {
    Tool(h.definition.name, h.definition.description, h.definition.parameters)
  }

  function DefinitionsOf(tools: seq<Tool>, key: SchemaKey): seq<HfTool>
    decreases |tools|
  {
    if tools == [] then [] else DefinitionsOf(tools[..|tools| - 1], key) + [DefinitionOf(tools[|tools| - 1], key)]
  }

  function ToolsOf(defs: seq<HfTool>): seq<Tool>
    decreases |defs|
  {
    if defs == [] then [] else ToolsOf(defs[..|defs| - 1]) + [ToolOf(defs[|defs| - 1])]
  }

  /** The vendor definitions for an optional tool list: None when no tools
      are given, otherwise one definition per tool. `key` is the schema key
      of the installed vendor library. */
  function ConvertTools(tools: Option<seq<Tool>>, key: SchemaKey): Option<seq<HfTool>> {
    if ToolsGiven(tools) then Some(DefinitionsOf(tools.value, key)) else None
  }

  method ConvertToolsToHfTools(tools: Option<seq<Tool>>, key: SchemaKey) returns (hfTools: Option<seq<HfTool>>)
    ensures hfTools == ConvertTools(tools, key)
  {
    if !ToolsGiven(tools) {
      return None;
    }
    var list := tools.value;
    var defs: seq<HfTool> := [];
    var i := 0;
    while i < |list|
      invariant 0 <= i <= |list|
      invariant defs == DefinitionsOf(list[..i], key)
    {
      defs := defs + [DefinitionOf(list[i], key)];
      assert list[..i + 1][..i] == list[..i];
      i := i + 1;
    }
    assert list[..|list|] == list;
    hfTools := Some(defs);
  }

  /** One function-typed definition per tool, in order, each carrying its
      tool's name, description and parameters. */
  lemma {:induction false} DefinitionsOfFaithful(tools: seq<Tool>, key: SchemaKey)
    ensures |DefinitionsOf(tools, key)| == |tools|
    ensures forall i :: 0 <= i < |tools| ==>
      DefinitionsOf(tools, key)[i].kind == "function" && DefinitionsOf(tools, key)[i].definition.key == key
      && ToolOf(DefinitionsOf(tools, key)[i]) == tools[i]
    decreases |tools|
  {
    if tools != [] {
      DefinitionsOfFaithful(tools[..|tools| - 1], key);
    }
  }

  /** Reading the tools back from their definitions gives the tools again. */
  lemma {:induction false} DefinitionsRoundTrip(tools: seq<Tool>, key: SchemaKey)
    ensures ToolsOf(DefinitionsOf(tools, key)) == tools
    decreases |tools|
  {
    if tools != [] {
      var n := |tools| - 1;
      DefinitionsRoundTrip(tools[..n], key);
      var defs := DefinitionsOf(tools, key);
      DefinitionsOfFaithful(tools[..n], key);
      assert defs[..|defs| - 1] == DefinitionsOf(tools[..n], key);
      assert tools[..n] + [tools[n]] == tools;
    }
  }

  /** Conversion gives None exactly when no tools are given, and otherwise a
      list from which the tools can be read back. */
  lemma ConvertToolsRoundTrip(tools: Option<seq<Tool>>, key: SchemaKey)
    ensures ConvertTools(tools, key).None? <==> tools.None? || tools.value == []
    ensures ConvertTools(tools, key).Some? ==> ToolsOf(ConvertTools(tools, key).value) == tools.value
  {
    if tools.Some? {
      DefinitionsRoundTrip(tools.value, key);
    }
  }
}

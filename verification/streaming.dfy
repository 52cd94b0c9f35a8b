/** The streaming side of the chat generator: mapping the vendor's finish
    reasons, translating each streamed event into one streaming chunk,
    collecting the chunks of a turn, and the usage default applied to the
    message folded from them. */
module Streaming {
  import opened HfTypes

  /** The delta carries a tool-call fragment or a tool-call identifier. */
  predicate HasToolCallEvidence(delta: StreamDelta) {
    delta.toolCalls.Some? || delta.toolCallId.Some?
  }

  /** The vendor's documented finish reasons and their framework counterparts. */
  function VendorFinishReasons(): map<string, FinishReason> {
    map["length" := Length, "eos_token" := Stop, "stop_sequence" := Stop]
  }

  /** Maps the vendor's finish reason of a streamed choice. Absent stays
      absent; tool-call evidence wins over whatever the vendor says; otherwise
      only "length" is a length stop and every other string is a plain stop. */
  function MapFinishReason(choice: StreamChoice): (r: Option<FinishReason>)
    ensures r.None? <==> choice.finishReason.None?
    ensures choice.finishReason.Some? && HasToolCallEvidence(choice.delta) ==> r == Some(ToolCalls)
    ensures choice.finishReason.Some? && !HasToolCallEvidence(choice.delta) ==>
      r == Some(if choice.finishReason.value == "length" then Length else Stop)
  {
    if choice.finishReason.None? then None
    else if HasToolCallEvidence(choice.delta) then Some(ToolCalls)
    else
      var vendor := choice.finishReason.value;
      Some(if vendor in VendorFinishReasons() then VendorFinishReasons()[vendor] else Stop)
  }

  /** Translates one streamed event into one chunk, given the chunks already
      produced this turn and the receipt time stamp. An event without choices
      (the vendor's usage-only event) gives an empty chunk whose metadata
      carries the usage, or null; otherwise the first choice gives the content,
      and the chunk is indexed 0 only while the vendor reports no finish
      reason, and is a start only when no chunk came before it. */
  function ToStreamingChunk(event: StreamEvent, previous: seq<StreamingChunk>, info: Option<ComponentInfo>, receivedAt: string)
    : (c: StreamingChunk)
    ensures c.componentInfo == info
    ensures "model" in c.meta && c.meta["model"] == JStr(event.model)
    ensures "received_at" in c.meta && c.meta["received_at"] == JStr(receivedAt)
    ensures event.choices == [] ==>
      && c.content == "" && c.index.None? && !c.start && c.finishReason.None?
      && c.meta.Keys == {"model", "received_at", "usage"}
      && c.meta["usage"] == (if event.usage.Some? then UsageJson(event.usage.value) else JNull)
    ensures event.choices != [] ==>
      && c.content == event.choices[0].delta.content.GetOr("")
      && (c.index.Some? <==> event.choices[0].finishReason.None?)
      && (c.index.Some? ==> c.index.value == 0)
      && (c.start <==> previous == [])
      && (c.finishReason.Some? <==> event.choices[0].finishReason.Some? && event.choices[0].finishReason.value != "")
      && (c.finishReason.Some? ==> c.finishReason == MapFinishReason(event.choices[0]))
      && c.meta.Keys == {"model", "received_at", "finish_reason"}
      && c.meta["finish_reason"] ==
           (if event.choices[0].finishReason.Some? then JStr(event.choices[0].finishReason.value) else JNull)
  {
    var stamp := map["model" := JStr(event.model), "received_at" := JStr(receivedAt)];
    if |event.choices| == 0 then
      var usage := if event.usage.Some? then UsageJson(event.usage.value) else JNull;
      StreamingChunk("", stamp["usage" := usage], info, None, false, None)
    else
      var choice := event.choices[0];
      var vendorReason := if choice.finishReason.Some? then JStr(choice.finishReason.value) else JNull;
      // Only a non-empty vendor reason is mapped; an empty one is falsy.
      var mapped := if choice.finishReason.Some? && choice.finishReason.value != "" then MapFinishReason(choice) else None;
      StreamingChunk(
        choice.delta.content.GetOr(""),
        stamp["finish_reason" := vendorReason],
        info,
        if choice.finishReason.None? then Some(0) else None,
        |previous| == 0,
        mapped)
  }

  /** The chunks of a turn: event i is translated with the chunks of the
      events before it and the time stamp `clock(i)`. */
  function ChunksOf(events: seq<StreamEvent>, info: Option<ComponentInfo>, clock: nat -> string): (chunks: seq<StreamingChunk>)
    ensures |chunks| == |events|
    decreases |events|
  {
    if events == [] then []
    else
      var earlier := ChunksOf(events[..|events| - 1], info, clock);
      earlier + [ToStreamingChunk(events[|events| - 1], earlier, info, clock(|events| - 1))]
  }

  /** Translates a turn's events one by one, appending each chunk to the list
      that the next translation sees. */
  method CollectChunks(events: seq<StreamEvent>, info: Option<ComponentInfo>, clock: nat -> string)
    returns (chunks: seq<StreamingChunk>)
    ensures chunks == ChunksOf(events, info, clock)
  {
    chunks := [];
    var i := 0;
    while i < |events|
      invariant 0 <= i <= |events|
      invariant chunks == ChunksOf(events[..i], info, clock)
    {
      var chunk := ToStreamingChunk(events[i], chunks, info, clock(i));
      ghost var seen := events[..i + 1];
      assert seen[..i] == events[..i] && seen[i] == events[i];
      assert ChunksOf(seen, info, clock) == chunks + [chunk];
      chunks := chunks + [chunk];
      i := i + 1;
    }
    assert events[..|events|] == events;
  }

  /** The chunks of a prefix of the events are the prefix of the chunks: a
      chunk never depends on later events. */
  lemma {:induction false} ChunksOfPrefix(events: seq<StreamEvent>, info: Option<ComponentInfo>, clock: nat -> string, i: nat)
    requires i <= |events|
    ensures ChunksOf(events, info, clock)[..i] == ChunksOf(events[..i], info, clock)
    decreases |events|
  {
    if events != [] {
      var n := |events| - 1;
      ChunksOfPrefix(events[..n], info, clock, if i <= n then i else n);
      if i == |events| {
        assert events[..i] == events;
      } else {
        assert events[..n][..i] == events[..i];
      }
    }
  }

  /** Chunk i is the translation of event i, seeing the i chunks before it. */
  lemma ChunkAt(events: seq<StreamEvent>, info: Option<ComponentInfo>, clock: nat -> string, i: nat)
    requires i < |events|
    ensures ChunksOf(events, info, clock)[i] == ToStreamingChunk(events[i], ChunksOf(events[..i], info, clock), info, clock(i))
  {
    var upTo := events[..i + 1];
    ChunksOfPrefix(events, info, clock, i + 1);
    assert upTo[..i] == events[..i] && upTo[i] == events[i];
    assert ChunksOf(upTo, info, clock) == ChunksOf(events[..i], info, clock) + [ToStreamingChunk(events[i], ChunksOf(events[..i], info, clock), info, clock(i))];
    assert ChunksOf(events, info, clock)[i] == ChunksOf(events, info, clock)[..i + 1][i];
  }

  /** Only the first chunk of a turn is marked as its start, and it is when
      the first event carries a choice. */
  lemma StartMarksFirstChunkOnly(events: seq<StreamEvent>, info: Option<ComponentInfo>, clock: nat -> string, i: nat)
    requires i < |events|
    ensures ChunksOf(events, info, clock)[i].start <==> i == 0 && events[0].choices != []
  {
    ChunkAt(events, info, clock, i);
    ChunksOfPrefix(events[..i], info, clock, 0);
  }

  /** The usage entry counts as missing when absent or null. */
  predicate HasUsage(meta: map<string, Json>) {
    "usage" in meta && meta["usage"] != JNull
  }

  /** The folded message with its usage defaulted to zero counts when the
      vendor reported none; nothing else changes. */
  function WithDefaultUsage(m: ChatMessage): (r: ChatMessage)
    ensures HasUsage(r.meta)
    ensures HasUsage(m.meta) ==> r == m
    ensures !HasUsage(m.meta) ==> r.meta["usage"] == ZeroUsage()
    ensures r.role == m.role && r.text == m.text && r.toolCalls == m.toolCalls
    ensures r.meta.Keys == m.meta.Keys + {"usage"}
    ensures forall k :: k in m.meta && k != "usage" ==> r.meta[k] == m.meta[k]
  {
    if HasUsage(m.meta) then m else m.(meta := m.meta["usage" := ZeroUsage()])
  }

  /** The streaming turn after the vendor answered with `events`: every
      event becomes a chunk (handed to the caller's callback in order), the
      chunks are folded into one message by `fold`, whose usage is then
      defaulted. The reply list holds exactly that one message. */
  method RunStreaming(events: seq<StreamEvent>, info: Option<ComponentInfo>, clock: nat -> string,
                      fold: seq<StreamingChunk> -> ChatMessage)
    returns (replies: seq<ChatMessage>)
    ensures |replies| == 1 && HasUsage(replies[0].meta)
    ensures replies == [WithDefaultUsage(fold(ChunksOf(events, info, clock)))]
  {
    var chunks := CollectChunks(events, info, clock);
    var message := fold(chunks);
    if !HasUsage(message.meta) {
      message := message.(meta := message.meta["usage" := ZeroUsage()]);
    }
    replies := [message];
  }
}

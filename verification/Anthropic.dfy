/** Anthropic message content, received whole or as a stream of block events
    (internal/providers/anthropic/anthropic.go:130-181, 252-379 and 384-412). */
module Anthropic {
  import opened Api
  import opened MapOrder

  /** A content block of a reply; `Foreign` stands for the kinds that both paths skip. */
  datatype Block =
    | Text(text: string)
    | Thinking(text: string, signature: string)
    | Redacted(data: string)
    | ToolUse(id: string, name: string, input: string)
    | Foreign

  datatype Reply = Reply(id: string, model: string, content: seq<Block>, usage: Usage)

  datatype Event =
    | MessageStart(id: string, model: string, inputTokens: int)
    | MessageDelta(outputTokens: int)
    | BlockStart(index: int, block: Block)
    | TextPiece(index: int, text: string)
    | ThinkingPiece(index: int, text: string)
    | SignaturePiece(index: int, signature: string)
    | JsonPiece(index: int, json: string)
    | Ignored

  function Stored(b: Block): Option<ContentBlock> {
    match b
    case Text(text) => Some(TextBlock(text))
    case Thinking(text, signature) => Some(ContentBlock("anthropic_thinking", text, signature, "", ""))
    case Redacted(data) => Some(ContentBlock("anthropic_redacted_thinking", "", "", data, ""))
    case _ => None
  }

  function Called(b: Block): Option<ToolCall> {
    if b.ToolUse? then Some(ToolCall(b.id, b.name, b.input)) else None
  }

  function ContentIn(content: seq<Block>): seq<ContentBlock> {
    if content == [] then []
    else
      var last := Stored(content[|content| - 1]);
      ContentIn(content[..|content| - 1]) + if last.Some? then [last.value] else []
  }

  function CallsIn(content: seq<Block>): seq<ToolCall> {
    if content == [] then []
    else
      var last := Called(content[|content| - 1]);
      CallsIn(content[..|content| - 1]) + if last.Some? then [last.value] else []
  }

  function TextIn(content: seq<Block>): string {
    if content == [] then ""
    else TextIn(content[..|content| - 1]) + if content[|content| - 1].Text? then content[|content| - 1].text else ""
  }

  function Native(content: seq<ContentBlock>, calls: seq<ToolCall>): Option<Message> {
    if content == [] && calls == [] then None else Some(Message("assistant", content, "", "", calls))
  }

  function ResultOf(r: Reply): ProviderResult {
    ProviderResult(r.id, r.model, TextIn(r.content), r.usage, CallsIn(r.content),
                   Native(ContentIn(r.content), CallsIn(r.content)))
  }

  /** `Generate` after the call returns: one pass over the content. */
  method Extract(r: Reply) returns (result: ProviderResult)
    ensures result == ResultOf(r)
  {
    var text, toolCalls, content := "", [], [];
    var i := 0;
    while i < |r.content|
      invariant 0 <= i <= |r.content|
      invariant text == TextIn(r.content[..i]) && toolCalls == CallsIn(r.content[..i])
      invariant content == ContentIn(r.content[..i])
    {
      assert r.content[..i + 1][..i] == r.content[..i];
      match r.content[i] {
        case Text(t) =>
          text := text + t;
          content := content + [TextBlock(t)];
        case Thinking(t, signature) =>
          content := content + [ContentBlock("anthropic_thinking", t, signature, "", "")];
        case Redacted(data) =>
          content := content + [ContentBlock("anthropic_redacted_thinking", "", "", data, "")];
        case ToolUse(id, name, input) =>
          toolCalls := toolCalls + [ToolCall(id, name, input)];
        case Foreign =>
      }
      i := i + 1;
    }
    assert r.content[..i] == r.content;
    var replayMessage := Some(Message("assistant", content, "", "", toolCalls));
    if |content| == 0 && |toolCalls| == 0 {
      replayMessage := None;
    }
    result := ProviderResult(r.id, r.model, text, r.usage, toolCalls, replayMessage);
  }

  /** The variables of the stream loop, with the deltas handed over so far. */
  datatype Accum =
    Accum(blocks: map<int, ContentBlock>, calls: map<int, ToolCall>, id: string, model: string,
          inputTokens: int, outputTokens: int, sent: seq<Delta>)

  const NOTHING := Accum(map[], map[], "", "", 0, 0, [])

  function ToolDelta(id: string, model: string, tc: ToolCallDelta): Delta {
    Delta(id, model, "", false, None, Some(tc), None)
  }

  function Begin(a: Accum, index: int, b: Block): Accum {
    if b.ToolUse? then
      a.(calls := a.calls[index := ToolCall(b.id, b.name, "")],
         sent := a.sent + [ToolDelta("", "", ToolCallDelta(index, b.id, b.name, ""))])
    else if Stored(b).Some? then a.(blocks := a.blocks[index := Stored(b).value])
    else a
  }

  function AddText(blocks: map<int, ContentBlock>, index: int, text: string): map<int, ContentBlock> {
    if index in blocks then blocks[index := blocks[index].(text := blocks[index].text + text)] else blocks
  }

  function Accumulate(a: Accum, e: Event): Accum {
    match e
    case MessageStart(id, model, tokens) => a.(id := id, model := model, inputTokens := tokens)
    case MessageDelta(tokens) => a.(outputTokens := tokens)
    case BlockStart(index, b) => Begin(a, index, b)
    case TextPiece(index, text) =>
      a.(blocks := AddText(a.blocks, index, text), sent := a.sent + [Delta(a.id, a.model, text, false, None, None, None)])
    case ThinkingPiece(index, text) => a.(blocks := AddText(a.blocks, index, text))
    case SignaturePiece(index, signature) =>
      if index in a.blocks then a.(blocks := a.blocks[index := a.blocks[index].(signature := signature)]) else a
    case JsonPiece(index, json) =>
      var b := if index in a.calls
               then a.(calls := a.calls[index := a.calls[index].(arguments := a.calls[index].arguments + json)]) else a;
      b.(sent := a.sent + [ToolDelta(a.id, a.model, ToolCallDelta(index, "", "", json))])
    case Ignored => a
  }

  function After(es: seq<Event>): Accum {
    if es == [] then NOTHING else Accumulate(After(es[..|es| - 1]), es[|es| - 1])
  }

  /** Blocks and calls below position `n`, in order of position. */
  function BlocksBelow(blocks: map<int, ContentBlock>, n: nat): seq<ContentBlock> {
    if n == 0 then [] else BlocksBelow(blocks, n - 1) + if n - 1 in blocks then [blocks[n - 1]] else []
  }

  function CallsBelow(calls: map<int, ToolCall>, n: nat): seq<ToolCall> {
    if n == 0 then [] else CallsBelow(calls, n - 1) + if n - 1 in calls then [calls[n - 1]] else []
  }

  function NativeBelow(a: Accum, n: nat): Option<Message> {
    Native(BlocksBelow(a.blocks, n), CallsBelow(a.calls, n))
  }

  predicate Bounds(a: Accum, n: int) {
    (forall k :: k in a.blocks ==> k < n) && (forall k :: k in a.calls ==> k < n)
  }

  lemma {:induction false} NothingBeyond(a: Accum, m: nat, n: nat)
    requires Bounds(a, m) && m <= n
    ensures BlocksBelow(a.blocks, n) == BlocksBelow(a.blocks, m)
    ensures CallsBelow(a.calls, n) == CallsBelow(a.calls, m)
  {
    if m < n {
      NothingBeyond(a, m, n - 1);
    }
  }

  /** The variables as the goroutine holds them; `sent` logs the deltas handed over. */
  class EventStream {
    var replayBlocks: map<int, ContentBlock>
    var streamToolCalls: map<int, ToolCall>
    var responseId: string
    var responseModel: string
    var inputTokens: int
    var outputTokens: int
    var sent: seq<Delta>

    constructor ()
      ensures Value() == NOTHING
    {
      replayBlocks, streamToolCalls, responseId, responseModel := map[], map[], "", "";
      inputTokens, outputTokens, sent := 0, 0, [];
    }

    ghost function Value(): Accum
      reads this
    {
      Accum(replayBlocks, streamToolCalls, responseId, responseModel, inputTokens, outputTokens, sent)
    }

    method StartBlock(index: int, block: Block)
      modifies this
      ensures Value() == Begin(old(Value()), index, block)
    {
      match block {
        case ToolUse(id, name, _) =>
          streamToolCalls := streamToolCalls[index := ToolCall(id, name, "")];
          sent := sent + [Delta("", "", "", false, None, Some(ToolCallDelta(index, id, name, "")), None)];
        case Text(text) =>
          replayBlocks := replayBlocks[index := TextBlock(text)];
        case Thinking(text, signature) =>
          replayBlocks := replayBlocks[index := ContentBlock("anthropic_thinking", text, signature, "", "")];
        case Redacted(data) =>
          replayBlocks := replayBlocks[index := ContentBlock("anthropic_redacted_thinking", "", "", data, "")];
        case Foreign =>
      }
    }

    method Handle(e: Event)
      modifies this
      ensures Value() == Accumulate(old(Value()), e)
    {
      match e {
        case MessageStart(id, model, tokens) =>
          inputTokens, responseId, responseModel := tokens, id, model;
        case MessageDelta(tokens) =>
          outputTokens := tokens;
        case BlockStart(index, block) =>
          StartBlock(index, block);
        case TextPiece(index, text) =>
          if index in replayBlocks {
            var block := replayBlocks[index];
            replayBlocks := replayBlocks[index := block.(text := block.text + text)];
          }
          sent := sent + [Delta(responseId, responseModel, text, false, None, None, None)];
        case ThinkingPiece(index, text) =>
          if index in replayBlocks {
            var block := replayBlocks[index];
            replayBlocks := replayBlocks[index := block.(text := block.text + text)];
          }
        case SignaturePiece(index, signature) =>
          if index in replayBlocks {
            replayBlocks := replayBlocks[index := replayBlocks[index].(signature := signature)];
          }
        case JsonPiece(index, json) =>
          if index in streamToolCalls {
            var call := streamToolCalls[index];
            streamToolCalls := streamToolCalls[index := call.(arguments := call.arguments + json)];
          }
          sent := sent + [Delta(responseId, responseModel, "", false, None,
                                Some(ToolCallDelta(index, "", "", json)), None)];
        case Ignored =>
      }
    }

    /** All deltas with the final one, which carries usage and replay message. */
    method FinalSend(ghost es: seq<Event>) returns (all: seq<Delta>)
      requires Value() == After(es)
      ensures all == Sent(es)
    {
      ReachBounds(es);
      var replayMessage := BuildStreamReplayMessage();
      assert Value() == After(es) && Bounds(Value(), Reach(es));
      assert replayMessage == NativeBelow(After(es), Reach(es));
      hide After, NativeBelow, Reach, Bounds;
      all := sent + [Delta(responseId, responseModel, "", true, Some(Usage(inputTokens, outputTokens)), None, replayMessage)];
    }

    method BuildStreamReplayMessage() returns (message: Option<Message>)
      ensures forall n: nat :: Bounds(Value(), n) ==> message == NativeBelow(Value(), n)
    {
      var maxIndex := LargestKey(replayBlocks.Keys, -1);
      maxIndex := LargestKey(streamToolCalls.Keys, maxIndex);
      var content, toolCalls := [], [];
      var i := 0;
      while i <= maxIndex
        invariant 0 <= i <= maxIndex + 1
        invariant content == BlocksBelow(replayBlocks, i) && toolCalls == CallsBelow(streamToolCalls, i)
      {
        if i in replayBlocks {
          content := content + [replayBlocks[i]];
        }
        if i in streamToolCalls {
          toolCalls := toolCalls + [streamToolCalls[i]];
        }
        i := i + 1;
      }
      message := if |content| == 0 && |toolCalls| == 0 then None
                 else Some(Message("assistant", content, "", "", toolCalls));
      forall n: nat | Bounds(Value(), n) ensures message == NativeBelow(Value(), n) {
        NothingBeyond(Value(), i, n);
      }
    }
  }

  /** A pass over the keys of a map, in any order. */
  method LargestKey(keys: set<int>, atLeast: int) returns (m: int)
    ensures m >= atLeast && (m == atLeast || m in keys)
    ensures forall k :: k in keys ==> k <= m
  {
    m := atLeast;
    var rest := keys;
    while rest != {}
      invariant rest <= keys && m >= atLeast && (m == atLeast || m in keys)
      invariant forall k :: k in keys && k !in rest ==> k <= m
      decreases |rest|
    {
      var k := AnyKey(rest);
      if k > m {
        m := k;
      }
      rest := rest - {k};
    }
  }

  /** A bound on the block positions that the events open. */
  function Reach(es: seq<Event>): nat {
    if es == [] then 0
    else
      var n, e := Reach(es[..|es| - 1]), es[|es| - 1];
      if e.BlockStart? && e.index >= n then e.index + 1 else n
  }

  lemma {:induction false} ReachBounds(es: seq<Event>)
    ensures Bounds(After(es), Reach(es))
  {
    if es != [] {
      ReachBounds(es[..|es| - 1]);
    }
  }

  /** Everything handed over for events that end without error: their deltas, then the final one. */
  function Sent(es: seq<Event>): seq<Delta> {
    var a := After(es);
    a.sent + [Delta(a.id, a.model, "", true, Some(Usage(a.inputTokens, a.outputTokens)), None, NativeBelow(a, Reach(es)))]
  }

  /** What would be handed over if the request stayed alive. */
  function Offer(es: seq<Event>, failed: bool): seq<Delta> {
    if failed then After(es).sent else Sent(es)
  }

  lemma {:induction false} SentGrows(es: seq<Event>, i: nat)
    requires i <= |es|
    ensures After(es[..i]).sent <= After(es).sent
  {
    if i == |es| {
      assert es[..i] == es;
    } else {
      var n := |es| - 1;
      assert es[..n][..i] == es[..i];
      SentGrows(es[..n], i);
    }
  }

  /** The goroutine: `failed` says that the stream ends in an error, and only the first `room` sends are
      received before the request is cancelled. */
  method GenerateStream(es: seq<Event>, failed: bool, room: nat) returns (sent: seq<Delta>, erred: bool)
    ensures sent == if |Offer(es, failed)| <= room then Offer(es, failed) else Offer(es, failed)[..room]
    ensures erred <==> failed || |Offer(es, failed)| > room
  {
    var stream := new EventStream();
    var i := 0;
    while i < |es|
      invariant 0 <= i <= |es| && fresh(stream)
      invariant stream.Value() == After(es[..i]) && |stream.sent| <= room
    {
      assert es[..i + 1][..i] == es[..i];
      stream.Handle(es[i]);
      i := i + 1;
      if |stream.sent| > room {
        SentGrows(es, i);
        return stream.sent[..room], true;
      }
    }
    assert es[..i] == es;
    if failed {
      return stream.sent, true;
    }
    sent := stream.FinalSend(es);
    erred := |sent| > room;
    if erred {
      sent := sent[..room];
    }
  }
}

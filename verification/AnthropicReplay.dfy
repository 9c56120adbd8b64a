/** What a replay message keeps of an Anthropic reply, said without the code's own conversions: blocks and
    calls can be read back from it (internal/providers/anthropic/anthropic.go:130-167, 296-315 and 384-412). */
module AnthropicReplay {
  import opened Api
  import opened Anthropic
  import opened AnthropicStream

  /** The blocks that belong into a message's content: text and thinking of both kinds. */
  function Kept(content: seq<Block>): seq<Block> {
    if content == [] then []
    else
      var before, b := Kept(content[..|content| - 1]), content[|content| - 1];
      if b.Text? || b.Thinking? || b.Redacted? then before + [b] else before
  }

  function Tools(content: seq<Block>): seq<Block> {
    if content == [] then []
    else
      var before, b := Tools(content[..|content| - 1]), content[|content| - 1];
      if b.ToolUse? then before + [b] else before
  }

  /** Reading a stored block back; None for a kind that no reply leads to. */
  function BlockFrom(c: ContentBlock): Option<Block> {
    if c.kind == "output_text" then Some(Text(c.text))
    else if c.kind == "anthropic_thinking" then Some(Thinking(c.text, c.signature))
    else if c.kind == "anthropic_redacted_thinking" then Some(Redacted(c.data))
    else None
  }

  function ToolFrom(c: ToolCall): Block {
    ToolUse(c.id, c.name, c.arguments)
  }

  /** The message reads back to exactly these blocks and tools, and carries nothing else. */
  ghost predicate ReadsBack(m: Message, blocks: seq<Block>, tools: seq<Block>) {
    && m.role == "assistant" && m.callId == "" && m.name == ""
    && |m.content| == |blocks| && |m.toolCalls| == |tools|
    && (forall i :: 0 <= i < |blocks| ==> BlockFrom(m.content[i]) == Some(blocks[i]))
    && (forall i :: 0 <= i < |tools| ==> ToolFrom(m.toolCalls[i]) == tools[i])
  }

  lemma KindsDiffer()
    ensures "output_text" != "anthropic_thinking" && "output_text" != "anthropic_redacted_thinking"
    ensures "anthropic_thinking" != "anthropic_redacted_thinking"
  {
    assert "output_text"[0] != "anthropic_thinking"[0] && "output_text"[0] != "anthropic_redacted_thinking"[0];
    assert |"anthropic_thinking"| != |"anthropic_redacted_thinking"|;
  }

  lemma StoredReadsBack(b: Block)
    ensures Stored(b).Some? <==> b.Text? || b.Thinking? || b.Redacted?
    ensures Stored(b).Some? ==> BlockFrom(Stored(b).value) == Some(b)
    ensures b.Text? ==> Stored(b) == Some(ContentBlock("output_text", b.text, "", "", ""))
    ensures b.Thinking? ==> Stored(b) == Some(ContentBlock("anthropic_thinking", b.text, b.signature, "", ""))
    ensures b.Redacted? ==> Stored(b) == Some(ContentBlock("anthropic_redacted_thinking", "", "", b.data, ""))
    ensures Called(b).Some? <==> b.ToolUse?
    ensures Called(b).Some? ==> ToolFrom(Called(b).value) == b
  {
    KindsDiffer();
  }

  lemma {:induction false} ContentReadsBack(content: seq<Block>)
    ensures ReadsBack(Message("assistant", ContentIn(content), "", "", CallsIn(content)), Kept(content), Tools(content))
  {
    if content != [] {
      var b := content[|content| - 1];
      ContentReadsBack(content[..|content| - 1]);
      StoredReadsBack(b);
      hide Stored, Called, BlockFrom, ToolFrom;
    }
  }

  /** `Generate` keeps the whole reply: its id, model and usage, its text blocks joined, every text, thinking
      and redacted block in order, and every tool.  Only a reply without any has no replay message. */
  lemma ExtractionKeepsTheReply(r: Reply)
    ensures var result := ResultOf(r);
            && result.id == r.id && result.model == r.model && result.usage == r.usage
            && (result.replayMessage.None? <==> Kept(r.content) == [] && Tools(r.content) == [])
            && (result.replayMessage.Some? ==> ReadsBack(result.replayMessage.value, Kept(r.content), Tools(r.content)))
            && |result.toolCalls| == |Tools(r.content)|
            && (forall i :: 0 <= i < |result.toolCalls| ==> ToolFrom(result.toolCalls[i]) == Tools(r.content)[i])
            && result.text == Said(Kept(r.content))
  {
    ContentReadsBack(r.content);
    TextIsSaid(r.content);
    hide ContentIn, CallsIn, TextIn, Kept, Tools, BlockFrom, ToolFrom;
  }

  /** The text blocks, joined. */
  function Said(blocks: seq<Block>): string {
    if blocks == [] then ""
    else if blocks[|blocks| - 1].Text? then Said(blocks[..|blocks| - 1]) + blocks[|blocks| - 1].text
    else Said(blocks[..|blocks| - 1])
  }

  lemma {:induction false} TextIsSaid(content: seq<Block>)
    ensures TextIn(content) == Said(Kept(content))
  {
    if content != [] {
      var init, b := content[..|content| - 1], content[|content| - 1];
      TextIsSaid(init);
      assert TextIn(init) + "" == TextIn(init);
      assert (Kept(init) + [b])[..|Kept(init)|] == Kept(init);
    }
  }

  /** The maps of a stream read back, position by position, to what its events spell out. */
  lemma AccumulationReadsBack(es: seq<Event>, k: int)
    requires Orderly(es)
    ensures var a, b := After(es), Spelled(es, k);
            && (k in a.blocks <==> b.Some? && (b.value.Text? || b.value.Thinking? || b.value.Redacted?))
            && (k in a.blocks ==> BlockFrom(a.blocks[k]) == b)
            && (k in a.calls <==> b.Some? && b.value.ToolUse?)
            && (k in a.calls ==> Some(ToolFrom(a.calls[k])) == b)
  {
    AccumulationSpells(es, k);
    if Spelled(es, k).Some? {
      StoredReadsBack(Spelled(es, k).value);
    }
    hide Spelled, After, Orderly, Stored, Called, BlockFrom, ToolFrom;
  }

  /** And the replay message of a stream keeps the whole reply that its events encode. */
  lemma StreamKeepsTheReply(es: seq<Event>, content: seq<Block>, n: nat)
    requires Encodes(es, content) && Bounds(After(es), n)
    ensures var message := NativeBelow(After(es), n);
            && (message.None? <==> Kept(content) == [] && Tools(content) == [])
            && (message.Some? ==> ReadsBack(message.value, Kept(content), Tools(content)))
  {
    ReplayMessageIsTheSame(es, content, n);
    ContentReadsBack(content);
    hide Encodes, After, NativeBelow, ContentIn, CallsIn, Kept, Tools, BlockFrom, ToolFrom, Bounds;
  }

  /** So nothing of the reply is confused: equal replay messages come from the same blocks and tools. */
  lemma ReplayDeterminesTheReply(a: Reply, b: Reply)
    requires ResultOf(a).replayMessage == ResultOf(b).replayMessage
    ensures Kept(a.content) == Kept(b.content) && Tools(a.content) == Tools(b.content)
  {
    ExtractionKeepsTheReply(a);
    ExtractionKeepsTheReply(b);
    hide ResultOf, Kept, Tools, Said, ToolFrom;
    if ResultOf(a).replayMessage.Some? {
      var m := ResultOf(a).replayMessage.value;
      forall i | 0 <= i < |m.content| ensures Kept(a.content)[i] == Kept(b.content)[i] {
        assert BlockFrom(m.content[i]) == Some(Kept(a.content)[i]);
      }
    }
  }
}

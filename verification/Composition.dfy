/** The parts put together: one Anthropic reply, streamed through the goroutines of the gateway, against the
    same reply received whole. */
module Composition {
  import opened Api
  import opened Requests
  import opened Replay
  import opened SyncPath
  import opened StreamSpec
  import opened StreamAggregate
  import opened StreamRefinement
  import opened Anthropic
  import opened AnthropicStream
  import opened Channels
  import Relay
  import Instrumentation
  import Conversations

  /** The events spell out the reply, in an order that both paths agree on. */
  ghost predicate Spells(es: seq<Event>, r: Reply) {
    && Announces(es, r) && Encodes(es, r.content) && OpensTextEmpty(es)
    && Nondecreasing(Shape(TextPieces(es))) && MapOrder.Ascending(ToolsOpened(es))
  }

  /** The result as the streaming path completes it. */
  function Completed(r: Reply, requestModel: string): ProviderResult {
    Anthropic.ResultOf(r).(model := FirstSet(r.model, requestModel))
  }

  /** The streamed outcome is the synchronous one of the reply received whole: refused together; otherwise
      the same model, usage and items (ids aside, message first), and the conversation of the same
      result, with the model it was answered under, unless the reply is empty. */
  ghost predicate AnswersLike(c: Script, provider: string, outcome: Outcome, r: Reply, storeMsgs: seq<Message>, syncId: Id,
                              byDefault: bool)
  {
    var result := Completed(r, c.request.model);
    var sync := SyncOutcome(c.request, provider, Anthropic.ResultOf(r), storeMsgs, syncId, byDefault);
    && (outcome.Refused? <==> sync.Refused?)
    && (outcome.Answered? ==>
          && outcome.response.model == sync.response.model
          && outcome.response.usage == sync.response.usage
          && Anonymous(TextFirst(outcome.response.output)) == Anonymous(sync.response.output)
          && outcome.stored == if ShouldStore(c.request, byDefault) && !IsEmptyResult(result)
                               then Some(StoredConversation(provider, c.request, result, outcome.response.output, storeMsgs))
                               else None)
  }

  lemma StreamAnswersLike(c: Script, provider: string, es: seq<Event>, r: Reply, storeMsgs: seq<Message>, syncId: Id, byDefault: bool)
    requires Spells(es, r)
    ensures AnswersLike(c, provider, StreamOutcome(c.request, provider, Anthropic.Sent(es), Ended, storeMsgs, c.firstId, byDefault),
                        r, storeMsgs, syncId, byDefault)
  {
    StreamAmountsToTheReply(es, r, c.request.model);
    StreamRefinesSync(c.request, provider, Anthropic.Sent(es), storeMsgs, c.firstId, syncId, byDefault);
    hide Spells, Anthropic.Sent, StreamOutcome, Aggregate, UpToDone, TextFirst, OutputOf;
  }

  /** In every schedule of provider, breaker and server that no client cuts, the streamed turn answers as the
      synchronous turn on the reply received whole. */
  lemma RelayedReplyAnswersLikeSync(c: Script, steps: seq<Relay.Step>, provider: string, es: seq<Event>, r: Reply,
                                    storeMsgs: seq<Message>, syncId: Id, byDefault: bool)
    requires Spells(es, r) && c.deltas == Anthropic.Sent(es) && c.ending == Ended && c.gate != Shut
    requires Relay.Run(c, steps).Some?
    requires var s := Relay.Run(c, steps).value; s.server.stage == Left && !s.disconnected
    ensures var v := Relay.Run(c, steps).value.server;
            AnswersLike(c, provider, StreamOutcome(c.request, provider, v.received, v.ending, storeMsgs, c.firstId, byDefault),
                        r, storeMsgs, syncId, byDefault)
  {
    Relay.RelayLosesNothing(c, steps);
    StreamAnswersLike(c, provider, es, r, storeMsgs, syncId, byDefault);
    hide Spells, Anthropic.Sent, StreamOutcome, AnswersLike, Relay.Run, Stops;
  }

  /** And so it does in the gateway's own arrangement, with the metrics wrapper outside the breaker: a reply
      that ends well has no error to lose. */
  lemma ForwardedReplyAnswersLikeSync(c: Script, steps: seq<Instrumentation.Step>, provider: string, es: seq<Event>, r: Reply,
                                      storeMsgs: seq<Message>, syncId: Id, byDefault: bool)
    requires Spells(es, r) && c.deltas == Anthropic.Sent(es) && c.ending == Ended && c.gate != Shut
    requires Instrumentation.Run(c, steps).Some?
    requires var s := Instrumentation.Run(c, steps).value; s.server.stage == Left && !s.disconnected
    ensures var v := Instrumentation.Run(c, steps).value.server;
            AnswersLike(c, provider, StreamOutcome(c.request, provider, v.received, v.ending, storeMsgs, c.firstId, byDefault),
                        r, storeMsgs, syncId, byDefault)
  {
    Instrumentation.ErrorsSurviveExactlyWhen(c);
    StreamAnswersLike(c, provider, es, r, storeMsgs, syncId, byDefault);
    hide Spells, Anthropic.Sent, StreamOutcome, AnswersLike, Instrumentation.Run, Stops;
  }

  lemma ThinkingThenTool(text: string, signature: string, call: ToolCall)
    ensures var content := [Thinking(text, signature), ToolUse(call.id, call.name, call.arguments)];
            && ContentIn(content) == [ContentBlock("anthropic_thinking", text, signature, "", "")]
            && Anthropic.CallsIn(content) == [call] && Anthropic.TextIn(content) == ""
  {
    var thinking, content := [Thinking(text, signature)], [Thinking(text, signature), ToolUse(call.id, call.name, call.arguments)];
    assert thinking[..0] == [] && content[..1] == thinking;
    assert ContentIn([]) == [] && Anthropic.CallsIn([]) == [] && Anthropic.TextIn([]) == "";
    assert Anthropic.CallsIn(thinking) == [] && Anthropic.TextIn(thinking) == "" + "";
    assert ContentIn(thinking) == [ContentBlock("anthropic_thinking", text, signature, "", "")];
    assert ToolCall(call.id, call.name, call.arguments) == call;
    assert Called(content[1]) == Some(call);
    assert Anthropic.CallsIn(content) == Anthropic.CallsIn(content[..1]) + [call];
    assert Anthropic.TextIn(content) == Anthropic.TextIn(content[..1]) + "";
    assert ContentIn(content) == ContentIn(content[..1]) + [];
  }

  /** What a lost native message costs: a reply that thinks and then calls a tool is replayed to its own
      provider without its thinking block. */
  lemma AThinkingBlockIsLost(provider: string, request: Request, text: string, signature: string, call: ToolCall, model: string,
                             usage: Usage, storeMsgs: seq<Message>, firstId: Id)
    ensures var r := Reply("", model, [Thinking(text, signature), ToolUse(call.id, call.name, call.arguments)], usage);
            var result := Anthropic.ResultOf(r);
            var conv := StoredConversation(provider, request, result, SyncOutput(result, firstId), storeMsgs);
            && result.replayMessage == Some(Message("assistant", [ContentBlock("anthropic_thinking", text, signature, "", "")], "", "", [call]))
            && Overlay(conv.messages, conv.replay, provider)[|storeMsgs|] == Message("assistant", [], "", "", [call])
  {
    ThinkingThenTool(text, signature, call);
    hide ContentIn, Anthropic.CallsIn, Anthropic.TextIn;
    var r := Reply("", model, [Thinking(text, signature), ToolUse(call.id, call.name, call.arguments)], usage);
    PlainReplay(provider, request, Anthropic.ResultOf(r), call, storeMsgs, firstId);
  }

  lemma PlainReplay(provider: string, request: Request, result: ProviderResult, call: ToolCall, storeMsgs: seq<Message>, firstId: Id)
    requires result.text == "" && result.toolCalls == [call]
    ensures var conv := StoredConversation(provider, request, result, SyncOutput(result, firstId), storeMsgs);
            && |conv.messages| == |storeMsgs| + 1
            && Overlay(conv.messages, conv.replay, provider)[|storeMsgs|] == Message("assistant", [], "", "", [call])
  {
    var outputs := SyncOutput(result, firstId);
    var conv := StoredConversation(provider, request, result, outputs, storeMsgs);
    Conversations.StoredIsWellPlaced(provider, request, result, outputs, storeMsgs);
    Conversations.OverlayChangesOnlyTheLast(conv, provider);
    Conversations.NativeOfOutputs(outputs, |storeMsgs|, result.replayMessage);
  }
}

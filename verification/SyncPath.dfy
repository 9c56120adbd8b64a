/** The non-streaming turn, which is also the reference that the streaming turn is held to
    (internal/server/server.go:570-682, 1324-1371). */
module SyncPath {
  import opened Api
  import opened ToolPolicy
  import opened Requests
  import opened Replay

  /** What a turn tells the client and, when policy allows, leaves in the store. */
  datatype Outcome = Refused(error: ResponseError) | Answered(response: Response, stored: Option<Conversation>)

  function SyncOutput(result: ProviderResult, firstId: Id): seq<OutputItem> {
    if result.text == "" then CallItemsOf(result.toolCalls, firstId)
    else [MessageItem(firstId, Complete, [TextPart(result.text)])] + CallItemsOf(result.toolCalls, firstId + 1)
  }

  method BuildOutputItems(result: ProviderResult, firstId: Id) returns (items: seq<OutputItem>)
    ensures items == SyncOutput(result, firstId)
  {
    items := [];
    var nextId := firstId;
    if result.text != "" {
      items := [MessageItem(nextId, Complete, [ContentPart("output_text", result.text)])];
      nextId := nextId + 1;
    }
    ghost var base, start := items, nextId;
    var calls := result.toolCalls;
    for i := 0 to |calls|
      invariant nextId == start + i
      invariant items == base + CallItemsOf(calls[..i], start)
    {
      items := items + [FunctionCallItem(nextId, Complete, calls[i].id, calls[i].name, calls[i].arguments)];
      nextId := nextId + 1;
    }
    assert calls[..|calls|] == calls;
  }

  /** The conversation after a turn: the assistant message, when there is one, closes it, and the replay
      items point at that position. */
  function StoredConversation(provider: string, request: Request, result: ProviderResult,
                              outputs: seq<OutputItem>, storeMsgs: seq<Message>): Conversation
  {
    match AssistantMessage(result)
    case Some(m) =>
      Conversation(result.model, storeMsgs + [m], request, ReplayFor(provider, result, outputs, |storeMsgs|))
    case None =>
      Conversation(result.model, storeMsgs, request, ReplayFor(provider, result, outputs, -1))
  }

  function SyncOutcome(request: Request, provider: string, result: ProviderResult, storeMsgs: seq<Message>,
                       firstId: Id, storeByDefault: bool): Outcome
  {
    var error := Verdict(PolicyOf(request), result.toolCalls);
    if error.Some? then Refused(error.value)
    else
      var outputs := SyncOutput(result, firstId);
      Answered(Response(FirstSet(result.model, request.model), outputs, result.usage),
               if ShouldStore(request, storeByDefault)
               then Some(StoredConversation(provider, request, result, outputs, storeMsgs)) else None)
  }

  /** How `Generate` returns. */
  datatype Generation = Generated(result: ProviderResult) | Errored(breakerOpen: bool)

  /** A provider error reaches the client without its text, and stores nothing. */
  function SyncTurn(request: Request, provider: string, g: Generation, storeMsgs: seq<Message>, firstId: Id,
                    storeByDefault: bool): Outcome
  {
    match g
    case Errored(breakerOpen) => Refused(if breakerOpen then ProviderUnavailable else ProviderFailed("provider error"))
    case Generated(result) => SyncOutcome(request, provider, result, storeMsgs, firstId, storeByDefault)
  }

  method HandleSyncResponse(request: Request, provider: string, g: Generation, storeMsgs: seq<Message>,
                            firstId: Id, storeByDefault: bool) returns (outcome: Outcome)
    ensures outcome == SyncTurn(request, provider, g, storeMsgs, firstId, storeByDefault)
    ensures outcome.Refused? <==> g.Errored? || Verdict(PolicyOf(request), g.result.toolCalls).Some?
    ensures outcome.Answered? ==> (outcome.stored.Some? <==> ShouldStore(request, storeByDefault))
  {
    if g.Errored? {
      var error := ProviderFailed("provider error");
      if g.breakerOpen {
        error := ProviderUnavailable;
      }
      return Refused(error);
    }
    var result := g.result;
    var invalid := ValidateToolCalls(PolicyOf(request), result.toolCalls);
    if invalid.Some? {
      return Refused(invalid.value);
    }
    var outputs := BuildOutputItems(result, firstId);
    var response := Response(FirstSet(result.model, request.model), outputs, result.usage);
    var stored := None;
    if ShouldStore(request, storeByDefault) {
      var assistant := AssistantMessage(result);
      if assistant.Some? {
        var messages := storeMsgs + [assistant.value];
        var replay := BuildReplayState(provider, result, outputs, |messages| - 1);
        stored := Some(Conversation(result.model, messages, request, replay));
      } else {
        var replay := BuildReplayState(provider, result, outputs, -1);
        stored := Some(Conversation(result.model, storeMsgs, request, replay));
      }
    }
    return Answered(response, stored);
  }

  /** Output items with their random ids blanked out. */
  function Anonymous(items: seq<OutputItem>): seq<OutputItem> {
    seq(|items|, k requires 0 <= k < |items| => items[k].(id := 0))
  }

  predicate IsEmptyResult(result: ProviderResult) {
    result.text == "" && result.toolCalls == []
  }

  lemma RetrievedStored(provider: string, request: Request, result: ProviderResult,
                        outputs: seq<OutputItem>, storeMsgs: seq<Message>, freshId: Id, someId: Id)
    requires !IsEmptyResult(result)
    ensures var conv := StoredConversation(provider, request, result, outputs, storeMsgs);
            Anonymous(RetrievedOutput(conv.messages, freshId)) == Anonymous(SyncOutput(result, someId))
  {
    var m := AssistantMessage(result).value;
    assert (storeMsgs + [m])[|storeMsgs|] == m;
    if result.text != "" {
      assert PartsOf(m.content) == [TextPart(result.text)];
    }
  }

  /** The last message of the assistant, if there is one, has neither content nor calls. */
  predicate EndsSilently(history: seq<Message>) {
    forall i :: 0 <= i < |history| && history[i].role == "assistant"
                && (forall j :: i < j < |history| ==> history[j].role != "assistant") ==>
      history[i].content == [] && history[i].toolCalls == []
  }

  lemma {:induction false} SilentHistoryShowsNothing(history: seq<Message>, freshId: Id)
    ensures RetrievedOutput(history, freshId) == [] <==> EndsSilently(history)
  {
    if history != [] {
      var n := |history| - 1;
      var last := history[n];
      if last.role == "assistant" {
        assert ItemsOfMessage(last, freshId) == [] <==> last.content == [] && last.toolCalls == [];
      } else {
        SilentHistoryShowsNothing(history[..n], freshId);
        LastIsElsewhere(history);
      }
      hide ItemsOfMessage;
    }
  }

  lemma LastIsElsewhere(history: seq<Message>)
    requires history != [] && history[|history| - 1].role != "assistant"
    ensures EndsSilently(history) <==> EndsSilently(history[..|history| - 1])
  {
    var init := history[..|history| - 1];
    if EndsSilently(history) {
      forall i | 0 <= i < |init| && init[i].role == "assistant"
                 && (forall j :: i < j < |init| ==> init[j].role != "assistant")
        ensures init[i].content == [] && init[i].toolCalls == []
      {
        forall j | i < j < |history| ensures history[j].role != "assistant" {
          assert j < |init| ==> init[j] == history[j];
        }
        assert history[i] == init[i];
      }
    }
    if EndsSilently(init) {
      forall i | 0 <= i < |history| && history[i].role == "assistant"
                 && (forall j :: i < j < |history| ==> history[j].role != "assistant")
        ensures history[i].content == [] && history[i].toolCalls == []
      {
        assert init[i] == history[i];
        assert forall j :: i < j < |init| ==> init[j] == history[j];
      }
    }
  }

  /** Retrieving a stored synchronous response gives back the items that were returned, fresh ids aside,
      exactly when the result was not empty or the history before it ends silently.  An empty result
      stores no message of its own, and retrieval then falls through to the last older one. */
  lemma RetrievalRoundTrip(provider: string, request: Request, result: ProviderResult,
                           storeMsgs: seq<Message>, firstId: Id, freshId: Id, storeByDefault: bool)
    requires SyncOutcome(request, provider, result, storeMsgs, firstId, storeByDefault).Answered?
    requires ShouldStore(request, storeByDefault)
    ensures var outcome := SyncOutcome(request, provider, result, storeMsgs, firstId, storeByDefault);
            Anonymous(RetrievedOutput(outcome.stored.value.messages, freshId)) == Anonymous(outcome.response.output)
            <==>
            (!IsEmptyResult(result) || EndsSilently(storeMsgs))
  {
    SilentHistoryShowsNothing(storeMsgs, freshId);
    hide EndsSilently;
    if !IsEmptyResult(result) {
      RetrievedStored(provider, request, result, SyncOutput(result, firstId), storeMsgs, freshId, firstId);
    } else {
      assert Anonymous(SyncOutput(result, firstId)) == [];
      assert |Anonymous(RetrievedOutput(storeMsgs, freshId))| == |RetrievedOutput(storeMsgs, freshId)|;
    }
  }

  /** The failing case: an empty result after an assistant text is answered with no items, and retrieved
      with the old text as its own. */
  lemma AnEmptyResultShowsOldText(provider: string, request: Request, result: ProviderResult, before: seq<Message>,
                                  earlier: Message, firstId: Id, freshId: Id, storeByDefault: bool)
    requires IsEmptyResult(result) && earlier.role == "assistant" && earlier.content != []
    requires ShouldStore(request, storeByDefault) && Verdict(PolicyOf(request), []).None?
    ensures var outcome := SyncOutcome(request, provider, result, before + [earlier], firstId, storeByDefault);
            && outcome.Answered? && outcome.response.output == []
            && outcome.stored.Some?
            && var retrieved := RetrievedOutput(outcome.stored.value.messages, freshId);
               retrieved != [] && retrieved[0] == MessageItem(freshId, Complete, PartsOf(earlier.content))
  {
    assert result.toolCalls == [];
    assert LastAssistant(before + [earlier]) == Some(earlier);
  }
}

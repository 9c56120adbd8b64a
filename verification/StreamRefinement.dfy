/** The streaming turn refines the synchronous one on the result its deltas amount to. */
module StreamRefinement {
  import opened Api
  import opened ToolPolicy
  import opened Requests
  import opened Replay
  import opened SyncPath
  import opened StreamSpec
  import opened StreamAggregate

  /** What the turn tells the client and stores, from the state in which the loop was left. */
  function OutcomeOf(request: Request, provider: string, s: Stream, e: Ending, storeMsgs: seq<Message>,
                     storeByDefault: bool): Outcome
  {
    var error := FinalError(PolicyOf(request), s, e);
    if error.Some? then Refused(error.value)
    else
      var result := ResultOf(s, request.model);
      Answered(CompletedResponse(s, request.model),
               if ShouldStore(request, storeByDefault) && !IsEmptyResult(result)
               then Some(StoredConversation(provider, request, result, OutputOf(s.items), storeMsgs)) else None)
  }

  function StreamOutcome(request: Request, provider: string, deltas: seq<Delta>, e: Ending, storeMsgs: seq<Message>,
                         firstId: Id, storeByDefault: bool): Outcome
  {
    OutcomeOf(request, provider, Fold(PolicyOf(request), firstId, deltas), e, storeMsgs, storeByDefault)
  }

  function OnlyMessages(items: seq<OutputItem>): seq<OutputItem> {
    if items == [] then []
    else
      OnlyMessages(items[..|items| - 1]) +
      if items[|items| - 1].MessageItem? then [items[|items| - 1]] else []
  }

  function OnlyCalls(items: seq<OutputItem>): seq<OutputItem> {
    if items == [] then []
    else
      OnlyCalls(items[..|items| - 1]) +
      if items[|items| - 1].FunctionCallItem? then [items[|items| - 1]] else []
  }

  /** The output list with the message moved first, where the synchronous path puts it. */
  function TextFirst(items: seq<OutputItem>): seq<OutputItem> {
    OnlyMessages(items) + OnlyCalls(items)
  }

  lemma AnonymousAppend(a: seq<OutputItem>, b: seq<OutputItem>)
    ensures Anonymous(a + b) == Anonymous(a) + Anonymous(b)
  {
  }

  lemma {:induction false} CallsOfOutput(items: seq<Item>, firstId: Id)
    ensures Anonymous(OnlyCalls(OutputOf(items))) == Anonymous(CallItemsOf(CallsIn(items), firstId))
  {
    if items != [] {
      var n := |items| - 1;
      CallsOfOutput(items[..n], firstId);
      assert OutputOf(items)[..n] == OutputOf(items[..n]);
      var before, calls := OnlyCalls(OutputOf(items[..n])), CallsIn(items[..n]);
      if items[n].CallItem? {
        AnonymousAppend(before, [FinishedItem(items[n])]);
        var all := CallsIn(items);
        assert CallItemsOf(all, firstId) == CallItemsOf(calls, firstId) + [CallItemsOf(all, firstId)[|calls|]];
        AnonymousAppend(CallItemsOf(calls, firstId), [CallItemsOf(all, firstId)[|calls|]]);
      } else {
        assert before + [] == before;
      }
    }
  }

  lemma {:induction false} NoMessages(items: seq<Item>)
    requires forall k :: 0 <= k < |items| ==> !items[k].TextItem?
    ensures OnlyMessages(OutputOf(items)) == []
  {
    if items != [] {
      NoMessages(items[..|items| - 1]);
      assert OutputOf(items)[..|items| - 1] == OutputOf(items[..|items| - 1]);
    }
  }

  lemma {:induction false} MessagesOfOutput(items: seq<Item>, p: nat)
    requires WellShaped(items) && p < |items| && items[p].TextItem?
    ensures OnlyMessages(OutputOf(items)) == [FinishedItem(items[p])]
  {
    var n := |items| - 1;
    assert OutputOf(items)[..n] == OutputOf(items[..n]);
    if p == n {
      NoMessages(items[..n]);
    } else {
      MessagesOfOutput(items[..n], p);
    }
  }

  lemma OutputRefinesSync(s: Stream, requestModel: string, firstId: Id)
    requires WellShaped(s.items)
    requires TextPosition(s.items) < |s.items| <==> TextIn(s.items) != ""
    ensures Anonymous(TextFirst(OutputOf(s.items))) == Anonymous(SyncOutput(ResultOf(s, requestModel), firstId))
  {
    var p := TextPosition(s.items);
    var calls := OnlyCalls(OutputOf(s.items));
    if p < |s.items| {
      MessagesOfOutput(s.items, p);
      CallsOfOutput(s.items, firstId + 1);
      AnonymousAppend([FinishedItem(s.items[p])], calls);
      AnonymousAppend([MessageItem(firstId, Complete, [TextPart(TextIn(s.items))])], CallItemsOf(CallsIn(s.items), firstId + 1));
    } else {
      NoMessages(s.items);
      CallsOfOutput(s.items, firstId);
      assert [] + calls == calls;
    }
  }

  lemma CondemnedIsRefused(policy: Policy, ds: seq<Delta>)
    ensures Condemned(policy, ds) <==> FirstRejection(policy, CallsOf(ds)).Some?
  {
    var order := CallOrder(ds);
    if Condemned(policy, ds) {
      var index :| index in order && ValidateToolCallName(policy, NameOf(ds, index)).Some?;
      var k :| 0 <= k < |order| && order[k] == index;
      assert CallsOf(ds)[k] in CallsOf(ds);
    }
  }

  /** The loop leaves with a refused call exactly when the calls that its deltas amount to contain a
      refused one; otherwise its state is exactly that aggregate. */
  lemma EarlyChecksAreExact(policy: Policy, firstId: Id, deltas: seq<Delta>, requestModel: string)
    ensures var s, ds := Fold(policy, firstId, deltas), UpToDone(deltas);
            && (s.rejection.Some? <==> FirstRejection(policy, CallsOf(ds)).Some?)
            && (s.rejection.None? ==> ResultOf(s, requestModel) == Aggregate(ds, requestModel))
  {
    var s, ds := Fold(policy, firstId, deltas), UpToDone(deltas);
    FoldAgrees(policy, firstId, deltas);
    CondemnedIsRefused(policy, ds);
    if s.rejection.None? {
      CallsByIndex(s.items, ds);
      assert CallsIn(s.items) == CallsOf(ds);
      if Condemned(policy, ds) {
        var index :| index in CallOrder(ds) && ValidateToolCallName(policy, NameOf(ds, index)).Some?;
        CallIndicesMembers(s.items, index);
      }
    }
  }

  lemma {:induction false} RejectionPersists(policy: Policy, firstId: Id, deltas: seq<Delta>, more: seq<Delta>)
    requires Fold(policy, firstId, deltas).rejection.Some?
    ensures Fold(policy, firstId, deltas + more).rejection == Fold(policy, firstId, deltas).rejection
  {
    FoldAgrees(policy, firstId, deltas);
    hide Apply, Agrees, Condemned;
    if more == [] {
      assert deltas + more == deltas;
    } else {
      var n := |more| - 1;
      RejectionPersists(policy, firstId, deltas, more[..n]);
      FoldAgrees(policy, firstId, deltas + more[..n]);
      assert (deltas + more)[..|deltas + more| - 1] == deltas + more[..n];
    }
  }

  /** A run that is cut early by tool policy would have failed the final check however it went on. */
  lemma EarlyRejectionIsFinal(policy: Policy, firstId: Id, deltas: seq<Delta>, more: seq<Delta>)
    requires Fold(policy, firstId, deltas).rejection.Some?
    ensures Verdict(policy, CallsOf(UpToDone(deltas + more))).Some?
  {
    RejectionPersists(policy, firstId, deltas, more);
    EarlyChecksAreExact(policy, firstId, deltas + more, "");
  }

  /** For every delta sequence: the streamed turn is refused exactly when the synchronous turn on the
      aggregated result is, and otherwise it answers with the same model, usage and items (ids aside,
      message first), and stores the very conversation that the synchronous path builds from that
      result, unless the result is empty: then only the synchronous path stores. */
  lemma StreamRefinesSync(request: Request, provider: string, deltas: seq<Delta>, storeMsgs: seq<Message>,
                          streamId: Id, syncId: Id, storeByDefault: bool)
    ensures var result := Aggregate(UpToDone(deltas), request.model);
            var streamed := StreamOutcome(request, provider, deltas, Ended, storeMsgs, streamId, storeByDefault);
            var sync := SyncOutcome(request, provider, result, storeMsgs, syncId, storeByDefault);
            && (streamed.Refused? <==> sync.Refused?)
            && (streamed.Answered? ==>
                  && streamed.response.model == sync.response.model
                  && streamed.response.usage == sync.response.usage
                  && Anonymous(TextFirst(streamed.response.output)) == Anonymous(sync.response.output)
                  && sync.stored == (if ShouldStore(request, storeByDefault)
                                     then Some(StoredConversation(provider, request, result, sync.response.output, storeMsgs))
                                     else None)
                  && streamed.stored == if ShouldStore(request, storeByDefault) && !IsEmptyResult(result)
                                        then Some(StoredConversation(provider, request, result, streamed.response.output, storeMsgs))
                                        else None)
  {
    var policy := PolicyOf(request);
    var s := Fold(policy, streamId, deltas);
    EarlyChecksAreExact(policy, streamId, deltas, request.model);
    FoldAgrees(policy, streamId, deltas);
    if s.rejection.None? {
      OutputRefinesSync(s, request.model, syncId);
    }
  }

  /** The difference, at the stream without deltas: the streamed turn is answered and leaves nothing to
      continue, the synchronous turn on the same empty result leaves a conversation. */
  lemma AnEmptyStreamIsNotStored(request: Request, provider: string, storeMsgs: seq<Message>, streamId: Id, syncId: Id,
                                 storeByDefault: bool)
    requires ShouldStore(request, storeByDefault) && Verdict(PolicyOf(request), []).None?
    ensures var streamed := StreamOutcome(request, provider, [], Ended, storeMsgs, streamId, storeByDefault);
            var sync := SyncOutcome(request, provider, Aggregate([], request.model), storeMsgs, syncId, storeByDefault);
            streamed.Answered? && streamed.stored.None? && sync.Answered? && sync.stored.Some?
  {
    assert UpToDone([]) == [];
    StreamRefinesSync(request, provider, [], storeMsgs, streamId, syncId, storeByDefault);
    assert CallsOf([]) == [];
  }

  /** The same for retrieval: a streamed response comes back with its message moved first. */
  lemma StreamedRoundTrip(request: Request, provider: string, deltas: seq<Delta>, e: Ending, storeMsgs: seq<Message>,
                          firstId: Id, freshId: Id, storeByDefault: bool)
    requires var outcome := StreamOutcome(request, provider, deltas, e, storeMsgs, firstId, storeByDefault);
             outcome.Answered? && outcome.stored.Some?
    ensures var outcome := StreamOutcome(request, provider, deltas, e, storeMsgs, firstId, storeByDefault);
            Anonymous(RetrievedOutput(outcome.stored.value.messages, freshId)) == Anonymous(TextFirst(outcome.response.output))
  {
    var s := Fold(PolicyOf(request), firstId, deltas);
    EarlyChecksAreExact(PolicyOf(request), firstId, deltas, request.model);
    FoldAgrees(PolicyOf(request), firstId, deltas);
    RetrievedStored(provider, request, ResultOf(s, request.model), OutputOf(s.items), storeMsgs, freshId, freshId);
    OutputRefinesSync(s, request.model, freshId);
  }
}

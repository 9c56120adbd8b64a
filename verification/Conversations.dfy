/** Chains of turns over the conversation store: every turn may continue a stored conversation, in
    either mode, with any provider (internal/server/server.go:188-290, 603-635, 974-995). */
module Conversations {
  import opened Api
  import opened Requests
  import opened Replay
  import opened SyncPath
  import opened StreamSpec
  import opened StreamAggregate
  import opened StreamRefinement

  datatype Reply = Whole(generation: Generation) | Streamed(deltas: seq<Delta>, e: Ending)

  /** One request with everything the outside world contributes to it: its normalised input, the provider
      it resolves to, the provider's reply and the ids that are drawn. */
  datatype Turn =
    Turn(request: Request, previous: Option<Id>, input: seq<Message>, references: seq<Id>,
         provider: string, reply: Reply, responseId: Id, firstItemId: Id)

  datatype Step = Ask(turn: Turn) | Delete(id: Id)

  /** The store, and for each conversation the requests of its turns as the clients sent them. */
  datatype Gateway = Gateway(store: map<Id, Conversation>, ghost lineage: map<Id, seq<Request>>)

  function Previous(g: Gateway, t: Turn): Option<Conversation> {
    if t.previous.Some? && t.previous.value in g.store then Some(g.store[t.previous.value]) else None
  }

  function Merged(g: Gateway, t: Turn): Request {
    var prev := Previous(g, t);
    if prev.Some? then Inherit(t.request, prev.value.request) else t.request
  }

  /** Referenced messages, then the overlaid history, then the new input. */
  function StoreMessages(g: Gateway, t: Turn): seq<Message> {
    var prev := Previous(g, t);
    if prev.None? then t.input
    else
      var history := Overlay(prev.value.messages, prev.value.replay, t.provider);
      References(prev.value.replay, t.references, history, t.provider) + history + t.input
  }

  function TurnOutcome(g: Gateway, t: Turn, storeByDefault: bool): Outcome {
    match t.reply
    case Whole(generation) =>
      SyncTurn(Merged(g, t), t.provider, generation, StoreMessages(g, t), t.firstItemId, storeByDefault)
    case Streamed(deltas, e) =>
      StreamOutcome(Merged(g, t), t.provider, deltas, e, StoreMessages(g, t), t.firstItemId, storeByDefault)
  }

  /** A turn that names an unknown conversation is answered "not found" and changes nothing. */
  ghost function Next(g: Gateway, step: Step, storeByDefault: bool): Gateway {
    match step
    case Delete(id) => Gateway(g.store - {id}, g.lineage - {id})
    case Ask(t) =>
      var outcome := TurnOutcome(g, t, storeByDefault);
      if t.previous.Some? && Previous(g, t).None? then g
      else if outcome.Refused? || outcome.stored.None? then g
      else
        var before := if t.previous.Some? && t.previous.value in g.lineage then g.lineage[t.previous.value] else [];
        Gateway(g.store[t.responseId := outcome.stored.value], g.lineage[t.responseId := before + [t.request]])
  }

  ghost function Run(steps: seq<Step>, storeByDefault: bool): Gateway {
    if steps == [] then Gateway(map[], map[])
    else Next(Run(steps[..|steps| - 1], storeByDefault), steps[|steps| - 1], storeByDefault)
  }

  /** Every replay item points at the last message, which is the assistant's, and all native messages
      that replay items carry are the same one. */
  ghost predicate WellPlaced(conv: Conversation) {
    conv.replay.Some? ==>
      var items := conv.replay.value.items;
      && (items != [] ==> conv.messages != [] && conv.messages[|conv.messages| - 1].role == "assistant")
      && (forall i :: 0 <= i < |items| ==> items[i].messageIndex == |conv.messages| - 1)
      && (forall i, j :: 0 <= i < |items| && 0 <= j < |items| && items[i].message.Some? && items[j].message.Some? ==>
            items[i].message == items[j].message)
  }

  lemma StoredIsWellPlaced(provider: string, request: Request, result: ProviderResult,
                           outputs: seq<OutputItem>, storeMsgs: seq<Message>)
    requires outputs != [] ==> !IsEmptyResult(result)
    ensures WellPlaced(StoredConversation(provider, request, result, outputs, storeMsgs))
  {
  }

  lemma TurnIsWellPlaced(g: Gateway, t: Turn, storeByDefault: bool)
    requires TurnOutcome(g, t, storeByDefault).Answered? && TurnOutcome(g, t, storeByDefault).stored.Some?
    ensures WellPlaced(TurnOutcome(g, t, storeByDefault).stored.value)
    ensures TurnOutcome(g, t, storeByDefault).stored.value.request == Merged(g, t)
  {
    match t.reply
    case Whole(generation) =>
      var result := generation.result;
      StoredIsWellPlaced(t.provider, Merged(g, t), result, SyncOutput(result, t.firstItemId), StoreMessages(g, t));
    case Streamed(deltas, e) =>
      var s := Fold(PolicyOf(Merged(g, t)), t.firstItemId, deltas);
      StoredIsWellPlaced(t.provider, Merged(g, t), ResultOf(s, Merged(g, t).model), OutputOf(s.items), StoreMessages(g, t));
  }

  ghost predicate Sound(g: Gateway, id: Id) {
    && id in g.store && id in g.lineage
    && WellPlaced(g.store[id])
    && g.lineage[id] != []
    && g.store[id].request == Effective(g.lineage[id])
  }

  /** The request a turn stores is what its chain, lengthened by the turn, amounts to. */
  lemma LineageGrows(g: Gateway, t: Turn)
    requires t.previous.Some? ==> Sound(g, t.previous.value)
    ensures var before := if t.previous.Some? then g.lineage[t.previous.value] else [];
            Merged(g, t) == Effective(before + [t.request])
  {
    hide Inherit, WellPlaced;
    if t.previous.Some? {
      var chain := g.lineage[t.previous.value];
      assert (chain + [t.request])[..|chain|] == chain;
    } else {
      assert [] + [t.request] == [t.request];
    }
  }

  lemma StoringKeepsSound(g: Gateway, responseId: Id, conv: Conversation, chain: seq<Request>, id: Id)
    requires id in g.store ==> Sound(g, id)
    requires WellPlaced(conv) && chain != [] && conv.request == Effective(chain)
    ensures var h := Gateway(g.store[responseId := conv], g.lineage[responseId := chain]);
            id in h.store ==> Sound(h, id)
  {
    hide WellPlaced, Effective;
  }

  lemma TurnKeepsSound(g: Gateway, t: Turn, storeByDefault: bool, id: Id)
    requires g.store.Keys == g.lineage.Keys
    requires forall id :: id in g.store ==> Sound(g, id)
    requires id in Next(g, Ask(t), storeByDefault).store
    ensures Sound(Next(g, Ask(t), storeByDefault), id)
  {
    var outcome := TurnOutcome(g, t, storeByDefault);
    if outcome.Answered? && outcome.stored.Some? && (t.previous.Some? ==> Previous(g, t).Some?) {
      TurnIsWellPlaced(g, t, storeByDefault);
      LineageGrows(g, t);
      var before := if t.previous.Some? then g.lineage[t.previous.value] else [];
      hide TurnOutcome, WellPlaced, Merged, Effective, Sound;
      StoringKeepsSound(g, t.responseId, outcome.stored.value, before + [t.request], id);
    }
  }

  /** In every store that any sequence of turns and deletions leads to, every conversation is well placed,
      and its request is what its whole chain of turns amounts to. */
  lemma {:induction false} EveryStoredConversation(steps: seq<Step>, storeByDefault: bool)
    ensures var g := Run(steps, storeByDefault);
            g.store.Keys == g.lineage.Keys && forall id :: id in g.store ==> Sound(g, id)
  {
    if steps != [] {
      var n := |steps| - 1;
      EveryStoredConversation(steps[..n], storeByDefault);
      var g := Run(steps[..n], storeByDefault);
      hide TurnOutcome, WellPlaced, Effective;
      forall id | id in Next(g, steps[n], storeByDefault).store ensures Sound(Next(g, steps[n], storeByDefault), id) {
        if steps[n].Ask? {
          TurnKeepsSound(g, steps[n].turn, storeByDefault, id);
        } else {
          assert Sound(g, id);
        }
      }
    }
  }

  /** The start of a turn, as the handler runs it: inherit, overlay, resolve, assemble. */
  method PrepareTurn(g: Gateway, t: Turn) returns (merged: Request, storeMsgs: seq<Message>)
    ensures merged == Merged(g, t) && storeMsgs == StoreMessages(g, t)
  {
    var request := new ResponseRequest(t.request);
    var history := [];
    if t.previous.Some? && t.previous.value in g.store {
      var prev := g.store[t.previous.value];
      request.InheritMissingContext(prev.request);
      history := ApplyReplayState(prev.messages, prev.replay, t.provider);
      if |t.references| > 0 {
        var resolved := ResolveItemReferences(t.references, history, prev.replay, t.provider);
        history := resolved + history;
      }
    }
    return request.fields, history + t.input;
  }

  /** The native message of a well-placed conversation, if any of its items carries one. */
  function Native(items: seq<ReplayItem>): Option<Message> {
    if items == [] then None
    else if items[|items| - 1].message.Some? then items[|items| - 1].message
    else Native(items[..|items| - 1])
  }

  lemma {:induction false} NativeAtLast(items: seq<ReplayItem>, last: int, k: int)
    requires forall i :: 0 <= i < |items| ==> items[i].messageIndex == last
    ensures NativeAt(items, k) == if k == last then Native(items) else None
    ensures forall i :: 0 <= i < |items| && items[i].message.Some? ==> Native(items).Some?
  {
    if items != [] {
      NativeAtLast(items[..|items| - 1], last, k);
    }
  }

  lemma {:induction false} NativeIsCarried(items: seq<ReplayItem>)
    requires Native(items).Some?
    ensures exists i :: 0 <= i < |items| && items[i].message == Native(items)
  {
    if items[|items| - 1].message.None? {
      NativeIsCarried(items[..|items| - 1]);
      var i :| 0 <= i < |items| - 1 && items[..|items| - 1][i].message == Native(items);
      assert items[i].message == Native(items);
    }
  }

  /** The overlay of a well-placed conversation changes at most the last message, and applying it twice
      is applying it once. */
  lemma OverlayChangesOnlyTheLast(conv: Conversation, provider: string)
    requires WellPlaced(conv)
    ensures var n := |conv.messages|;
            var overlaid := Overlay(conv.messages, conv.replay, provider);
            && (forall k :: 0 <= k < n - 1 ==> overlaid[k] == conv.messages[k])
            && (n > 0 ==>
                  (overlaid[n - 1] ==
                   if conv.replay.Some? && conv.replay.value.provider == provider && Native(conv.replay.value.items).Some?
                   then Native(conv.replay.value.items).value else conv.messages[n - 1]))
            && Overlay(overlaid, conv.replay, provider) == overlaid
  {
    if conv.replay.Some? {
      forall k | 0 <= k < |conv.messages|
        ensures NativeAt(conv.replay.value.items, k) ==
                if k == |conv.messages| - 1 then Native(conv.replay.value.items) else None
      {
        NativeAtLast(conv.replay.value.items, |conv.messages| - 1, k);
      }
    }
  }

  ghost predicate Known(conv: Conversation, id: Id) {
    conv.replay.Some? && ItemNamed(conv.replay.value.items, id).Some?
  }

  lemma {:induction false} NamedItemIsListed(items: seq<ReplayItem>, id: Id)
    ensures ItemNamed(items, id).Some? ==> ItemNamed(items, id).value in items && ItemNamed(items, id).value.id == id
    ensures ItemNamed(items, id).None? ==> forall i :: 0 <= i < |items| ==> items[i].id != id
  {
    if items != [] {
      NamedItemIsListed(items[..|items| - 1], id);
    }
  }

  lemma KnownReference(conv: Conversation, id: Id, provider: string)
    requires WellPlaced(conv) && Known(conv, id)
    ensures var history := Overlay(conv.messages, conv.replay, provider);
            var items := conv.replay.value.items;
            && conv.messages != []
            && Target(items, id, |history|) == Some(|history| - 1)
            && ResolvedMessage(items, id, history, conv.replay.value.provider == provider) == history[|history| - 1]
  {
    var items := conv.replay.value.items;
    NamedItemIsListed(items, id);
    var item := ItemNamed(items, id).value;
    var i :| 0 <= i < |items| && items[i] == item;
    OverlayChangesOnlyTheLast(conv, provider);
    if item.message.Some? {
      NativeAtLast(items, |conv.messages| - 1, 0);
      NativeIsCarried(items);
      var j :| 0 <= j < |items| && items[j].message == Native(items);
    }
  }

  ghost predicate AnyKnown(conv: Conversation, ids: seq<Id>) {
    exists i :: 0 <= i < |ids| && Known(conv, ids[i])
  }

  lemma AnyKnownOneMore(conv: Conversation, ids: seq<Id>, id: Id)
    ensures AnyKnown(conv, ids + [id]) <==> AnyKnown(conv, ids) || Known(conv, id)
  {
    assert (ids + [id])[|ids|] == id;
    if AnyKnown(conv, ids) {
      var i :| 0 <= i < |ids| && Known(conv, ids[i]);
      assert (ids + [id])[i] == ids[i];
    }
    if AnyKnown(conv, ids + [id]) {
      var i :| 0 <= i < |ids + [id]| && Known(conv, (ids + [id])[i]);
      assert i < |ids| ==> ids[i] == (ids + [id])[i];
    }
  }

  /** Whatever ids a client refers to: no known id resolves to nothing, and any number of known ones, in
      any order and with any repetition, to exactly the one message that the overlaid history ends with. */
  lemma {:induction false} ReferencesResolveToTheLast(conv: Conversation, ids: seq<Id>, provider: string)
    requires WellPlaced(conv)
    ensures var history := Overlay(conv.messages, conv.replay, provider);
            if AnyKnown(conv, ids)
            then |history| > 0 && References(conv.replay, ids, history, provider) == [history[|history| - 1]]
            else References(conv.replay, ids, history, provider) == []
    ensures conv.replay.Some? ==>
              Targets(conv.replay.value.items, ids, |conv.messages|) == if AnyKnown(conv, ids) then {|conv.messages| - 1} else {}
  {
    if conv.replay.Some? && ids != [] {
      var n := |ids| - 1;
      var items := conv.replay.value.items;
      ReferencesResolveToTheLast(conv, ids[..n], provider);
      TargetsOneMore(items, ids[..n], ids[n], |conv.messages|);
      AnyKnownOneMore(conv, ids[..n], ids[n]);
      assert ids == ids[..n] + [ids[n]];
      hide WellPlaced, AnyKnown, Overlay, Targets, ResolvedMessage;
      if Known(conv, ids[n]) {
        KnownReference(conv, ids[n], provider);
      }
    } else {
      hide WellPlaced;
    }
  }

  lemma {:induction false} ListedIdIsNamed(items: seq<ReplayItem>, k: nat)
    requires k < |items|
    ensures ItemNamed(items, items[k].id).Some?
  {
    if items[|items| - 1].id != items[k].id {
      ListedIdIsNamed(items[..|items| - 1], k);
    }
  }

  /** Every output item that a stored turn returned can be referred to in the next one. */
  lemma ReturnedItemsAreKnown(g: Gateway, t: Turn, storeByDefault: bool, k: nat)
    requires TurnOutcome(g, t, storeByDefault).Answered? && TurnOutcome(g, t, storeByDefault).stored.Some?
    requires k < |TurnOutcome(g, t, storeByDefault).response.output|
    ensures var outcome := TurnOutcome(g, t, storeByDefault);
            Known(outcome.stored.value, outcome.response.output[k].id)
  {
    var outcome := TurnOutcome(g, t, storeByDefault);
    var items := outcome.stored.value.replay.value.items;
    assert items[k].id == outcome.response.output[k].id;
    ListedIdIsNamed(items, k);
  }

  lemma {:induction false} NativeOfOutputs(outputs: seq<OutputItem>, index: int, native: Option<Message>)
    ensures Native(ReplayItemsFor(outputs, index, native)) ==
            if exists k :: 0 <= k < |outputs| && outputs[k].MessageItem? then native else None
  {
    if outputs != [] {
      var n := |outputs| - 1;
      NativeOfOutputs(outputs[..n], index, native);
      var items := ReplayItemsFor(outputs, index, native);
      assert items[..n] == ReplayItemsFor(outputs[..n], index, native);
      assert forall k :: 0 <= k < n && outputs[k].MessageItem? ==> outputs[..n][k].MessageItem?;
    }
  }

  /** A provider-native message is replayed to the same provider exactly when a message item is there to
      carry it, or it is the plain message anyway. */
  lemma NativeReplayNeedsMessage(provider: string, request: Request, result: ProviderResult, outputs: seq<OutputItem>,
                                 storeMsgs: seq<Message>)
    requires !IsEmptyResult(result) && result.replayMessage.Some? && outputs != []
    ensures var conv := StoredConversation(provider, request, result, outputs, storeMsgs);
            Overlay(conv.messages, conv.replay, provider)[|storeMsgs|] == result.replayMessage.value
            <==>
            (exists k :: 0 <= k < |outputs| && outputs[k].MessageItem?) || result.replayMessage == AssistantMessage(result)
  {
    var conv := StoredConversation(provider, request, result, outputs, storeMsgs);
    StoredIsWellPlaced(provider, request, result, outputs, storeMsgs);
    OverlayChangesOnlyTheLast(conv, provider);
    NativeOfOutputs(outputs, |storeMsgs|, result.replayMessage);
  }

  /** So it comes back exactly when the result had text: tool calls alone have no message item to carry it. */
  lemma NativeReplayNeedsText(provider: string, request: Request, result: ProviderResult, storeMsgs: seq<Message>, firstId: Id)
    requires !IsEmptyResult(result) && result.replayMessage.Some?
    ensures var conv := StoredConversation(provider, request, result, SyncOutput(result, firstId), storeMsgs);
            Overlay(conv.messages, conv.replay, provider)[|storeMsgs|] == result.replayMessage.value
            <==>
            result.text != "" || result.replayMessage == AssistantMessage(result)
  {
    var outputs := SyncOutput(result, firstId);
    NativeReplayNeedsMessage(provider, request, result, outputs, storeMsgs);
    assert result.text != "" ==> outputs[0].MessageItem?;
  }

  /** The same for a streamed turn, over what its deltas amount to. */
  lemma StreamedNativeReplayNeedsText(request: Request, provider: string, deltas: seq<Delta>, e: Ending,
                                      storeMsgs: seq<Message>, firstId: Id, storeByDefault: bool)
    requires var outcome := StreamOutcome(request, provider, deltas, e, storeMsgs, firstId, storeByDefault);
             outcome.Answered? && outcome.stored.Some?
    requires ReplayOf(UpToDone(deltas)).Some?
    ensures var conv := StreamOutcome(request, provider, deltas, e, storeMsgs, firstId, storeByDefault).stored.value;
            var result := Aggregate(UpToDone(deltas), request.model);
            && |conv.messages| == |storeMsgs| + 1
            && (Overlay(conv.messages, conv.replay, provider)[|storeMsgs|] == ReplayOf(UpToDone(deltas)).value
                <==>
                TextOf(UpToDone(deltas)) != "" || ReplayOf(UpToDone(deltas)) == AssistantMessage(result))
  {
    var s := Fold(PolicyOf(request), firstId, deltas);
    EarlyChecksAreExact(PolicyOf(request), firstId, deltas, request.model);
    FoldAgrees(PolicyOf(request), firstId, deltas);
    StreamedMessageItem(s, UpToDone(deltas));
    hide Fold, Aggregate, Agrees, OutputOf;
    NativeReplayNeedsMessage(provider, request, ResultOf(s, request.model), OutputOf(s.items), storeMsgs);
  }

  lemma StreamedMessageItem(s: Stream, ds: seq<Delta>)
    requires TextAgrees(s.items, ds)
    ensures (exists k :: 0 <= k < |OutputOf(s.items)| && OutputOf(s.items)[k].MessageItem?) <==> TextOf(ds) != ""
    ensures TextIn(s.items) != "" || CallsIn(s.items) != [] ==> OutputOf(s.items) != []
  {
    var p := TextPosition(s.items);
    if p < |s.items| {
      assert OutputOf(s.items)[p].MessageItem?;
    }
  }
}

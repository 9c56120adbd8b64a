/** What a turn answers and what a conversation reads like, said from the turns' own fields
    (internal/server/server.go:98-103, 266-277, 603-635 and 950-995). */
module Histories {
  import opened Api
  import opened ToolPolicy
  import opened Requests
  import opened Replay
  import opened SyncPath
  import opened StreamSpec
  import opened StreamAggregate
  import opened StreamRefinement
  import opened Conversations
  import StreamEvents

  // ----- one turn's reply

  function ReplyText(t: Turn): string {
    match t.reply
    case Whole(Generated(result)) => result.text
    case Whole(Errored(_)) => ""
    case Streamed(deltas, _) => TextOf(UpToDone(deltas))
  }

  function ReplyCalls(t: Turn): seq<ToolCall> {
    match t.reply
    case Whole(Generated(result)) => result.toolCalls
    case Whole(Errored(_)) => []
    case Streamed(deltas, _) => CallsOf(UpToDone(deltas))
  }

  function ReplyId(t: Turn): string {
    match t.reply
    case Whole(Generated(result)) => result.id
    case Whole(Errored(_)) => ""
    case Streamed(deltas, _) => ResultIdOf(UpToDone(deltas))
  }

  function ReplyNative(t: Turn): Option<Message> {
    match t.reply
    case Whole(Generated(result)) => result.replayMessage
    case Whole(Errored(_)) => None
    case Streamed(deltas, _) => ReplayOf(UpToDone(deltas))
  }

  function ReplyUsage(t: Turn): Usage {
    match t.reply
    case Whole(Generated(result)) => result.usage
    case Whole(Errored(_)) => Usage(0, 0)
    case Streamed(deltas, _) => if UsageOf(UpToDone(deltas)).Some? then UsageOf(UpToDone(deltas)).value else Usage(0, 0)
  }

  function ReplyModel(t: Turn): string {
    match t.reply
    case Whole(Generated(result)) => result.model
    case Whole(Errored(_)) => ""
    case Streamed(deltas, _) => ModelOf(UpToDone(deltas))
  }

  /** The assistant message of a turn: none for an empty reply. */
  function ReplyMessage(t: Turn): seq<Message> {
    if ReplyText(t) == "" && ReplyCalls(t) == [] then []
    else
      [Message("assistant", if ReplyText(t) == "" then [] else [ContentBlock("output_text", ReplyText(t), "", "", "")],
               "", "", ReplyCalls(t))]
  }

  predicate IsCall(item: OutputItem, call: ToolCall) {
    item.FunctionCallItem? && item.status == Complete
    && item.callId == call.id && item.name == call.name && item.arguments == call.arguments
  }

  /** The items of an answer, ids aside and message first, say the text and the calls. */
  ghost predicate Says(items: seq<OutputItem>, text: string, calls: seq<ToolCall>) {
    var first := if text == "" then 0 else 1;
    && |items| == first + |calls|
    && (text != "" ==> items[0].MessageItem? && items[0].status == Complete && items[0].content == [ContentPart("output_text", text)])
    && forall k :: first <= k < |items| ==> IsCall(items[k], calls[k - first])
  }

  lemma OutputSays(result: ProviderResult, firstId: Id)
    ensures Says(SyncOutput(result, firstId), result.text, result.toolCalls)
  {
  }

  lemma AnonymousSays(items: seq<OutputItem>, text: string, calls: seq<ToolCall>)
    requires Says(items, text, calls)
    ensures Says(Anonymous(items), text, calls)
  {
    var blank := Anonymous(items);
    assert |blank| == |items| && forall k :: 0 <= k < |items| ==> blank[k] == items[k].(id := 0);
    hide Anonymous;
  }

  lemma SyncOutputSays(result: ProviderResult, firstId: Id)
    ensures Says(SyncOutput(result, firstId), result.text, result.toolCalls)
    ensures Says(Anonymous(SyncOutput(result, firstId)), result.text, result.toolCalls)
  {
    hide Says, SyncOutput, Anonymous;
    OutputSays(result, firstId);
    AnonymousSays(SyncOutput(result, firstId), result.text, result.toolCalls);
  }

  /** What an answer reports, in either mode, is the reply: its text and calls as items, its usage, and its
      model or else the requested one. */
  lemma AnswerReportsTheReply(g: Gateway, t: Turn, byDefault: bool)
    requires TurnOutcome(g, t, byDefault).Answered?
    ensures var response := TurnOutcome(g, t, byDefault).response;
            && response.usage == ReplyUsage(t)
            && response.model == (if ReplyModel(t) != "" then ReplyModel(t) else t.request.model)
            && (t.reply.Whole? ==> Says(response.output, ReplyText(t), ReplyCalls(t)))
            && (t.reply.Streamed? ==> Says(Anonymous(TextFirst(response.output)), ReplyText(t), ReplyCalls(t)))
  {
    match t.reply
    case Whole(generation) =>
      SyncOutputSays(generation.result, t.firstItemId);
    case Streamed(deltas, e) =>
      StreamedAnswer(Merged(g, t), t, deltas, e);
  }

  lemma StreamedAnswer(request: Request, t: Turn, deltas: seq<Delta>, e: Ending)
    requires t.reply == Streamed(deltas, e) && Fold(PolicyOf(request), t.firstItemId, deltas).rejection.None?
    ensures var s := Fold(PolicyOf(request), t.firstItemId, deltas);
            && ResultOf(s, request.model) == Aggregate(UpToDone(deltas), request.model)
            && Says(Anonymous(TextFirst(OutputOf(s.items))), ReplyText(t), ReplyCalls(t))
  {
    var s := Fold(PolicyOf(request), t.firstItemId, deltas);
    EarlyChecksAreExact(PolicyOf(request), t.firstItemId, deltas, request.model);
    FoldAgrees(PolicyOf(request), t.firstItemId, deltas);
    OutputRefinesSync(s, request.model, t.firstItemId);
    SyncOutputSays(ResultOf(s, request.model), t.firstItemId);
    hide Says, TextFirst, Anonymous, SyncOutput, OutputOf, Fold;
  }

  /** No two items of an answer share an id. */
  lemma AnswerIdsDiffer(g: Gateway, t: Turn, byDefault: bool)
    requires TurnOutcome(g, t, byDefault).Answered?
    ensures var output := TurnOutcome(g, t, byDefault).response.output;
            forall i, j :: 0 <= i < j < |output| ==> output[i].id != output[j].id
  {
    if t.reply.Streamed? {
      StreamEvents.IdsAreConsecutive(PolicyOf(Merged(g, t)), t.firstItemId, t.reply.deltas);
    }
    hide Fold, FinalError, StoredConversation, Merged, StoreMessages, Verdict;
  }

  /** A turn is stored exactly when its own request says so, or says nothing and the gateway stores by
      default; an empty streamed reply is not. */
  lemma StoredExactlyWhen(g: Gateway, t: Turn, byDefault: bool)
    requires TurnOutcome(g, t, byDefault).Answered?
    ensures TurnOutcome(g, t, byDefault).stored.Some? <==>
            && (if t.request.store.Some? then t.request.store.value else byDefault)
            && (t.reply.Streamed? ==> ReplyMessage(t) != [])
  {
    if t.reply.Streamed? {
      StreamedAnswer(Merged(g, t), t, t.reply.deltas, t.reply.e);
    }
    hide Fold, OutputOf, TextFirst, Anonymous, Says, StoredConversation, TextOf, CallsOf, UpToDone;
  }

  /** What a stored turn leaves: its messages, then the reply; and replay items for what was answered, in
      order, all at the reply's position, with the native message on the text. */
  ghost predicate Leaves(conv: Conversation, t: Turn, before: seq<Message>, output: seq<OutputItem>) {
    && conv.messages == before + ReplyMessage(t)
    && (conv.replay.None? <==> ReplyId(t) == "" && output == [])
    && (conv.replay.Some? ==>
          var replay := conv.replay.value;
          && replay.provider == t.provider && replay.responseId == ReplyId(t) && |replay.items| == |output|
          && forall k :: 0 <= k < |output| ==>
               && replay.items[k].id == output[k].id && replay.items[k].messageIndex == |before|
               && replay.items[k].kind == (if output[k].MessageItem? then OfMessage else OfCall)
               && replay.items[k].message == if output[k].MessageItem? then ReplyNative(t) else None)
  }

  lemma StoredLeaves(request: Request, t: Turn, result: ProviderResult, outputs: seq<OutputItem>, before: seq<Message>)
    requires result.text == ReplyText(t) && result.toolCalls == ReplyCalls(t)
    requires result.id == ReplyId(t) && result.replayMessage == ReplyNative(t)
    requires IsEmptyResult(result) ==> outputs == []
    ensures Leaves(StoredConversation(t.provider, request, result, outputs, before), t, before, outputs)
    ensures StoredConversation(t.provider, request, result, outputs, before).request == request
  {
    hide ReplyText, ReplyCalls, ReplyId, ReplyNative;
    assert before + [] == before;
  }

  lemma TurnLeaves(g: Gateway, t: Turn, byDefault: bool)
    requires TurnOutcome(g, t, byDefault).Answered? && TurnOutcome(g, t, byDefault).stored.Some?
    ensures var outcome := TurnOutcome(g, t, byDefault);
            && Leaves(outcome.stored.value, t, StoreMessages(g, t), outcome.response.output)
            && outcome.stored.value.request == Merged(g, t)
            && outcome.stored.value.model == if t.reply.Streamed? && ReplyModel(t) == "" then t.request.model else ReplyModel(t)
  {
    match t.reply
    case Whole(generation) =>
      SyncOutputSays(generation.result, t.firstItemId);
      StoredLeaves(Merged(g, t), t, generation.result, SyncOutput(generation.result, t.firstItemId), StoreMessages(g, t));
    case Streamed(deltas, e) =>
      var s := Fold(PolicyOf(Merged(g, t)), t.firstItemId, deltas);
      StreamedAnswer(Merged(g, t), t, deltas, e);
      hide Fold, Says, TextFirst, Anonymous, Leaves, StoreMessages;
      StoredLeaves(Merged(g, t), t, ResultOf(s, Merged(g, t).model), OutputOf(s.items), StoreMessages(g, t));
  }

  lemma TurnMessages(g: Gateway, t: Turn, byDefault: bool)
    requires TurnOutcome(g, t, byDefault).Answered? && TurnOutcome(g, t, byDefault).stored.Some?
    ensures TurnOutcome(g, t, byDefault).stored.value.messages == StoreMessages(g, t) + ReplyMessage(t)
  {
    hide TurnOutcome, StoreMessages, ReplyMessage, Merged, ReplyModel;
    TurnLeaves(g, t, byDefault);
  }

  // ----- retrieval

  /** Retrieval shows the last message of the assistant as it is: one part for each content block, with its
      kind and text, in one message item, then its calls; and nothing when there is none. */
  lemma RetrievalShowsTheLastAnswer(messages: seq<Message>, at: nat, freshId: Id)
    requires at < |messages| && messages[at].role == "assistant"
    requires forall j :: at < j < |messages| ==> messages[j].role != "assistant"
    ensures var m, items := messages[at], RetrievedOutput(messages, freshId);
            var first := if m.content == [] then 0 else 1;
            && |items| == first + |m.toolCalls|
            && (m.content != [] ==>
                  && items[0].MessageItem? && items[0].status == Complete && |items[0].content| == |m.content|
                  && forall k :: 0 <= k < |m.content| ==> items[0].content[k] == ContentPart(m.content[k].kind, m.content[k].text))
            && forall k :: first <= k < |items| ==> IsCall(items[k], m.toolCalls[k - first])
  {
    LastAnswerIs(messages, at);
    hide LastAssistant;
  }

  lemma {:induction false} LastAnswerIs(messages: seq<Message>, at: nat)
    requires at < |messages| && messages[at].role == "assistant"
    requires forall j :: at < j < |messages| ==> messages[j].role != "assistant"
    ensures LastAssistant(messages) == Some(messages[at])
    decreases |messages|
  {
    if at < |messages| - 1 {
      LastAnswerIs(messages[..|messages| - 1], at);
    }
  }

  // ----- a conversation's history

  /** The id names an item that the conversation answered with. */
  ghost predicate Refers(conv: Conversation, ids: seq<Id>) {
    conv.replay.Some? && exists i, k :: 0 <= i < |ids| && 0 <= k < |conv.replay.value.items| && conv.replay.value.items[k].id == ids[i]
  }

  /** A history that the next turn carries on: the previous messages, each once and in order, the last one
      possibly as the same provider first worded it. */
  ghost predicate CarriesOn(hist: seq<Message>, prev: Conversation, provider: string) {
    && |hist| == |prev.messages|
    && (forall k :: 0 <= k < |hist| - 1 ==> hist[k] == prev.messages[k])
    && (hist != [] && hist[|hist| - 1] != prev.messages[|hist| - 1] ==>
          && prev.replay.Some? && prev.replay.value.provider == provider
          && exists k :: 0 <= k < |prev.replay.value.items| && prev.replay.value.items[k].message == Some(hist[|hist| - 1]))
    && (prev.replay.Some? && prev.replay.value.provider == provider ==>
          forall k :: 0 <= k < |prev.replay.value.items| && prev.replay.value.items[k].message.Some? ==>
            hist != [] && prev.replay.value.items[k].message == Some(hist[|hist| - 1]))
  }

  lemma OverlayCarriesOn(prev: Conversation, provider: string)
    requires WellPlaced(prev)
    ensures CarriesOn(Overlay(prev.messages, prev.replay, provider), prev, provider)
  {
    OverlayChangesOnlyTheLast(prev, provider);
    if prev.replay.Some? && prev.replay.value.provider == provider {
      var items := prev.replay.value.items;
      NativeAtLast(items, |prev.messages| - 1, 0);
      if Native(items).Some? {
        NativeIsCarried(items);
      }
    }
  }

  lemma RefersMeansKnown(conv: Conversation, ids: seq<Id>)
    ensures Refers(conv, ids) <==> AnyKnown(conv, ids)
  {
    if conv.replay.Some? {
      var items := conv.replay.value.items;
      forall i | 0 <= i < |ids| ensures Known(conv, ids[i]) <==> exists k :: 0 <= k < |items| && items[k].id == ids[i] {
        NamedItemIsListed(items, ids[i]);
        if ItemNamed(items, ids[i]).Some? {
          var k :| 0 <= k < |items| && items[k] == ItemNamed(items, ids[i]).value;
        }
      }
    }
  }

  ghost predicate IsStored(g: Gateway, t: Turn, byDefault: bool) {
    && (t.previous.Some? ==> t.previous.value in g.store)
    && TurnOutcome(g, t, byDefault).Answered? && TurnOutcome(g, t, byDefault).stored.Some?
  }

  lemma AskStores(steps: seq<Step>, t: Turn, byDefault: bool)
    requires IsStored(Run(steps, byDefault), t, byDefault)
    ensures var after := Run(steps + [Ask(t)], byDefault);
            t.responseId in after.store && after.store[t.responseId] == TurnOutcome(Run(steps, byDefault), t, byDefault).stored.value
  {
    assert (steps + [Ask(t)])[..|steps|] == steps;
    hide TurnOutcome;
  }

  lemma HistoryReads(g: Gateway, t: Turn) returns (refs: seq<Message>, hist: seq<Message>)
    requires t.previous.Some? && t.previous.value in g.store && WellPlaced(g.store[t.previous.value])
    ensures StoreMessages(g, t) == refs + hist + t.input
    ensures CarriesOn(hist, g.store[t.previous.value], t.provider)
    ensures refs == if Refers(g.store[t.previous.value], t.references) && hist != [] then [hist[|hist| - 1]] else []
  {
    var prev := g.store[t.previous.value];
    hist := Overlay(prev.messages, prev.replay, t.provider);
    refs := References(prev.replay, t.references, hist, t.provider);
    hide WellPlaced, Overlay, References, AnyKnown, Refers, CarriesOn;
    OverlayCarriesOn(prev, t.provider);
    RefersMeansKnown(prev, t.references);
    ReferencesResolveToTheLast(prev, t.references, t.provider);
  }

  lemma StoredIsWellPlaced(steps: seq<Step>, byDefault: bool, id: Id)
    requires id in Run(steps, byDefault).store
    ensures WellPlaced(Run(steps, byDefault).store[id])
  {
    EveryStoredConversation(steps, byDefault);
    hide Run, WellPlaced, Effective;
    assert Sound(Run(steps, byDefault), id);
  }

  /** In every store that any sequence of turns and deletions leads to, a turn that continues a conversation
      and is stored reads: at most one referenced message, the whole history in order, the turn's input,
      the reply.  A reference to an item that the conversation answered with repeats its last message in
      front of the history, once. */
  lemma ContinuedTurnReads(steps: seq<Step>, t: Turn, byDefault: bool) returns (refs: seq<Message>, hist: seq<Message>)
    requires var g := Run(steps, byDefault);
             && t.previous.Some? && t.previous.value in g.store
             && TurnOutcome(g, t, byDefault).Answered? && TurnOutcome(g, t, byDefault).stored.Some?
    ensures var prev := Run(steps, byDefault).store[t.previous.value];
            var after := Run(steps + [Ask(t)], byDefault);
            && t.responseId in after.store
            && after.store[t.responseId].messages == refs + hist + t.input + ReplyMessage(t)
            && CarriesOn(hist, prev, t.provider)
            && refs == if Refers(prev, t.references) && hist != [] then [hist[|hist| - 1]] else []
  {
    hide Run, TurnOutcome, WellPlaced, CarriesOn, Refers, StoreMessages, ReplyMessage;
    var g := Run(steps, byDefault);
    StoredIsWellPlaced(steps, byDefault, t.previous.value);
    refs, hist := HistoryReads(g, t);
    TurnMessages(g, t, byDefault);
    AskStores(steps, t, byDefault);
  }

  /** A first turn reads: its input, the reply. */
  lemma FirstTurnReads(steps: seq<Step>, t: Turn, byDefault: bool)
    requires t.previous.None?
    requires TurnOutcome(Run(steps, byDefault), t, byDefault).Answered? && TurnOutcome(Run(steps, byDefault), t, byDefault).stored.Some?
    ensures var after := Run(steps + [Ask(t)], byDefault);
            t.responseId in after.store && after.store[t.responseId].messages == t.input + ReplyMessage(t)
  {
    hide Run, TurnOutcome, ReplyMessage;
    TurnMessages(Run(steps, byDefault), t, byDefault);
    AskStores(steps, t, byDefault);
  }

  // ----- whole chains

  function Before(chains: map<Id, seq<Turn>>, t: Turn): seq<Turn> {
    if t.previous.Some? && t.previous.value in chains then chains[t.previous.value] else []
  }

  /** For each stored conversation, the turns that led to it, the first one first. */
  ghost function Chains(steps: seq<Step>, byDefault: bool): map<Id, seq<Turn>> {
    if steps == [] then map[]
    else
      var init := steps[..|steps| - 1];
      var chains := Chains(init, byDefault);
      match steps[|steps| - 1]
      case Delete(id) => chains - {id}
      case Ask(t) =>
        if !IsStored(Run(init, byDefault), t, byDefault) then chains
        else chains[t.responseId := Before(chains, t) + [t]]
  }

  /** A turn without references, whose reply brings no native message. */
  predicate IsPlain(t: Turn) {
    t.references == [] && ReplyNative(t).None?
  }

  /** Input 1, reply 1, ..., input n, reply n. */
  function Transcript(turns: seq<Turn>): seq<Message> {
    if turns == [] then []
    else Transcript(turns[..|turns| - 1]) + turns[|turns| - 1].input + ReplyMessage(turns[|turns| - 1])
  }

  ghost predicate NoNatives(conv: Conversation) {
    conv.replay.Some? ==> forall k :: 0 <= k < |conv.replay.value.items| ==> conv.replay.value.items[k].message.None?
  }

  ghost predicate AllPlain(turns: seq<Turn>) {
    forall k :: 0 <= k < |turns| ==> IsPlain(turns[k])
  }

  ghost predicate Transcribed(conv: Conversation, turns: seq<Turn>) {
    turns != [] && (AllPlain(turns) ==> conv.messages == Transcript(turns) && NoNatives(conv))
  }

  lemma PlainTurnCarriesOn(hist: seq<Message>, prev: Conversation, provider: string)
    requires CarriesOn(hist, prev, provider) && NoNatives(prev)
    ensures hist == prev.messages
  {
  }

  lemma OneTurnTranscribed(conv: Conversation, t: Turn)
    requires conv.messages == t.input + ReplyMessage(t) && (ReplyNative(t).None? ==> NoNatives(conv))
    ensures Transcribed(conv, [t])
  {
    hide ReplyMessage, ReplyNative, NoNatives;
    var one := [t];
    assert one[..|one| - 1] == [] && [] + t.input == t.input;
    assert Transcript(one) == Transcript([]) + t.input + ReplyMessage(t);
    assert AllPlain(one) ==> IsPlain(one[0]);
  }

  lemma FirstIsTranscribed(steps: seq<Step>, t: Turn, byDefault: bool)
    requires IsStored(Run(steps, byDefault), t, byDefault) && t.previous.None?
    ensures t.responseId in Run(steps + [Ask(t)], byDefault).store
    ensures Transcribed(Run(steps + [Ask(t)], byDefault).store[t.responseId], [t])
  {
    FirstTurnReads(steps, t, byDefault);
    StoredHasNoNatives(steps, t, byDefault);
    hide Run, ReplyMessage, TurnOutcome, NoNatives, Transcribed, ReplyNative;
    OneTurnTranscribed(Run(steps + [Ask(t)], byDefault).store[t.responseId], t);
  }

  lemma LeavesNoNatives(conv: Conversation, t: Turn, before: seq<Message>, output: seq<OutputItem>)
    requires Leaves(conv, t, before, output) && ReplyNative(t).None?
    ensures NoNatives(conv)
  {
    hide ReplyNative, ReplyId, ReplyMessage;
  }

  lemma StoredHasNoNatives(steps: seq<Step>, t: Turn, byDefault: bool)
    requires IsStored(Run(steps, byDefault), t, byDefault)
    ensures t.responseId in Run(steps + [Ask(t)], byDefault).store
    ensures ReplyNative(t).None? ==> NoNatives(Run(steps + [Ask(t)], byDefault).store[t.responseId])
  {
    hide Run, TurnOutcome, StoreMessages, Merged, ReplyModel, Leaves, NoNatives, ReplyNative;
    var g := Run(steps, byDefault);
    AskStores(steps, t, byDefault);
    TurnLeaves(g, t, byDefault);
    var outcome := TurnOutcome(g, t, byDefault);
    if ReplyNative(t).None? {
      LeavesNoNatives(outcome.stored.value, t, StoreMessages(g, t), outcome.response.output);
    }
  }

  lemma NextIsTranscribed(steps: seq<Step>, t: Turn, byDefault: bool, chain: seq<Turn>)
    requires IsStored(Run(steps, byDefault), t, byDefault) && t.previous.Some?
    requires Transcribed(Run(steps, byDefault).store[t.previous.value], chain)
    ensures t.responseId in Run(steps + [Ask(t)], byDefault).store
    ensures Transcribed(Run(steps + [Ask(t)], byDefault).store[t.responseId], chain + [t])
  {
    StoredHasNoNatives(steps, t, byDefault);
    var prev := Run(steps, byDefault).store[t.previous.value];
    var refs, hist := ContinuedTurnReads(steps, t, byDefault);
    hide Run, TurnOutcome, ReplyMessage;
    var all := chain + [t];
    assert all[..|chain|] == chain;
    if AllPlain(all) {
      assert all[|chain|] == t;
      assert forall k :: 0 <= k < |chain| ==> chain[k] == all[k];
      PlainTurnCarriesOn(hist, prev, t.provider);
      assert refs == [];
      assert [] + hist == hist;
    }
    hide CarriesOn, NoNatives;
  }

  /** What one step does to the store's other conversations: nothing, unless it deletes them. */
  lemma StepTouchesOne(init: seq<Step>, step: Step, byDefault: bool)
    ensures var g, h := Run(init, byDefault), Run(init + [step], byDefault);
            && (step.Delete? ==> h.store == g.store - {step.id})
            && (step.Ask? && !IsStored(g, step.turn, byDefault) ==> h.store == g.store)
            && (step.Ask? && IsStored(g, step.turn, byDefault) ==>
                  var id := step.turn.responseId;
                  id in h.store && h.store == g.store[id := h.store[id]])
  {
    assert (init + [step])[..|init|] == init;
    hide TurnOutcome;
  }

  lemma ChainsGrow(init: seq<Step>, step: Step, byDefault: bool)
    ensures var chains, after := Chains(init, byDefault), Chains(init + [step], byDefault);
            && (step.Delete? ==> after == chains - {step.id})
            && (step.Ask? && !IsStored(Run(init, byDefault), step.turn, byDefault) ==> after == chains)
            && (step.Ask? && IsStored(Run(init, byDefault), step.turn, byDefault) ==>
                  after == chains[step.turn.responseId := Before(chains, step.turn) + [step.turn]])
  {
    assert (init + [step])[..|init|] == init;
    hide IsStored, Run;
  }

  lemma AskKeepsTranscripts(init: seq<Step>, t: Turn, byDefault: bool, id: Id)
    requires var g, chains := Run(init, byDefault), Chains(init, byDefault);
             g.store.Keys == chains.Keys && forall id :: id in g.store ==> Transcribed(g.store[id], chains[id])
    requires IsStored(Run(init, byDefault), t, byDefault) && id in Run(init + [Ask(t)], byDefault).store
    ensures var after := Chains(init + [Ask(t)], byDefault);
            id in after && Transcribed(Run(init + [Ask(t)], byDefault).store[id], after[id])
  {
    var chains := Chains(init, byDefault);
    StepTouchesOne(init, Ask(t), byDefault);
    ChainsGrow(init, Ask(t), byDefault);
    if id == t.responseId {
      if t.previous.None? {
        FirstIsTranscribed(init, t, byDefault);
        assert [] + [t] == [t];
      } else {
        NextIsTranscribed(init, t, byDefault, chains[t.previous.value]);
      }
    }
    hide Run, Chains, Transcribed, TurnOutcome;
  }

  /** Whatever else happens in the store: a conversation whose turns name no references and whose replies
      bring no native messages is the transcript of its turns, nothing dropped, doubled or reordered. */
  lemma {:induction false} PlainConversationsAreTranscripts(steps: seq<Step>, byDefault: bool)
    ensures var g, chains := Run(steps, byDefault), Chains(steps, byDefault);
            g.store.Keys == chains.Keys && forall id :: id in g.store ==> Transcribed(g.store[id], chains[id])
  {
    if steps != [] {
      var init, step := steps[..|steps| - 1], steps[|steps| - 1];
      PlainConversationsAreTranscripts(init, byDefault);
      assert steps == init + [step];
      hide Transcribed, TurnOutcome, Run, Chains, IsStored;
      StepTouchesOne(init, step, byDefault);
      ChainsGrow(init, step, byDefault);
      if step.Ask? && IsStored(Run(init, byDefault), step.turn, byDefault) {
        forall id | id in Run(steps, byDefault).store
          ensures id in Chains(steps, byDefault) && Transcribed(Run(steps, byDefault).store[id], Chains(steps, byDefault)[id])
        {
          AskKeepsTranscripts(init, step.turn, byDefault, id);
        }
      }
    }
  }
}

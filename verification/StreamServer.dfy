/** `handleStreamingResponse` as the gateway runs it: counters, one optional message builder and a map
    of tool-call builders keyed by provider index, whose iteration order is arbitrary.  It refines
    the list of items in `StreamSpec` (internal/server/server.go:684-1168). */
module StreamServer {
  import opened Api
  import opened MapOrder
  import opened ToolPolicy
  import opened Requests
  import opened Replay
  import opened SyncPath
  import opened StreamSpec
  import opened StreamRefinement

  datatype MessageBuilder = MessageBuilder(itemId: Id, outputIndex: nat, text: string)

  datatype ToolCallBuilder =
    ToolCallBuilder(streamIndex: int, outputIndex: nat, itemId: Id, id: string, name: string, arguments: string)

  datatype Event = Event(sequenceNumber: nat, body: EventBody)

  function Bodies(events: seq<Event>): seq<EventBody> {
    seq(|events|, k requires 0 <= k < |events| => events[k].body)
  }

  predicate Numbered(events: seq<Event>) {
    forall k :: 0 <= k < |events| ==> events[k].sequenceNumber == k
  }

  function MessageOf(b: MessageBuilder): Item {
    TextItem(b.itemId, b.text)
  }

  function CallOfBuilder(b: ToolCallBuilder): Item {
    CallItem(b.itemId, b.streamIndex, b.id, b.name, b.arguments)
  }

  datatype Indexed<T> = Indexed(index: nat, value: T)

  function Indexes<T>(s: seq<Indexed<T>>): seq<nat> {
    seq(|s|, k requires 0 <= k < |s| => s[k].index)
  }

  /** `sort.Slice` on distinct indices. */
  method SortByIndex<T(==)>(items: seq<Indexed<T>>) returns (sorted: seq<Indexed<T>>)
    requires forall i, j :: 0 <= i < j < |items| ==> items[i].index != items[j].index
    ensures Ascending(Indexes(sorted))
    ensures forall x :: x in sorted <==> x in items
  {
    sorted := [];
    for i := 0 to |items|
      invariant Ascending(Indexes(sorted))
      invariant forall x :: x in sorted <==> x in items[..i]
    {
      assert items[..i + 1] == items[..i] + [items[i]];
      assert forall x :: x in items[..i] ==> x.index != items[i].index;
      sorted := Insert(sorted, items[i]);
    }
    assert items[..|items|] == items;
  }

  method Insert<T(==)>(s: seq<Indexed<T>>, x: Indexed<T>) returns (r: seq<Indexed<T>>)
    requires Ascending(Indexes(s)) && forall y :: y in s ==> y.index != x.index
    ensures Ascending(Indexes(r))
    ensures forall y :: y in r <==> y in s || y == x
  {
    var p := 0;
    while p < |s| && s[p].index < x.index
      invariant 0 <= p <= |s|
      invariant forall k :: 0 <= k < p ==> s[k].index < x.index
    {
      p := p + 1;
    }
    assert p < |s| ==> s[p] in s;
    InsertKeepsOrder(s, p, x);
    assert s == s[..p] + s[p..];
    r := s[..p] + [x] + s[p..];
  }

  lemma InsertKeepsOrder<T>(s: seq<Indexed<T>>, p: nat, x: Indexed<T>)
    requires p <= |s| && Ascending(Indexes(s))
    requires forall k :: 0 <= k < p ==> s[k].index < x.index
    requires p < |s| ==> x.index < s[p].index
    ensures Ascending(Indexes(s[..p] + [x] + s[p..]))
  {
    var t := s[..p] + [x] + s[p..];
    forall i, j | 0 <= i < j < |t| ensures t[i].index < t[j].index {
      var i', j' := if i > p then i - 1 else i, if j > p then j - 1 else j;
      assert i != p ==> t[i] == s[i'] && Indexes(s)[i'] == s[i'].index;
      assert j != p ==> t[j] == s[j'] && Indexes(s)[j'] == s[j'].index;
      if p < |s| { assert Indexes(s)[p] == s[p].index; }
    }
  }

  /** No call between `a` and `b`: nothing is closed and nothing is collected between them. */
  lemma {:induction false} NoCallsBetween(items: seq<Item>, a: nat, b: nat)
    requires a <= b <= |items|
    requires forall k :: a <= k < b ==> !items[k].CallItem?
    ensures CallDoneEvents(items, a) == CallDoneEvents(items, b)
    ensures CallsIn(items[..a]) == CallsIn(items[..b])
  {
    if a < b {
      NoCallsBetween(items, a, b - 1);
      assert items[..b][..b - 1] == items[..b - 1];
    }
  }

  ghost predicate MessageMatches(items: seq<Item>, message: Option<MessageBuilder>) {
    match message
    case None => forall k :: 0 <= k < |items| ==> !items[k].TextItem?
    case Some(m) => m.outputIndex < |items| && items[m.outputIndex] == MessageOf(m)
  }

  ghost predicate IsBuilderOf(b: ToolCallBuilder, items: seq<Item>, k: nat) {
    k == b.outputIndex && k < |items| && items[k] == CallOfBuilder(b)
  }

  ghost predicate HasBuilder(item: Item, calls: map<int, ToolCallBuilder>, k: nat) {
    item.CallItem? ==> item.streamIndex in calls && calls[item.streamIndex].outputIndex == k
  }

  ghost predicate CallsMatch(items: seq<Item>, calls: map<int, ToolCallBuilder>) {
    && (forall i :: i in calls ==> calls[i].streamIndex == i && IsBuilderOf(calls[i], items, calls[i].outputIndex))
    && (forall k :: 0 <= k < |items| ==> HasBuilder(items[k], calls, k))
  }

  /** The message builder and the call builders are exactly the items, each at its output index. */
  ghost predicate Matches(items: seq<Item>, next: nat, message: Option<MessageBuilder>, calls: map<int, ToolCallBuilder>) {
    next == |items| && WellShaped(items) && MessageMatches(items, message) && CallsMatch(items, calls)
  }

  lemma MatchesNewMessage(items: seq<Item>, next: nat, calls: map<int, ToolCallBuilder>, m: MessageBuilder)
    requires Matches(items, next, None, calls) && m.outputIndex == next
    ensures Matches(items + [MessageOf(m)], next + 1, Some(m), calls)
  {
    var all := items + [MessageOf(m)];
    forall i | i in calls ensures IsBuilderOf(calls[i], all, calls[i].outputIndex) {
      assert IsBuilderOf(calls[i], items, calls[i].outputIndex);
    }
    forall k | 0 <= k < |all| ensures HasBuilder(all[k], calls, k) {
      assert k < |items| ==> HasBuilder(items[k], calls, k);
    }
  }

  lemma MatchesMessage(items: seq<Item>, next: nat, m: MessageBuilder, calls: map<int, ToolCallBuilder>, text: string)
    requires Matches(items, next, Some(m), calls)
    ensures TextPosition(items) == m.outputIndex < |items| && items[m.outputIndex] == MessageOf(m)
    ensures Matches(items[m.outputIndex := MessageOf(m.(text := text))], next, Some(m.(text := text)), calls)
  {
    var all := items[m.outputIndex := MessageOf(m.(text := text))];
    ReplaceKeepsShape(items, m.outputIndex, MessageOf(m.(text := text)));
    forall i | i in calls ensures IsBuilderOf(calls[i], all, calls[i].outputIndex) {
      assert IsBuilderOf(calls[i], items, calls[i].outputIndex);
    }
    forall k | 0 <= k < |all| ensures HasBuilder(all[k], calls, k) {
      assert HasBuilder(items[k], calls, k);
    }
  }

  lemma NoCallWithoutBuilder(items: seq<Item>, calls: map<int, ToolCallBuilder>, i: int)
    requires CallsMatch(items, calls) && i !in calls
    ensures CallPosition(items, i) == |items|
  {
    var p := CallPosition(items, i);
    assert p == |items| || HasBuilder(items[p], calls, p);
  }

  lemma MatchesNewCall(items: seq<Item>, next: nat, message: Option<MessageBuilder>, calls: map<int, ToolCallBuilder>, b: ToolCallBuilder)
    requires Matches(items, next, message, calls) && b.streamIndex !in calls && b.outputIndex == next
    ensures CallPosition(items, b.streamIndex) == |items|
    ensures Matches(items + [CallOfBuilder(b)], next + 1, message, calls[b.streamIndex := b])
  {
    NoCallWithoutBuilder(items, calls, b.streamIndex);
    AppendCallKeepsShape(items, CallOfBuilder(b));
    hide WellShaped;
    var all, calls' := items + [CallOfBuilder(b)], calls[b.streamIndex := b];
    forall i | i in calls' ensures calls'[i].streamIndex == i && IsBuilderOf(calls'[i], all, calls'[i].outputIndex) {
      assert i in calls ==> IsBuilderOf(calls[i], items, calls[i].outputIndex);
    }
    forall k | 0 <= k < |all| ensures HasBuilder(all[k], calls', k) {
      assert k < |items| ==> HasBuilder(items[k], calls, k);
    }
  }

  /** What is known of a builder in the map. */
  lemma BuilderAt(items: seq<Item>, next: nat, message: Option<MessageBuilder>, calls: map<int, ToolCallBuilder>, i: int)
    requires Matches(items, next, message, calls) && i in calls
    ensures calls[i].streamIndex == i && IsBuilderOf(calls[i], items, calls[i].outputIndex)
    ensures CallPosition(items, i) == calls[i].outputIndex
  {
    var k := calls[i].outputIndex;
    assert IsBuilderOf(calls[i], items, k) && IsCall(items[k], i);
    var p := CallPosition(items, i);
    assert HasBuilder(items[p], calls, p);
  }

  lemma MatchesCall(items: seq<Item>, next: nat, message: Option<MessageBuilder>, calls: map<int, ToolCallBuilder>, b: ToolCallBuilder)
    requires Matches(items, next, message, calls) && b.streamIndex in calls && b.outputIndex == calls[b.streamIndex].outputIndex
    ensures b.outputIndex < |items|
    ensures Matches(items[b.outputIndex := CallOfBuilder(b)], next, message, calls[b.streamIndex := b])
  {
    BuilderAt(items, next, message, calls, b.streamIndex);
    ReplaceKeepsShape(items, b.outputIndex, CallOfBuilder(b));
    hide WellShaped;
    var all, calls' := items[b.outputIndex := CallOfBuilder(b)], calls[b.streamIndex := b];
    forall i | i in calls' ensures calls'[i].streamIndex == i && IsBuilderOf(calls'[i], all, calls'[i].outputIndex) {
      assert IsBuilderOf(calls[i], items, calls[i].outputIndex);
    }
    forall k | 0 <= k < |all| ensures HasBuilder(all[k], calls', k) {
      assert HasBuilder(items[k], calls, k);
    }
  }

  ghost predicate Includes(sorted: seq<ToolCallBuilder>, k: nat) {
    exists j :: 0 <= j < |sorted| && sorted[j].outputIndex == k
  }

  /** All builders, by ascending output index. */
  ghost predicate InOutputOrder(sorted: seq<ToolCallBuilder>, items: seq<Item>) {
    && (forall j :: 0 <= j < |sorted| ==> IsBuilderOf(sorted[j], items, sorted[j].outputIndex))
    && (forall i, j :: 0 <= i < j < |sorted| ==> sorted[i].outputIndex < sorted[j].outputIndex)
    && (forall k :: 0 <= k < |items| && items[k].CallItem? ==> Includes(sorted, k))
  }

  /** The position up to which the items are done when the first `j` builders are. */
  function DoneUpTo(sorted: seq<ToolCallBuilder>, j: nat): nat
    requires j <= |sorted|
  {
    if j == 0 then 0 else sorted[j - 1].outputIndex + 1
  }

  lemma NoCallInGap(items: seq<Item>, sorted: seq<ToolCallBuilder>, j: nat)
    requires InOutputOrder(sorted, items) && j <= |sorted|
    ensures var next := if j < |sorted| then sorted[j].outputIndex else |items|;
            && DoneUpTo(sorted, j) <= next <= |items|
            && forall k :: DoneUpTo(sorted, j) <= k < next ==> !items[k].CallItem?
  {
    assert j > 0 ==> IsBuilderOf(sorted[j - 1], items, sorted[j - 1].outputIndex);
    assert j < |sorted| ==> IsBuilderOf(sorted[j], items, sorted[j].outputIndex);
    var next := if j < |sorted| then sorted[j].outputIndex else |items|;
    forall k | DoneUpTo(sorted, j) <= k < next ensures !items[k].CallItem? {
      NotIncluded(sorted, j, k);
    }
  }

  lemma NotIncluded(sorted: seq<ToolCallBuilder>, j: nat, k: nat)
    requires forall a, b :: 0 <= a < b < |sorted| ==> sorted[a].outputIndex < sorted[b].outputIndex
    requires j <= |sorted| && DoneUpTo(sorted, j) <= k
    requires j < |sorted| ==> k < sorted[j].outputIndex
    ensures !Includes(sorted, k)
  {
    forall q | 0 <= q < |sorted| ensures sorted[q].outputIndex != k {
      assert q < j ==> q < j - 1 || q == j - 1;
      assert q >= j ==> q > j || q == j;
    }
  }

  lemma CollectOneMore(items: seq<Item>, b: ToolCallBuilder)
    requires IsBuilderOf(b, items, b.outputIndex)
    ensures CallsIn(items[..b.outputIndex + 1]) == CallsIn(items[..b.outputIndex]) + [ToolCall(b.id, b.name, b.arguments)]
  {
    assert items[..b.outputIndex + 1][..b.outputIndex] == items[..b.outputIndex];
  }

  lemma NextBuilder(items: seq<Item>, sorted: seq<ToolCallBuilder>, j: nat)
    requires InOutputOrder(sorted, items) && j < |sorted|
    ensures DoneUpTo(sorted, j) <= |items| && IsBuilderOf(sorted[j], items, sorted[j].outputIndex)
    ensures CallDoneEvents(items, DoneUpTo(sorted, j)) == CallDoneEvents(items, sorted[j].outputIndex)
  {
    NoCallInGap(items, sorted, j);
    assert IsBuilderOf(sorted[j], items, sorted[j].outputIndex);
    NoCallsBetween(items, DoneUpTo(sorted, j), sorted[j].outputIndex);
  }

  lemma LastBuilder(items: seq<Item>, sorted: seq<ToolCallBuilder>)
    requires InOutputOrder(sorted, items)
    ensures DoneUpTo(sorted, |sorted|) <= |items|
    ensures CallDoneEvents(items, DoneUpTo(sorted, |sorted|)) == CallDoneEvents(items, |items|)
  {
    NoCallInGap(items, sorted, |sorted|);
    NoCallsBetween(items, DoneUpTo(sorted, |sorted|), |items|);
  }

  lemma NextCollected(items: seq<Item>, sorted: seq<ToolCallBuilder>, j: nat)
    requires InOutputOrder(sorted, items) && j < |sorted|
    ensures DoneUpTo(sorted, j) <= |items| && sorted[j].outputIndex < |items|
    ensures CallsIn(items[..sorted[j].outputIndex + 1]) ==
            CallsIn(items[..DoneUpTo(sorted, j)]) + [ToolCall(sorted[j].id, sorted[j].name, sorted[j].arguments)]
  {
    NoCallInGap(items, sorted, j);
    assert IsBuilderOf(sorted[j], items, sorted[j].outputIndex);
    NoCallsBetween(items, DoneUpTo(sorted, j), sorted[j].outputIndex);
    CollectOneMore(items, sorted[j]);
  }

  lemma AllCollected(items: seq<Item>, sorted: seq<ToolCallBuilder>)
    requires InOutputOrder(sorted, items)
    ensures DoneUpTo(sorted, |sorted|) <= |items| && CallsIn(items[..DoneUpTo(sorted, |sorted|)]) == CallsIn(items)
  {
    NoCallInGap(items, sorted, |sorted|);
    NoCallsBetween(items, DoneUpTo(sorted, |sorted|), |items|);
    assert items[..|items|] == items;
  }

  /** The bytes written so far are this log, numbered from zero. */
  ghost predicate Carries(sent: seq<Event>, log: seq<EventBody>) {
    |sent| == |log| && forall k :: 0 <= k < |sent| ==> sent[k] == Event(k, log[k])
  }

  ghost predicate IsEntryOf(x: Indexed<OutputItem>, items: seq<Item>) {
    x.index < |items| && x.value == FinishedItem(items[x.index])
  }

  lemma BuildersInOrder(items: seq<Item>, inOrder: seq<Indexed<ToolCallBuilder>>, sorted: seq<ToolCallBuilder>,
                        calls: map<int, ToolCallBuilder>)
    requires CallsMatch(items, calls) && Ascending(Indexes(inOrder))
    requires forall x :: x in inOrder ==> IsBuilderOf(x.value, items, x.index)
    requires forall i :: i in calls ==> Indexed(calls[i].outputIndex, calls[i]) in inOrder
    requires |sorted| == |inOrder| && forall j :: 0 <= j < |sorted| ==> sorted[j] == inOrder[j].value
    ensures InOutputOrder(sorted, items)
  {
    var indexes := Indexes(inOrder);
    forall j | 0 <= j < |sorted| ensures IsBuilderOf(sorted[j], items, sorted[j].outputIndex) && indexes[j] == sorted[j].outputIndex {
      assert inOrder[j] in inOrder;
    }
    forall k | 0 <= k < |items| && items[k].CallItem? ensures Includes(sorted, k) {
      assert HasBuilder(items[k], calls, k);
      var b := calls[items[k].streamIndex];
      var j :| 0 <= j < |inOrder| && inOrder[j] == Indexed(b.outputIndex, b);
      assert sorted[j].outputIndex == k;
    }
  }

  lemma EntriesInOrder(items: seq<Item>, inOrder: seq<Indexed<OutputItem>>)
    requires Ascending(Indexes(inOrder))
    requires forall x :: x in inOrder ==> IsEntryOf(x, items)
    requires forall k :: 0 <= k < |items| ==> Indexed(k, FinishedItem(items[k])) in inOrder
    ensures |inOrder| == |items|
    ensures forall k :: 0 <= k < |items| ==> inOrder[k].value == FinishedItem(items[k])
  {
    var indexes, all := Indexes(inOrder), seq(|items|, k => k);
    forall k: nat ensures k in indexes <==> k in all {
      if k in indexes {
        var j :| 0 <= j < |indexes| && indexes[j] == k;
        assert inOrder[j] in inOrder;
        assert all[k] == k;
      }
      if k in all {
        var j :| 0 <= j < |inOrder| && inOrder[j] == Indexed(k, FinishedItem(items[k]));
        assert indexes[j] == k;
      }
    }
    AscendingIsUnique(indexes, all);
    forall k | 0 <= k < |items| ensures inOrder[k].value == FinishedItem(items[k]) {
      assert inOrder[k] in inOrder && indexes[k] == all[k];
    }
  }

  /** The builders as a Go map iteration yields them: in any order. */
  method GatherBuilders(builders: map<int, ToolCallBuilder>, ghost items: seq<Item>)
    returns (found: seq<Indexed<ToolCallBuilder>>)
    requires CallsMatch(items, builders)
    ensures forall x :: x in found ==> IsBuilderOf(x.value, items, x.index)
    ensures forall i :: i in builders ==> Indexed(builders[i].outputIndex, builders[i]) in found
    ensures forall a, b :: 0 <= a < b < |found| ==> found[a].index != found[b].index
  {
    found := [];
    var pending := builders.Keys;
    while |pending| > 0
      invariant pending <= builders.Keys
      invariant forall x :: x in found ==> IsBuilderOf(x.value, items, x.index) && x.value.streamIndex !in pending
      invariant forall i :: i in builders && i !in pending ==> Indexed(builders[i].outputIndex, builders[i]) in found
      invariant forall a, b :: 0 <= a < b < |found| ==> found[a].index != found[b].index
      decreases |pending|
    {
      var i := AnyKey(pending);
      var b := builders[i];
      assert IsBuilderOf(b, items, b.outputIndex);
      forall x | x in found ensures x.index != b.outputIndex {
        assert IsBuilderOf(x.value, items, x.index);
      }
      found := found + [Indexed(b.outputIndex, b)];
      pending := pending - {i};
    }
  }

  /** The builders in output order, whatever order the map is iterated in. */
  method SortedToolCallBuilders(builders: map<int, ToolCallBuilder>, ghost items: seq<Item>)
    returns (sorted: seq<ToolCallBuilder>)
    requires CallsMatch(items, builders)
    ensures InOutputOrder(sorted, items)
  {
    var found := GatherBuilders(builders, items);
    var inOrder := SortByIndex(found);
    sorted := seq(|inOrder|, k requires 0 <= k < |inOrder| => inOrder[k].value);
    BuildersInOrder(items, inOrder, sorted, builders);
  }

  method CollectToolCalls(builders: map<int, ToolCallBuilder>, ghost items: seq<Item>) returns (calls: seq<ToolCall>)
    requires CallsMatch(items, builders)
    ensures calls == CallsIn(items)
  {
    var sorted := SortedToolCallBuilders(builders, items);
    calls := [];
    hide InOutputOrder;
    for j := 0 to |sorted|
      invariant DoneUpTo(sorted, j) <= |items| && calls == CallsIn(items[..DoneUpTo(sorted, j)])
    {
      NextCollected(items, sorted, j);
      calls := calls + [ToolCall(sorted[j].id, sorted[j].name, sorted[j].arguments)];
    }
    AllCollected(items, sorted);
  }

  /** The entries of the calls, gathered in map order. */
  method GatherCallEntries(builders: map<int, ToolCallBuilder>, start: seq<Indexed<OutputItem>>, ghost items: seq<Item>)
    returns (found: seq<Indexed<OutputItem>>)
    requires CallsMatch(items, builders)
    requires forall x :: x in start ==> IsEntryOf(x, items) && items[x.index].TextItem?
    requires |start| <= 1
    ensures forall x :: x in found ==> IsEntryOf(x, items)
    ensures forall x :: x in start ==> x in found
    ensures forall k :: 0 <= k < |items| && items[k].CallItem? ==> Indexed(k, FinishedItem(items[k])) in found
    ensures forall a, b :: 0 <= a < b < |found| ==> found[a].index != found[b].index
  {
    found := start;
    var pending := builders.Keys;
    while |pending| > 0
      invariant pending <= builders.Keys
      invariant forall x :: x in found ==>
                  IsEntryOf(x, items) && (items[x.index].CallItem? ==> items[x.index].streamIndex !in pending)
      invariant forall x :: x in start ==> x in found
      invariant forall i :: i in builders && i !in pending ==>
                  Indexed(builders[i].outputIndex, FinishedItem(items[builders[i].outputIndex])) in found
      invariant forall a, b :: 0 <= a < b < |found| ==> found[a].index != found[b].index
      decreases |pending|
    {
      var i := AnyKey(pending);
      var b := builders[i];
      assert IsBuilderOf(b, items, b.outputIndex);
      found := found + [Indexed(b.outputIndex, FunctionCallItem(b.itemId, Complete, b.id, b.name, b.arguments))];
      pending := pending - {i};
    }
    forall k | 0 <= k < |items| && items[k].CallItem? ensures Indexed(k, FinishedItem(items[k])) in found {
      assert HasBuilder(items[k], builders, k);
    }
  }

  /** The output list of the completed response: message and calls gathered, then sorted by index. */
  method BuildOrderedStreamOutput(message: Option<MessageBuilder>, builders: map<int, ToolCallBuilder>, ghost items: seq<Item>)
    returns (output: seq<OutputItem>)
    requires WellShaped(items) && MessageMatches(items, message) && CallsMatch(items, builders)
    ensures output == OutputOf(items)
  {
    var found: seq<Indexed<OutputItem>> := [];
    if message.Some? {
      var m := message.value;
      found := [Indexed(m.outputIndex, MessageItem(m.itemId, Complete, [ContentPart("output_text", m.text)]))];
    }
    ghost var first := found;
    found := GatherCallEntries(builders, found, items);
    var inOrder := SortByIndex(found);
    forall k | 0 <= k < |items| ensures Indexed(k, FinishedItem(items[k])) in inOrder {
      if items[k].TextItem? {
        assert first[0] == Indexed(k, FinishedItem(items[k]));
      }
    }
    EntriesInOrder(items, inOrder);
    output := seq(|inOrder|, k requires 0 <= k < |inOrder| => inOrder[k].value);
  }

  /** What a completed stream leaves in the store: nothing for an empty result. */
  method StoreStreamed(request: Request, provider: string, result: ProviderResult, outputs: seq<OutputItem>,
                       storeMsgs: seq<Message>, storeByDefault: bool) returns (stored: Option<Conversation>)
    ensures stored == if ShouldStore(request, storeByDefault) && !IsEmptyResult(result)
                      then Some(StoredConversation(provider, request, result, outputs, storeMsgs)) else None
  {
    stored := None;
    if ShouldStore(request, storeByDefault) && (result.text != "" || |result.toolCalls| > 0) {
      var assistant := AssistantMessage(result);
      var messages := storeMsgs + [assistant.value];
      var replay := BuildReplayState(provider, result, outputs, |messages| - 1);
      stored := Some(Conversation(result.model, messages, request, replay));
    }
  }

  class ResponseStream {
    const request: Request
    var nextId: Id
    var seqNo: nat
    var nextOutputIdx: nat
    var assistantMsg: Option<MessageBuilder>
    var toolCallsInProgress: map<int, ToolCallBuilder>
    var streamRespErr: Option<ResponseError>
    var providerModel: string
    var providerResultID: string
    var streamUsage: Option<Usage>
    var replayMessage: Option<Message>
    var sent: seq<Event>
    ghost var spec: Stream

    ghost predicate Valid()
      reads this
    {
      && Logged()
      && Matches(spec.items, nextOutputIdx, assistantMsg, toolCallsInProgress)
      && FieldsValid()
    }

    ghost predicate Logged()
      reads this
    {
      seqNo == |sent| && Carries(sent, spec.log)
    }

    ghost predicate FieldsValid()
      reads this
    {
      && spec.nextId == nextId && spec.rejection == streamRespErr
      && spec.model == providerModel && spec.resultId == providerResultID
      && spec.usage == streamUsage && spec.replay == replayMessage
    }

    constructor (request: Request, firstId: Id)
      ensures Valid() && this.request == request && spec == Initial(firstId)
    {
      this.request := request;
      nextId := firstId;
      seqNo, nextOutputIdx := 1, 0;
      assistantMsg, toolCallsInProgress := None, map[];
      streamRespErr, providerModel, providerResultID := None, "", "";
      streamUsage, replayMessage := None, None;
      sent := [Event(0, InProgress)];
      spec := Initial(firstId);
    }

    method SendSSE(body: EventBody)
      requires seqNo == |sent|
      modifies this`seqNo, this`sent
      ensures seqNo == |sent| && sent == old(sent) + [Event(old(seqNo), body)]
    {
      var n := seqNo;
      seqNo := seqNo + 1;
      sent := sent + [Event(n, body)];
    }

    method Emit(body: EventBody)
      requires Logged()
      modifies this`seqNo, this`sent, this`spec
      ensures Logged() && spec == old(spec).(log := old(spec).log + [body])
    {
      SendSSE(body);
      spec := spec.(log := spec.log + [body]);
    }

    method GenerateID() returns (id: Id)
      modifies this`nextId
      ensures id == old(nextId) && nextId == id + 1
    {
      id := nextId;
      nextId := nextId + 1;
    }

    method EnsureMessageStarted()
      requires Valid()
      modifies this
      ensures Valid() && assistantMsg.Some?
      ensures assistantMsg.value.outputIndex == TextPosition(old(spec).items)
      ensures spec == if TextPosition(old(spec).items) < |old(spec).items| then old(spec) else OpenText(old(spec))
    {
      if assistantMsg.Some? {
        MatchesMessage(spec.items, nextOutputIdx, assistantMsg.value, toolCallsInProgress, "");
        return;
      }
      var m := AddMessage();
      hide Valid;
      Emit(ItemAdded(m.outputIndex, MessageItem(m.itemId, Running, [])));
      Emit(PartAdded(m.itemId, m.outputIndex, ContentPart("output_text", "")));
    }

    method AddMessage() returns (m: MessageBuilder)
      requires Valid() && assistantMsg.None?
      modifies this`nextId, this`nextOutputIdx, this`assistantMsg, this`spec
      ensures Valid() && assistantMsg == Some(m)
      ensures m == MessageBuilder(old(spec).nextId, |old(spec).items|, "") && TextPosition(old(spec).items) == |old(spec).items|
      ensures spec == old(spec).(items := old(spec).items + [MessageOf(m)], nextId := old(spec).nextId + 1)
    {
      var id := GenerateID();
      m := MessageBuilder(id, nextOutputIdx, "");
      MatchesNewMessage(spec.items, nextOutputIdx, toolCallsInProgress, m);
      hide MessageMatches, CallsMatch, WellShaped, Logged;
      assistantMsg := Some(m);
      nextOutputIdx := nextOutputIdx + 1;
      spec := spec.(items := spec.items + [MessageOf(m)], nextId := id + 1);
    }

    method HandleText(text: string)
      requires Valid()
      modifies this
      ensures Valid()
      ensures spec == ApplyText(old(spec), text)
      ensures spec.stopped == old(spec).stopped && spec.usage == old(spec).usage && spec.replay == old(spec).replay
    {
      if text == "" {
        return;
      }
      EnsureMessageStarted();
      var m := assistantMsg.value;
      AppendText(text);
      hide Valid;
      Emit(TextDelta(m.itemId, m.outputIndex, text));
    }

    method AppendText(text: string)
      requires Valid() && assistantMsg.Some?
      modifies this`assistantMsg, this`spec
      ensures Valid()
      ensures var m := old(assistantMsg).value;
              && m.outputIndex < |old(spec).items| && old(spec).items[m.outputIndex] == MessageOf(m)
              && spec == old(spec).(items := old(spec).items[m.outputIndex := MessageOf(m.(text := m.text + text))])
    {
      var m := assistantMsg.value;
      MatchesMessage(spec.items, nextOutputIdx, m, toolCallsInProgress, m.text + text);
      hide Matches, Logged;
      assistantMsg := Some(m.(text := m.text + text));
      spec := spec.(items := spec.items[m.outputIndex := MessageOf(m.(text := m.text + text))]);
    }

    method AddBuilder(tc: ToolCallDelta) returns (b: ToolCallBuilder)
      requires Valid() && tc.index !in toolCallsInProgress
      modifies this`nextId, this`nextOutputIdx, this`toolCallsInProgress, this`spec
      ensures Valid() && tc.index in toolCallsInProgress && toolCallsInProgress[tc.index] == b
      ensures b == ToolCallBuilder(tc.index, |old(spec).items|, old(spec).nextId, tc.id, tc.name, "")
      ensures CallPosition(old(spec).items, tc.index) == |old(spec).items|
      ensures spec == old(spec).(items := old(spec).items + [CallOfBuilder(b)], nextId := old(spec).nextId + 1)
    {
      var id := GenerateID();
      b := ToolCallBuilder(tc.index, nextOutputIdx, id, tc.id, tc.name, "");
      MatchesNewCall(spec.items, nextOutputIdx, assistantMsg, toolCallsInProgress, b);
      hide MessageMatches, CallsMatch, WellShaped, Logged;
      nextOutputIdx := nextOutputIdx + 1;
      toolCallsInProgress := toolCallsInProgress[tc.index := b];
      spec := spec.(items := spec.items + [CallOfBuilder(b)], nextId := id + 1);
    }

    /** The first delta of a call. */
    method StartToolCall(tc: ToolCallDelta) returns (stop: bool)
      requires Valid() && !spec.stopped && tc.index !in toolCallsInProgress
      modifies this
      ensures Valid() && stop == spec.stopped && tc.index in toolCallsInProgress
      ensures toolCallsInProgress[tc.index].outputIndex == |old(spec).items| == CallPosition(old(spec).items, tc.index)
      ensures spec == OpenCall(PolicyOf(request), old(spec), tc)
    {
      var b := AddBuilder(tc);
      hide ValidateToolCallName, Matches;
      var err := ValidateToolCallName(PolicyOf(request), b.name);
      if err.Some? {
        RecordRejection(err.value);
        return true;
      }
      Emit(ItemAdded(b.outputIndex, FunctionCallItem(b.itemId, Running, b.id, b.name, "")));
      return false;
    }

    /** Writes a builder that is already in the map back to it. */
    method StoreBuilder(b: ToolCallBuilder)
      requires Valid() && b.streamIndex in toolCallsInProgress
      requires b.outputIndex == toolCallsInProgress[b.streamIndex].outputIndex
      modifies this`toolCallsInProgress, this`spec
      ensures Valid() && toolCallsInProgress == old(toolCallsInProgress)[b.streamIndex := b]
      ensures b.outputIndex < |old(spec).items|
      ensures spec == old(spec).(items := old(spec).items[b.outputIndex := CallOfBuilder(b)])
    {
      MatchesCall(spec.items, nextOutputIdx, assistantMsg, toolCallsInProgress, b);
      hide Matches, Carries;
      toolCallsInProgress := toolCallsInProgress[b.streamIndex := b];
      spec := spec.(items := spec.items[b.outputIndex := CallOfBuilder(b)]);
    }

    method RecordRejection(error: ResponseError)
      requires Valid()
      modifies this`streamRespErr, this`spec
      ensures Valid() && spec == Reject(old(spec), Some(error))
    {
      hide Matches;
      streamRespErr := Some(error);
      spec := Reject(spec, Some(error));
    }

    /** Late id, late name and argument pieces of a call that is already in the map. */
    method ContinueToolCall(tc: ToolCallDelta) returns (stop: bool)
      requires Valid() && !spec.stopped && tc.index in toolCallsInProgress
      modifies this
      ensures Valid() && stop == spec.stopped
      ensures spec == ExtendCall(PolicyOf(request), old(spec), old(toolCallsInProgress[tc.index].outputIndex), tc)
    {
      BuilderAt(spec.items, nextOutputIdx, assistantMsg, toolCallsInProgress, tc.index);
      hide Matches, Carries, ValidateToolCallName;
      var b := toolCallsInProgress[tc.index];
      if b.id == "" && tc.id != "" {
        b := b.(id := tc.id);
      }
      var named := tc.name != "" && b.name == "";
      if named {
        b := b.(name := tc.name);
      }
      StoreBuilder(b);
      if named {
        var err := ValidateToolCallName(PolicyOf(request), b.name);
        if err.Some? {
          RecordRejection(err.value);
          return true;
        }
      }
      if tc.arguments != "" {
        b := b.(arguments := b.arguments + tc.arguments);
        StoreBuilder(b);
        Emit(ArgumentsDelta(b.itemId, b.outputIndex, tc.arguments));
      }
      return false;
    }

    method HandleToolCall(tc: ToolCallDelta) returns (stop: bool)
      requires Valid() && !spec.stopped
      modifies this
      ensures Valid() && stop == spec.stopped
      ensures spec == ApplyCall(PolicyOf(request), old(spec), tc)
    {
      if tc.index !in toolCallsInProgress {
        stop := StartToolCall(tc);
        if stop {
          return;
        }
      } else {
        BuilderAt(spec.items, nextOutputIdx, assistantMsg, toolCallsInProgress, tc.index);
      }
      stop := ContinueToolCall(tc);
    }

    method HandleHead(d: Delta)
      requires Valid()
      modifies this
      ensures Valid() && spec == ApplyHead(old(spec), d) && spec.stopped == old(spec).stopped
    {
      hide Matches, Carries;
      if d.model != "" && providerModel == "" {
        providerModel := d.model;
      }
      if d.id != "" && providerResultID == "" {
        providerResultID := d.id;
      }
      spec := spec.(model := providerModel, resultId := providerResultID);
      HandleText(d.text);
    }

    method HandleTail(d: Delta)
      requires Valid()
      modifies this`streamUsage, this`replayMessage, this`spec
      ensures Valid() && spec == ApplyTail(old(spec), d)
    {
      hide Matches, Carries;
      if d.usage.Some? {
        streamUsage := d.usage;
      }
      if d.replay.Some? {
        replayMessage := d.replay;
      }
      spec := ApplyTail(spec, d);
    }

    /** One delta from the channel; the result says whether the loop is left. */
    method HandleDelta(d: Delta) returns (stop: bool)
      requires Valid() && !spec.stopped
      modifies this
      ensures Valid() && stop == spec.stopped
      ensures spec == Apply(PolicyOf(request), old(spec), d)
    {
      hide Matches, Carries, ApplyHead, ApplyCall;
      HandleHead(d);
      if d.tool.Some? {
        stop := HandleToolCall(d.tool.value);
        if stop {
          return;
        }
      }
      HandleTail(d);
      return d.done;
    }

    /** The receive loop over the deltas that the provider hands over, in order.  The select sees the
        cancelled request, if it does, after `patience` deltas. */
    method ReceiveLoop(deltas: seq<Delta>, patience: nat, ghost firstId: Id) returns (left: bool, gone: bool)
      requires Valid() && spec == Initial(firstId)
      modifies this
      ensures Valid() && left == spec.stopped
      ensures gone <==> patience <= |deltas| && !Fold(PolicyOf(request), firstId, deltas[..patience]).stopped
      ensures spec == Fold(PolicyOf(request), firstId, if gone then deltas[..patience] else deltas)
    {
      var i := 0;
      left, gone := false, false;
      while i < |deltas| && !left
        invariant 0 <= i <= |deltas| && i <= patience && Valid() && left == spec.stopped && !gone
        invariant spec == Fold(PolicyOf(request), firstId, deltas[..i])
      {
        if i == patience {
          return false, true;
        }
        assert deltas[..i + 1][..i] == deltas[..i];
        left := HandleDelta(deltas[i]);
        i := i + 1;
      }
      if left {
        FoldStopped(PolicyOf(request), firstId, deltas, i);
        if patience <= |deltas| {
          assert deltas[..patience][..i] == deltas[..i];
          FoldStopped(PolicyOf(request), firstId, deltas[..patience], i);
        }
      } else {
        gone := i == patience;
      }
      assert i == |deltas| ==> deltas[..i] == deltas;
    }

    method SendMessageDone()
      requires Logged() && WellShaped(spec.items) && MessageMatches(spec.items, assistantMsg)
      modifies this`seqNo, this`sent, this`spec
      ensures Logged() && spec == old(spec).(log := old(spec).log + TextDoneEvents(old(spec).items))
    {
      if assistantMsg.Some? {
        var m := assistantMsg.value;
        assert TextPosition(spec.items) == m.outputIndex;
        hide Logged;
        Emit(TextDone(m.itemId, m.outputIndex, m.text));
        var part := ContentPart("output_text", m.text);
        Emit(PartDone(m.itemId, m.outputIndex, part));
        Emit(ItemDone(m.outputIndex, MessageItem(m.itemId, Complete, [part])));
        assert spec.log == old(spec).log + TextDoneEvents(spec.items);
      }
    }

    /** Closes one call, when everything before it is closed already. */
    method SendCallDone(b: ToolCallBuilder, ghost before: seq<EventBody>)
      requires Logged() && IsBuilderOf(b, spec.items, b.outputIndex)
      requires spec.log == before + CallDoneEvents(spec.items, b.outputIndex)
      modifies this`seqNo, this`sent, this`spec
      ensures Logged()
      ensures spec == old(spec).(log := before + CallDoneEvents(old(spec).items, b.outputIndex + 1))
    {
      hide Logged;
      Emit(ArgumentsDone(b.itemId, b.outputIndex, b.arguments));
      Emit(ItemDone(b.outputIndex, FunctionCallItem(b.itemId, Complete, b.id, b.name, b.arguments)));
      assert spec.log == before + (CallDoneEvents(spec.items, b.outputIndex) + CallDone(b.outputIndex, spec.items[b.outputIndex]));
    }

    method SendNextCallDone(sorted: seq<ToolCallBuilder>, j: nat, ghost before: seq<EventBody>)
      requires Logged() && InOutputOrder(sorted, spec.items) && j < |sorted| && DoneUpTo(sorted, j) <= |spec.items|
      requires spec.log == before + CallDoneEvents(spec.items, DoneUpTo(sorted, j))
      modifies this`seqNo, this`sent, this`spec
      ensures Logged() && DoneUpTo(sorted, j + 1) <= |old(spec).items|
      ensures spec == old(spec).(log := before + CallDoneEvents(old(spec).items, DoneUpTo(sorted, j + 1)))
    {
      NextBuilder(spec.items, sorted, j);
      hide Logged, InOutputOrder, CallDoneEvents;
      SendCallDone(sorted[j], before);
    }

    method SendCallsDone()
      requires Logged() && CallsMatch(spec.items, toolCallsInProgress)
      modifies this`seqNo, this`sent, this`spec
      ensures Logged()
      ensures spec == old(spec).(log := old(spec).log + CallDoneEvents(old(spec).items, |old(spec).items|))
    {
      var sorted := SortedToolCallBuilders(toolCallsInProgress, spec.items);
      ghost var start := spec;
      assert start.log + CallDoneEvents(start.items, 0) == start.log && DoneUpTo(sorted, 0) == 0;
      hide Logged, InOutputOrder, CallsIn, CallsMatch, CallDoneEvents, DoneUpTo;
      for j := 0 to |sorted|
        invariant Logged() && DoneUpTo(sorted, j) <= |start.items|
        invariant spec == start.(log := start.log + CallDoneEvents(start.items, DoneUpTo(sorted, j)))
      {
        SendNextCallDone(sorted, j, start.log);
      }
      LastBuilder(start.items, sorted);
    }

    /** The verdict after the loop: a refused call, else the channel's error, else the final check. */
    method Conclude(left: bool, e: Ending)
      requires Valid() && left == spec.stopped
      modifies this`streamRespErr, this`spec
      ensures Valid() && streamRespErr == FinalError(PolicyOf(request), old(spec), e)
      ensures spec == old(spec).(rejection := streamRespErr)
    {
      if !left && streamRespErr.None? {
        match e {
          case Ended =>
          case Broke(message) => streamRespErr := Some(ProviderFailed(message));
          case BreakerOpen => streamRespErr := Some(ProviderUnavailable);
        }
      }
      spec := spec.(rejection := streamRespErr);
      var toolCalls := CollectToolCalls(toolCallsInProgress, spec.items);
      if streamRespErr.None? {
        streamRespErr := ValidateToolCalls(PolicyOf(request), toolCalls);
      }
      spec := spec.(rejection := streamRespErr);
    }

    method FinalResult() returns (result: ProviderResult)
      requires Valid()
      ensures result == ResultOf(spec, request.model)
    {
      var model := request.model;
      if providerModel != "" {
        model := providerModel;
      }
      var toolCalls := CollectToolCalls(toolCallsInProgress, spec.items);
      result := ProviderResult(providerResultID, model, "", EMPTY_USAGE, toolCalls, replayMessage);
      if assistantMsg.Some? {
        MatchesMessage(spec.items, nextOutputIdx, assistantMsg.value, toolCallsInProgress, "");
        result := result.(text := assistantMsg.value.text);
      }
      if streamUsage.Some? {
        result := result.(usage := streamUsage.value);
      }
    }

    /** The closing events of a run that is not refused. */
    method SendCompleted() returns (result: ProviderResult, response: Response)
      requires Valid()
      modifies this`seqNo, this`sent, this`spec
      ensures Valid()
      ensures result == ResultOf(old(spec), request.model) && response == CompletedResponse(old(spec), request.model)
      ensures spec.log == old(spec).log + (TextDoneEvents(old(spec).items) +
                CallDoneEvents(old(spec).items, |old(spec).items|) + [Completed(response)])
    {
      hide Logged, TextDoneEvents, CallDoneEvents, OutputOf, TextIn, CallsIn, WellShaped, MessageMatches, CallsMatch;
      SendMessageDone();
      SendCallsDone();
      result := FinalResult();
      var outputs := BuildOrderedStreamOutput(assistantMsg, toolCallsInProgress, spec.items);
      response := Response(if result.model != "" then result.model else request.model, outputs, result.usage);
      Emit(Completed(response));
    }

    /** Everything after the loop: the final verdict, the closing events, and what is stored. */
    method Finish(left: bool, e: Ending, provider: string, storeMsgs: seq<Message>, storeByDefault: bool)
      returns (outcome: Outcome)
      requires Valid() && left == spec.stopped
      modifies this
      ensures Valid()
      ensures spec.log == old(spec).log + ClosingEvents(PolicyOf(request), old(spec), e, request.model)
      ensures outcome == OutcomeOf(request, provider, old(spec), e, storeMsgs, storeByDefault)
    {
      Conclude(left, e);
      if streamRespErr.Some? {
        Emit(Failed(streamRespErr.value));
        return Refused(streamRespErr.value);
      }
      var result, response := SendCompleted();
      var stored := StoreStreamed(request, provider, result, response.output, storeMsgs, storeByDefault);
      return Answered(response, stored);
    }
  }

  /** One whole streamed turn.  A run that the client does not cut sends the specified trace, numbered from
      zero, and has the specified outcome; one that it cuts has sent the log of the deltas until then,
      and answers and stores nothing. */
  method HandleStreamingResponse(request: Request, provider: string, deltas: seq<Delta>, e: Ending, patience: nat,
                                 storeMsgs: seq<Message>, firstId: Id, storeByDefault: bool)
    returns (sent: seq<Event>, outcome: Option<Outcome>)
    ensures Numbered(sent)
    ensures outcome.None? <==> patience <= |deltas| && !Fold(PolicyOf(request), firstId, deltas[..patience]).stopped
    ensures outcome.None? ==> Bodies(sent) == Fold(PolicyOf(request), firstId, deltas[..patience]).log
    ensures outcome.Some? ==> Bodies(sent) == Trace(PolicyOf(request), firstId, deltas, e, request.model)
    ensures outcome.Some? ==>
              outcome.value == StreamOutcome(request, provider, deltas, e, storeMsgs, firstId, storeByDefault)
  {
    var stream := new ResponseStream(request, firstId);
    var left, gone := stream.ReceiveLoop(deltas, patience, firstId);
    outcome := None;
    if !gone {
      var answer := stream.Finish(left, e, provider, storeMsgs, storeByDefault);
      outcome := Some(answer);
    }
    sent := stream.sent;
    assert Bodies(sent) == stream.spec.log;
  }
}

/** What normalisation keeps of the input, said from the items' own fields (internal/api/types.go:148-234):
    every content block, every tool call, every message of its own with its role and ids, every
    reference, all in order. */
module InputKept {
  import opened Api
  import opened NormalizeInput

  /** Summaries that say something, as assistant text. */
  function Spoken(summaries: seq<string>): seq<ContentBlock> {
    if summaries == [] then []
    else if summaries[0] == "" then Spoken(summaries[1..])
    else [ContentBlock("output_text", summaries[0], "", "", "")] + Spoken(summaries[1..])
  }

  /** The content of one item: a message's, a tool output's, or reasoning with its summaries and its
      encrypted blob. */
  function ContentOf(item: InputItem): seq<ContentBlock> {
    match item
    case MessageInput(_, content, _) => content
    case Reasoning(content, summaries, encrypted) =>
      content + Spoken(summaries) + if encrypted == "" then [] else [ContentBlock("encrypted_reasoning", "", "", "", encrypted)]
    case FunctionCallOutput(_, _, content) => content
    case _ => []
  }

  function StatedContent(items: seq<InputItem>): seq<ContentBlock> {
    if items == [] then [] else ContentOf(items[0]) + StatedContent(items[1..])
  }

  function AllContent(msgs: seq<Message>): seq<ContentBlock> {
    if msgs == [] then [] else msgs[0].content + AllContent(msgs[1..])
  }

  /** A message of tool calls and nothing else, which a following function call joins. */
  predicate OnlyCalls(m: Message) {
    m.role == "assistant" && m.content == [] && m.toolCalls != []
  }

  /** The message that an item makes on its own, unless it makes none or one of tool calls only. */
  function OwnMessage(item: InputItem): seq<Message> {
    match item
    case MessageInput(role, content, toolCalls) =>
      if role == "assistant" && content == [] && toolCalls != [] then [] else [Message(role, content, "", "", toolCalls)]
    case Reasoning(_, _, _) => if ContentOf(item) == [] then [] else [Message("assistant", ContentOf(item), "", "", [])]
    case FunctionCallOutput(callId, name, content) => [Message("tool", content, callId, name, [])]
    case _ => []
  }

  function OwnMessages(items: seq<InputItem>): seq<Message> {
    if items == [] then [] else OwnMessage(items[0]) + OwnMessages(items[1..])
  }

  function WithoutCallRuns(msgs: seq<Message>): seq<Message> {
    if msgs == [] then []
    else (if OnlyCalls(msgs[0]) then [] else [msgs[0]]) + WithoutCallRuns(msgs[1..])
  }

  /** The tool calls of one item. */
  function CallsOfItem(item: InputItem): seq<ToolCall> {
    match item
    case FunctionCall(callId, name, arguments) => [ToolCall(callId, name, arguments)]
    case MessageInput(_, _, toolCalls) => toolCalls
    case _ => []
  }

  function CallsOfItems(items: seq<InputItem>): seq<ToolCall> {
    if items == [] then [] else CallsOfItem(items[0]) + CallsOfItems(items[1..])
  }

  lemma {:induction false} SpokenAppend(a: seq<string>, s: string)
    ensures Spoken(a + [s]) == Spoken(a) + if s == "" then [] else [ContentBlock("output_text", s, "", "", "")]
  {
    if a != [] {
      assert (a + [s])[1..] == a[1..] + [s];
      SpokenAppend(a[1..], s);
    }
  }

  lemma {:induction false} SummariesAreSpoken(summaries: seq<string>)
    ensures SummaryBlocks(summaries) == Spoken(summaries)
  {
    if summaries != [] {
      var n := |summaries| - 1;
      SummariesAreSpoken(summaries[..n]);
      SpokenAppend(summaries[..n], summaries[n]);
      assert summaries == summaries[..n] + [summaries[n]];
    }
  }

  /** What the code makes of one item, in these terms. */
  lemma ItemIsKept(item: InputItem)
    ensures item.FunctionCall? ==> CallsOfItem(item) == [CallOf(item)] && OwnMessage(item) == [] && ContentOf(item) == []
    ensures IsSilent(item) ==> CallsOfItem(item) == [] && OwnMessage(item) == [] && ContentOf(item) == []
    ensures !item.FunctionCall? && !IsSilent(item) ==>
              var m := MessageOf(item);
              && m.content == ContentOf(item) && m.toolCalls == CallsOfItem(item)
              && OwnMessage(item) == (if OnlyCalls(m) then [] else [m])
              && (IsOpen(m) <==> OnlyCalls(m)) && (IsOpen(m) ==> m.callId == "" && m.name == "")
  {
    if item.Reasoning? {
      SummariesAreSpoken(item.summaries);
      assert ReasoningContent(item) == ContentOf(item);
    }
  }

  /** A call, or an item that makes nothing, at the head of a run. */
  lemma HeadOfRun(items: seq<InputItem>)
    requires items != [] && (items[0].FunctionCall? || IsSilent(items[0]))
    ensures var own, rest := CallsOfItem(items[0]), items[1..];
            && LeadingCalls(items) == own + LeadingCalls(rest) && AfterLeadingCalls(items) == AfterLeadingCalls(rest)
            && CallsOfItems(items) == own + CallsOfItems(rest)
            && OwnMessages(items) == OwnMessages(rest) && StatedContent(items) == StatedContent(rest)
  {
    ItemIsKept(items[0]);
    hide IsSilent, ContentOf, OwnMessage, CallsOfItem;
    var rest := items[1..];
    assert [] + OwnMessages(rest) == OwnMessages(rest) && [] + StatedContent(rest) == StatedContent(rest);
    assert [] + LeadingCalls(rest) == LeadingCalls(rest) && [] + CallsOfItems(rest) == CallsOfItems(rest);
  }

  lemma Associative<T>(a: seq<T>, b: seq<T>, c: seq<T>)
    ensures a + (b + c) == a + b + c
  {
  }

  lemma {:induction false} LeadingCallsAreKept(items: seq<InputItem>)
    ensures CallsOfItems(items) == LeadingCalls(items) + CallsOfItems(AfterLeadingCalls(items))
    ensures OwnMessages(items) == OwnMessages(AfterLeadingCalls(items))
    ensures StatedContent(items) == StatedContent(AfterLeadingCalls(items))
  {
    if items != [] && (items[0].FunctionCall? || IsSilent(items[0])) {
      var rest := items[1..];
      HeadOfRun(items);
      LeadingCallsAreKept(rest);
      hide IsSilent, ContentOf, OwnMessage, CallsOfItem, CallsOfItems, LeadingCalls, AfterLeadingCalls, OwnMessages, StatedContent;
      Associative(CallsOfItem(items[0]), LeadingCalls(rest), CallsOfItems(AfterLeadingCalls(rest)));
    } else {
      assert LeadingCalls(items) == [] && AfterLeadingCalls(items) == items;
      hide CallsOfItems, OwnMessages, StatedContent;
      assert [] + CallsOfItems(items) == CallsOfItems(items);
    }
  }

  lemma FirstMessage(m: Message, msgs: seq<Message>)
    ensures AllContent([m] + msgs) == m.content + AllContent(msgs)
    ensures AllCalls([m] + msgs) == m.toolCalls + AllCalls(msgs)
    ensures WithoutCallRuns([m] + msgs) == (if OnlyCalls(m) then [] else [m]) + WithoutCallRuns(msgs)
  {
    assert ([m] + msgs)[1..] == msgs;
  }

  /** What a message list holds is what these items state. */
  ghost predicate Keeps(msgs: seq<Message>, items: seq<InputItem>) {
    && AllContent(msgs) == StatedContent(items)
    && AllCalls(msgs) == CallsOfItems(items)
    && WithoutCallRuns(msgs) == OwnMessages(items)
    && forall k :: 0 <= k < |msgs| && OnlyCalls(msgs[k]) ==> msgs[k].callId == "" && msgs[k].name == ""
  }

  lemma JoinedIsKept(item: InputItem, calls: seq<ToolCall>)
    requires item.FunctionCall? || (!IsSilent(item) && IsOpen(MessageOf(item)))
    ensures var joined := Join(if item.FunctionCall? then CallsMessage([CallOf(item)]) else MessageOf(item), calls);
            && OnlyCalls(joined) && joined.callId == "" && joined.name == ""
            && joined.toolCalls == CallsOfItem(item) + calls
    ensures ContentOf(item) == [] && OwnMessage(item) == []
  {
    ItemIsKept(item);
  }

  lemma RunIsKept(items: seq<InputItem>)
    requires items != [] && (items[0].FunctionCall? || (!IsSilent(items[0]) && IsOpen(MessageOf(items[0]))))
    requires var after := AfterLeadingCalls(items[1..]); Keeps(Grouped(after), after)
    ensures Keeps(Grouped(items), items)
  {
    var rest := items[1..];
    var calls, after := LeadingCalls(rest), AfterLeadingCalls(rest);
    JoinedIsKept(items[0], calls);
    GroupedRun(items);
    LeadingCallsAreKept(rest);
    var joined := Join(if items[0].FunctionCall? then CallsMessage([CallOf(items[0])]) else MessageOf(items[0]), calls);
    hide IsSilent, IsOpen, ContentOf, OwnMessage, CallsOfItem, Grouped, LeadingCalls, AfterLeadingCalls, MessageOf, Join;
    RunOnTop(joined, Grouped(after), items, after, calls);
  }

  lemma RunOnTop(joined: Message, msgs: seq<Message>, items: seq<InputItem>, after: seq<InputItem>, calls: seq<ToolCall>)
    requires Keeps(msgs, after) && items != [] && OnlyCalls(joined) && joined.callId == "" && joined.name == ""
    requires joined.toolCalls == CallsOfItem(items[0]) + calls && ContentOf(items[0]) == [] && OwnMessage(items[0]) == []
    requires CallsOfItems(items[1..]) == calls + CallsOfItems(after)
    requires OwnMessages(items[1..]) == OwnMessages(after) && StatedContent(items[1..]) == StatedContent(after)
    ensures Keeps([joined] + msgs, items)
  {
    FirstMessage(joined, msgs);
    hide ContentOf, OwnMessage, CallsOfItem, WithoutCallRuns, AllContent, AllCalls;
    var own, rest := CallsOfItem(items[0]), CallsOfItems(after);
    assert own + calls + rest == own + (calls + rest);
    assert [] + AllContent(msgs) == AllContent(msgs) && [] + WithoutCallRuns(msgs) == WithoutCallRuns(msgs);
    assert [] + StatedContent(items[1..]) == StatedContent(items[1..]) && [] + OwnMessages(items[1..]) == OwnMessages(items[1..]);
  }

  lemma OwnIsKept(items: seq<InputItem>)
    requires items != [] && !items[0].FunctionCall? && !IsSilent(items[0]) && !IsOpen(MessageOf(items[0]))
    requires Keeps(Grouped(items[1..]), items[1..])
    ensures Keeps(Grouped(items), items)
  {
    ItemIsKept(items[0]);
    GroupedMessage(items);
    FirstMessage(MessageOf(items[0]), Grouped(items[1..]));
    hide IsSilent, ContentOf, OwnMessage, CallsOfItem, Grouped, LeadingCalls, AfterLeadingCalls, MessageOf, WithoutCallRuns, AllContent, AllCalls;
  }

  /** Normalisation keeps everything.  The content blocks of its messages, one after the other, are those of
      the items; so are the tool calls; and the messages that are not runs of calls are, in order, those
      that the items make on their own, with the items' roles, contents, call ids and names. */
  lemma {:induction false} GroupingKeepsEverything(items: seq<InputItem>)
    ensures Keeps(Grouped(items), items)
    decreases |items|
  {
    if items != [] {
      if IsSilent(items[0]) {
        ItemIsKept(items[0]);
        GroupingKeepsEverything(items[1..]);
        hide ContentOf, OwnMessage, CallsOfItem;
        assert Grouped(items) == Grouped(items[1..]);
      } else if items[0].FunctionCall? || IsOpen(MessageOf(items[0])) {
        GroupingKeepsEverything(AfterLeadingCalls(items[1..]));
        hide Keeps, Grouped, IsSilent, MessageOf;
        RunIsKept(items);
      } else {
        GroupingKeepsEverything(items[1..]);
        hide Keeps, Grouped, IsSilent, MessageOf;
        OwnIsKept(items);
      }
    }
  }

  /** The ids that items refer to, in order; other items refer to none. */
  lemma {:induction false} ReferencesAreKept(a: seq<InputItem>, b: seq<InputItem>)
    ensures ReferencedIds(a + b) == ReferencedIds(a) + ReferencedIds(b)
    ensures |b| == 1 ==> ReferencedIds(b) == match b[0] case ItemReference(Some(id)) => [id] case _ => []
    decreases |b|
  {
    if b == [] {
      assert a + b == a;
    } else {
      var n := |b| - 1;
      ReferencesAreKept(a, b[..n]);
      assert (a + b)[..|a + b| - 1] == a + b[..n];
      assert |b| == 1 ==> b[..n] == [];
    }
  }
}

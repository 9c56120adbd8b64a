/** Input normalisation: the in-place merge of function-call items into assistant messages
    (internal/api/types.go:156-234). */
module NormalizeInput {
  import opened Api
  import opened SyncPath
  import opened Replay

  /** Input items with their JSON content decoded; an item reference without an id is `None`. */
  datatype InputItem =
    | MessageInput(role: string, content: seq<ContentBlock>, toolCalls: seq<ToolCall>)
    | ItemReference(id: Option<Id>)
    | Reasoning(content: seq<ContentBlock>, summaries: seq<string>, encrypted: string)
    | FunctionCall(callId: string, name: string, arguments: string)
    | FunctionCallOutput(callId: string, name: string, content: seq<ContentBlock>)

  datatype Input = Plain(text: string) | Items(items: seq<InputItem>)

  function SummaryBlocks(summaries: seq<string>): seq<ContentBlock> {
    if summaries == [] then []
    else
      var n := |summaries| - 1;
      SummaryBlocks(summaries[..n]) + if summaries[n] != "" then [TextBlock(summaries[n])] else []
  }

  function ReasoningContent(item: InputItem): seq<ContentBlock>
    requires item.Reasoning?
  {
    item.content + SummaryBlocks(item.summaries) +
    if item.encrypted != "" then [ContentBlock("encrypted_reasoning", "", "", "", item.encrypted)] else []
  }

  /** An item that leaves no message: a reference, or reasoning without content. */
  predicate IsSilent(item: InputItem) {
    item.ItemReference? || (item.Reasoning? && ReasoningContent(item) == [])
  }

  function CallOf(item: InputItem): ToolCall
    requires item.FunctionCall?
  {
    ToolCall(item.callId, item.name, item.arguments)
  }

  /** The message of an item that is neither a function call nor silent. */
  function MessageOf(item: InputItem): Message
    requires !item.FunctionCall? && !IsSilent(item)
  {
    match item
    case MessageInput(role, content, toolCalls) => Message(role, content, "", "", toolCalls)
    case Reasoning(_, _, _) => Message("assistant", ReasoningContent(item), "", "", [])
    case FunctionCallOutput(callId, name, content) => Message("tool", content, callId, name, [])
  }

  /** An assistant message of tool calls only: a following function call joins it. */
  predicate IsOpen(m: Message) {
    m.role == "assistant" && m.toolCalls != [] && m.content == []
  }

  function CallsMessage(calls: seq<ToolCall>): Message {
    Message("assistant", [], "", "", calls)
  }

  function Join(m: Message, calls: seq<ToolCall>): Message {
    m.(toolCalls := m.toolCalls + calls)
  }

  /** The function calls before the next item that leaves a message of its own. */
  function LeadingCalls(items: seq<InputItem>): seq<ToolCall> {
    if items == [] then []
    else if items[0].FunctionCall? then [CallOf(items[0])] + LeadingCalls(items[1..])
    else if IsSilent(items[0]) then LeadingCalls(items[1..])
    else []
  }

  function AfterLeadingCalls(items: seq<InputItem>): (r: seq<InputItem>)
    ensures |r| <= |items|
  {
    if items != [] && (items[0].FunctionCall? || IsSilent(items[0])) then AfterLeadingCalls(items[1..]) else items
  }

  /** The grouping that normalisation is for: each uninterrupted run of function calls is one assistant
      message, or the tail of the open message that it follows. */
  function Grouped(items: seq<InputItem>): seq<Message>
    decreases |items|
  {
    if items == [] then []
    else if IsSilent(items[0]) then Grouped(items[1..])
    else if items[0].FunctionCall? then
      [CallsMessage([CallOf(items[0])] + LeadingCalls(items[1..]))] + Grouped(AfterLeadingCalls(items[1..]))
    else if IsOpen(MessageOf(items[0])) then
      [Join(MessageOf(items[0]), LeadingCalls(items[1..]))] + Grouped(AfterLeadingCalls(items[1..]))
    else [MessageOf(items[0])] + Grouped(items[1..])
  }

  /** What remains to be added to `msgs` when `rest` is still to come. */
  function Resume(msgs: seq<Message>, rest: seq<InputItem>): seq<Message> {
    var n := |msgs|;
    if n > 0 && IsOpen(msgs[n - 1])
    then msgs[..n - 1] + [Join(msgs[n - 1], LeadingCalls(rest))] + Grouped(AfterLeadingCalls(rest))
    else msgs + Grouped(rest)
  }

  function ReferencedIds(items: seq<InputItem>): seq<Id> {
    if items == [] then []
    else
      var n := |items| - 1;
      ReferencedIds(items[..n]) +
      if items[n].ItemReference? && items[n].id.Some? then [items[n].id.value] else []
  }

  method NormalizeReasoning(item: InputItem) returns (content: seq<ContentBlock>)
    requires item.Reasoning?
    ensures content == ReasoningContent(item)
  {
    content := item.content;
    for i := 0 to |item.summaries|
      invariant content == item.content + SummaryBlocks(item.summaries[..i])
    {
      assert item.summaries[..i + 1][..i] == item.summaries[..i];
      if item.summaries[i] != "" {
        content := content + [TextBlock(item.summaries[i])];
      }
    }
    assert item.summaries[..|item.summaries|] == item.summaries;
    if item.encrypted != "" {
      content := content + [ContentBlock("encrypted_reasoning", "", "", "", item.encrypted)];
    }
  }

  lemma ResumeCall(msgs: seq<Message>, rest: seq<InputItem>)
    requires rest != [] && rest[0].FunctionCall?
    ensures var n, call := |msgs|, CallOf(rest[0]);
            Resume(msgs, rest) ==
            Resume(if n > 0 && IsOpen(msgs[n - 1]) then msgs[n - 1 := Join(msgs[n - 1], [call])] else msgs + [CallsMessage([call])],
                   rest[1..])
  {
    var n, call := |msgs|, CallOf(rest[0]);
    if n > 0 && IsOpen(msgs[n - 1]) {
      var later := msgs[n - 1 := Join(msgs[n - 1], [call])];
      assert later[..n - 1] == msgs[..n - 1];
      var calls := LeadingCalls(rest[1..]);
      assert LeadingCalls(rest) == [call] + calls;
      assert msgs[n - 1].toolCalls + [call] + calls == msgs[n - 1].toolCalls + ([call] + calls);
      assert Join(Join(msgs[n - 1], [call]), calls) == Join(msgs[n - 1], LeadingCalls(rest));
      assert IsOpen(later[n - 1]) && AfterLeadingCalls(rest) == AfterLeadingCalls(rest[1..]);
      hide LeadingCalls, AfterLeadingCalls, Grouped, IsOpen, Join;
    } else {
      assert (msgs + [CallsMessage([call])])[..n] == msgs;
    }
  }

  lemma ClosedResume(msgs: seq<Message>, rest: seq<InputItem>)
    requires rest != [] && !rest[0].FunctionCall? && !IsSilent(rest[0])
    ensures Resume(msgs, rest) == msgs + Grouped(rest)
  {
    var n := |msgs|;
    if n > 0 && IsOpen(msgs[n - 1]) {
      assert Join(msgs[n - 1], []) == msgs[n - 1];
      assert msgs[..n - 1] + [msgs[n - 1]] == msgs;
    }
  }

  lemma GroupedMessage(items: seq<InputItem>)
    requires items != [] && !items[0].FunctionCall? && !IsSilent(items[0])
    ensures var m, rest := MessageOf(items[0]), items[1..];
            Grouped(items) == if IsOpen(m) then [Join(m, LeadingCalls(rest))] + Grouped(AfterLeadingCalls(rest)) else [m] + Grouped(rest)
  {
  }

  lemma ResumeMessage(msgs: seq<Message>, rest: seq<InputItem>)
    requires rest != [] && !rest[0].FunctionCall? && !IsSilent(rest[0])
    ensures Resume(msgs, rest) == Resume(msgs + [MessageOf(rest[0])], rest[1..])
  {
    ClosedResume(msgs, rest);
    GroupedMessage(rest);
    hide Grouped, LeadingCalls, AfterLeadingCalls, Join;
    var n, m, later := |msgs|, MessageOf(rest[0]), rest[1..];
    assert (msgs + [m])[..n] == msgs && (msgs + [m])[n] == m;
    if IsOpen(m) {
      assert msgs + ([Join(m, LeadingCalls(later))] + Grouped(AfterLeadingCalls(later))) ==
             msgs + [Join(m, LeadingCalls(later))] + Grouped(AfterLeadingCalls(later));
    } else {
      assert msgs + ([m] + Grouped(later)) == msgs + [m] + Grouped(later);
    }
  }

  /** One item of the loop: a function call is appended in place to the last message when that is open,
      and starts a message otherwise. */
  method NormalizeItem(msgs: seq<Message>, item: InputItem, ghost rest: seq<InputItem>) returns (r: seq<Message>)
    requires rest != [] && rest[0] == item
    ensures Resume(r, rest[1..]) == Resume(msgs, rest)
  {
    r := msgs;
    match item {
      case MessageInput(role, content, toolCalls) =>
        ResumeMessage(msgs, rest);
        r := msgs + [Message(role, content, "", "", toolCalls)];
      case ItemReference(id) =>
      case Reasoning(_, _, _) =>
        var content := NormalizeReasoning(item);
        if |content| > 0 {
          ResumeMessage(msgs, rest);
          r := msgs + [Message("assistant", content, "", "", [])];
        }
      case FunctionCall(callId, name, arguments) =>
        ResumeCall(msgs, rest);
        var call := ToolCall(callId, name, arguments);
        var n := |msgs|;
        if n > 0 && msgs[n - 1].role == "assistant" && |msgs[n - 1].toolCalls| > 0 && |msgs[n - 1].content| == 0 {
          r := msgs[n - 1 := msgs[n - 1].(toolCalls := msgs[n - 1].toolCalls + [call])];
        } else {
          r := msgs + [Message("assistant", [], "", "", [call])];
        }
      case FunctionCallOutput(callId, name, content) =>
        ResumeMessage(msgs, rest);
        r := msgs + [Message("tool", content, callId, name, [])];
    }
  }

  method Normalize(input: Input) returns (msgs: seq<Message>, refs: seq<Id>)
    ensures input.Plain? ==> msgs == [Message("user", [ContentBlock("input_text", input.text, "", "", "")], "", "", [])] && refs == []
    ensures input.Items? ==> msgs == Grouped(input.items) && refs == ReferencedIds(input.items)
  {
    if input.Plain? {
      return [Message("user", [ContentBlock("input_text", input.text, "", "", "")], "", "", [])], [];
    }
    var items := input.items;
    msgs, refs := [], [];
    assert items[0..] == items;
    for i := 0 to |items|
      invariant Resume(msgs, items[i..]) == Grouped(items)
      invariant refs == ReferencedIds(items[..i])
    {
      assert items[i..][1..] == items[i + 1..];
      assert items[..i + 1][..i] == items[..i];
      msgs := NormalizeItem(msgs, items[i], items[i..]);
      if items[i].ItemReference? && items[i].id.Some? {
        refs := refs + [items[i].id.value];
      }
    }
    assert items[..|items|] == items;
    NothingToResume(msgs);
  }

  lemma NothingToResume(msgs: seq<Message>)
    ensures Resume(msgs, []) == msgs
  {
    var n := |msgs|;
    if n > 0 && IsOpen(msgs[n - 1]) {
      assert Join(msgs[n - 1], []) == msgs[n - 1];
      assert msgs[..n - 1] + [msgs[n - 1]] == msgs;
    }
  }

  /** All tool calls that the items state, in order. */
  function StatedCalls(items: seq<InputItem>): seq<ToolCall> {
    if items == [] then []
    else
      (if items[0].FunctionCall? then [CallOf(items[0])]
       else if IsSilent(items[0]) then []
       else MessageOf(items[0]).toolCalls) + StatedCalls(items[1..])
  }

  function AllCalls(msgs: seq<Message>): seq<ToolCall> {
    if msgs == [] then [] else msgs[0].toolCalls + AllCalls(msgs[1..])
  }

  function StatedResults(items: seq<InputItem>): seq<Message> {
    if items == [] then []
    else
      (if items[0].FunctionCall? || IsSilent(items[0]) || MessageOf(items[0]).role != "tool" then []
       else [MessageOf(items[0])]) + StatedResults(items[1..])
  }

  function ToolMessages(msgs: seq<Message>): seq<Message> {
    if msgs == [] then []
    else (if msgs[0].role == "tool" then [msgs[0]] else []) + ToolMessages(msgs[1..])
  }

  lemma {:induction false} LeadingCallsKeepOrder(items: seq<InputItem>)
    ensures StatedCalls(items) == LeadingCalls(items) + StatedCalls(AfterLeadingCalls(items))
    ensures StatedResults(items) == StatedResults(AfterLeadingCalls(items))
  {
    if items != [] && (items[0].FunctionCall? || IsSilent(items[0])) {
      var rest := items[1..];
      LeadingCallsKeepOrder(rest);
      var calls, later := LeadingCalls(rest), StatedCalls(AfterLeadingCalls(rest));
      assert StatedResults(items) == [] + StatedResults(rest);
      if items[0].FunctionCall? {
        var call := CallOf(items[0]);
        assert StatedCalls(items) == [call] + (calls + later);
        assert [call] + (calls + later) == [call] + calls + later;
      } else {
        assert StatedCalls(items) == [] + (calls + later);
      }
      hide StatedCalls, StatedResults;
    } else {
      assert LeadingCalls(items) == [] && AfterLeadingCalls(items) == items;
      assert [] + StatedCalls(items) == StatedCalls(items);
    }
  }

  lemma GroupedRun(items: seq<InputItem>)
    requires items != [] && (items[0].FunctionCall? || (!IsSilent(items[0]) && IsOpen(MessageOf(items[0]))))
    ensures var first := if items[0].FunctionCall? then CallsMessage([CallOf(items[0])]) else MessageOf(items[0]);
            Grouped(items) == [Join(first, LeadingCalls(items[1..]))] + Grouped(AfterLeadingCalls(items[1..]))
  {
  }

  lemma StatedRun(items: seq<InputItem>)
    requires items != [] && (items[0].FunctionCall? || (!IsSilent(items[0]) && IsOpen(MessageOf(items[0]))))
    ensures var first := if items[0].FunctionCall? then CallsMessage([CallOf(items[0])]) else MessageOf(items[0]);
            StatedCalls(items) == first.toolCalls + LeadingCalls(items[1..]) + StatedCalls(AfterLeadingCalls(items[1..]))
  {
    LeadingCallsKeepOrder(items[1..]);
  }

  lemma RunKeepsCalls(items: seq<InputItem>)
    requires items != [] && (items[0].FunctionCall? || (!IsSilent(items[0]) && IsOpen(MessageOf(items[0]))))
    requires var after := AfterLeadingCalls(items[1..]); AllCalls(Grouped(after)) == StatedCalls(after)
    ensures AllCalls(Grouped(items)) == StatedCalls(items)
  {
    GroupedRun(items);
    StatedRun(items);
    hide Grouped, LeadingCalls, AfterLeadingCalls, StatedCalls, AllCalls, IsSilent, IsOpen;
    AllCallsOfCons(Grouped(items)[0], Grouped(AfterLeadingCalls(items[1..])));
  }

  /** Normalisation loses, invents and reorders no tool call. */
  lemma {:induction false} GroupingKeepsCalls(items: seq<InputItem>)
    ensures AllCalls(Grouped(items)) == StatedCalls(items)
    decreases |items|
  {
    if items != [] {
      if IsSilent(items[0]) {
        GroupingKeepsCalls(items[1..]);
      } else if items[0].FunctionCall? || IsOpen(MessageOf(items[0])) {
        GroupingKeepsCalls(AfterLeadingCalls(items[1..]));
        RunKeepsCalls(items);
      } else {
        GroupingKeepsCalls(items[1..]);
        AllCallsOfCons(MessageOf(items[0]), Grouped(items[1..]));
      }
    }
  }

  lemma AllCallsOfCons(m: Message, msgs: seq<Message>)
    ensures AllCalls([m] + msgs) == m.toolCalls + AllCalls(msgs)
    ensures ToolMessages([m] + msgs) == (if m.role == "tool" then [m] else []) + ToolMessages(msgs)
  {
    assert ([m] + msgs)[1..] == msgs;
  }

  /** Nor does it lose, invent or reorder a tool result. */
  lemma {:induction false} GroupingKeepsResults(items: seq<InputItem>)
    ensures ToolMessages(Grouped(items)) == StatedResults(items)
    decreases |items|
  {
    if items != [] {
      var rest := items[1..];
      if IsSilent(items[0]) {
        GroupingKeepsResults(rest);
      } else if items[0].FunctionCall? || IsOpen(MessageOf(items[0])) {
        var after := AfterLeadingCalls(rest);
        LeadingCallsKeepOrder(rest);
        GroupingKeepsResults(after);
        GroupedRun(items);
        assert StatedResults(items) == StatedResults(rest);
        hide LeadingCalls, AfterLeadingCalls, StatedResults, IsSilent, Grouped;
        AllCallsOfCons(Grouped(items)[0], Grouped(after));
      } else {
        GroupingKeepsResults(rest);
        AllCallsOfCons(MessageOf(items[0]), Grouped(rest));
      }
    }
  }

  /** An item that leaves a closed message separates what comes before it from what comes after. */
  lemma {:induction false} ClosedItemsSeparate(before: seq<InputItem>, item: InputItem, after: seq<InputItem>)
    requires !item.FunctionCall? && !IsSilent(item) && !IsOpen(MessageOf(item))
    ensures Grouped(before + [item] + after) == Grouped(before) + [MessageOf(item)] + Grouped(after)
    decreases |before|
  {
    var all := before + [item] + after;
    if before == [] {
      assert all[1..] == after;
    } else {
      var rest := before[1..];
      assert all[1..] == rest + [item] + after && all[0] == before[0];
      if IsSilent(before[0]) {
        ClosedItemsSeparate(rest, item, after);
      } else if before[0].FunctionCall? || IsOpen(MessageOf(before[0])) {
        LeadingCallsStop(rest, item, after);
        ClosedItemsSeparate(AfterLeadingCalls(rest), item, after);
        GroupedRun(before);
        GroupedRun(all);
        hide Grouped, LeadingCalls, AfterLeadingCalls, IsSilent, IsOpen, MessageOf;
      } else {
        ClosedItemsSeparate(rest, item, after);
        GroupedMessage(before);
        GroupedMessage(all);
        hide Grouped, LeadingCalls, AfterLeadingCalls;
      }
    }
  }

  lemma {:induction false} LeadingCallsStop(before: seq<InputItem>, item: InputItem, after: seq<InputItem>)
    requires !item.FunctionCall? && !IsSilent(item)
    ensures LeadingCalls(before + [item] + after) == LeadingCalls(before)
    ensures AfterLeadingCalls(before + [item] + after) == AfterLeadingCalls(before) + [item] + after
  {
    if before != [] {
      assert (before + [item] + after)[1..] == before[1..] + [item] + after;
      LeadingCallsStop(before[1..], item, after);
    }
  }

  /** An uninterrupted run with at least one function call is one assistant message. */
  lemma {:induction false} RunIsOneMessage(items: seq<InputItem>)
    requires forall k :: 0 <= k < |items| ==> items[k].FunctionCall? || IsSilent(items[k])
    ensures Grouped(items) == if StatedCalls(items) == [] then [] else [CallsMessage(StatedCalls(items))]
    ensures LeadingCalls(items) == StatedCalls(items) && AfterLeadingCalls(items) == []
  {
    if items != [] {
      RunIsOneMessage(items[1..]);
      assert Grouped(AfterLeadingCalls(items[1..])) == [];
      if items[0].FunctionCall? {
        assert [CallOf(items[0])] + LeadingCalls(items[1..]) == StatedCalls(items);
      } else {
        assert StatedCalls(items) == StatedCalls(items[1..]);
        assert Grouped(items) == Grouped(items[1..]);
      }
    }
  }

  /** A returned function-call item as a client sends it back. */
  function FedBack(item: OutputItem): InputItem
    requires item.FunctionCallItem?
  {
    FunctionCall(item.callId, item.name, item.arguments)
  }

  function FedBackAll(calls: seq<ToolCall>, firstId: Id): seq<InputItem> {
    var items := CallItemsOf(calls, firstId);
    seq(|items|, k requires 0 <= k < |items| => FedBack(items[k]))
  }

  lemma {:induction false} FedBackCalls(calls: seq<ToolCall>, firstId: Id)
    ensures StatedCalls(FedBackAll(calls, firstId)) == calls
  {
    if calls != [] {
      FedBackCalls(calls[1..], firstId + 1);
      assert FedBackAll(calls, firstId)[1..] == FedBackAll(calls[1..], firstId + 1);
    }
  }

  /** The output items of a response without text, sent back as input, normalise to exactly the assistant
      message that the server stored for that response. */
  lemma FedBackResponseIsStoredMessage(result: ProviderResult, firstId: Id)
    requires result.text == "" && result.toolCalls != []
    ensures SyncOutput(result, firstId) == CallItemsOf(result.toolCalls, firstId)
    ensures Grouped(FedBackAll(result.toolCalls, firstId)) == [AssistantMessage(result).value]
  {
    FedBackCalls(result.toolCalls, firstId);
    RunIsOneMessage(FedBackAll(result.toolCalls, firstId));
  }
}

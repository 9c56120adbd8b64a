/** Stored conversations: replay state, the overlay of provider-native messages, item references and
    retrieval (internal/server/server.go:411-547, 1292-1442, internal/api/types.go:236-252). */
module Replay {
  import opened Api
  import opened Requests

  datatype ItemKind = OfMessage | OfCall

  datatype ReplayItem = ReplayItem(id: Id, kind: ItemKind, messageIndex: int, message: Option<Message>)

  datatype ReplayState = ReplayState(provider: string, responseId: string, items: seq<ReplayItem>)

  datatype Conversation =
    Conversation(model: string, messages: seq<Message>, request: Request, replay: Option<ReplayState>)

  function AssistantMessage(result: ProviderResult): Option<Message> {
    if result.text == "" && result.toolCalls == [] then None
    else Some(Message("assistant", if result.text != "" then [TextBlock(result.text)] else [], "", "", result.toolCalls))
  }

  // ----- building replay state

  function ReplayItemFor(item: OutputItem, index: int, native: Option<Message>): ReplayItem {
    if item.MessageItem? then ReplayItem(item.id, OfMessage, index, native) else ReplayItem(item.id, OfCall, index, None)
  }

  function ReplayItemsFor(items: seq<OutputItem>, index: int, native: Option<Message>): seq<ReplayItem> {
    seq(|items|, k requires 0 <= k < |items| => ReplayItemFor(items[k], index, native))
  }

  function ReplayFor(provider: string, result: ProviderResult, outputs: seq<OutputItem>, index: int): Option<ReplayState> {
    if result.id == "" && outputs == [] then None
    else Some(ReplayState(provider, result.id, ReplayItemsFor(outputs, index, result.replayMessage)))
  }

  method BuildReplayState(provider: string, result: ProviderResult, outputs: seq<OutputItem>, index: int)
    returns (replay: Option<ReplayState>)
    ensures replay == ReplayFor(provider, result, outputs, index)
  {
    var state := ReplayState(provider, result.id, []);
    for k := 0 to |outputs|
      invariant state == ReplayState(provider, result.id, ReplayItemsFor(outputs[..k], index, result.replayMessage))
    {
      var item := ReplayItem(outputs[k].id, if outputs[k].MessageItem? then OfMessage else OfCall, index, None);
      if outputs[k].MessageItem? && result.replayMessage.Some? {
        item := item.(message := result.replayMessage);
      }
      state := state.(items := state.items + [item]);
    }
    assert outputs[..|outputs|] == outputs;
    if state.responseId == "" && |state.items| == 0 {
      return None;
    }
    return Some(state);
  }

  // ----- the overlay of native messages

  /** The native message that replaces position `k`, if any: the last item naming it wins. */
  function NativeAt(items: seq<ReplayItem>, k: int): Option<Message> {
    if items == [] then None
    else
      var last := items[|items| - 1];
      if last.message.Some? && last.messageIndex == k then last.message else NativeAt(items[..|items| - 1], k)
  }

  function Overlay(messages: seq<Message>, replay: Option<ReplayState>, provider: string): (r: seq<Message>)
    ensures |r| == |messages|
  {
    if replay.None? || replay.value.provider != provider then messages
    else
      seq(|messages|, k requires 0 <= k < |messages| =>
        var native := NativeAt(replay.value.items, k);
        if native.Some? then native.value else messages[k])
  }

  method ApplyReplayState(messages: seq<Message>, replay: Option<ReplayState>, provider: string) returns (out: seq<Message>)
    ensures out == Overlay(messages, replay, provider)
  {
    out := messages;
    if replay.None? || replay.value.provider != provider {
      return;
    }
    var items := replay.value.items;
    for i := 0 to |items|
      invariant |out| == |messages|
      invariant forall k :: 0 <= k < |out| ==>
                  out[k] == if NativeAt(items[..i], k).Some? then NativeAt(items[..i], k).value else messages[k]
    {
      var item := items[i];
      assert items[..i + 1][..i] == items[..i];
      if item.message.None? || item.messageIndex < 0 || item.messageIndex >= |out| {
        continue;
      }
      out := out[item.messageIndex := item.message.value];
    }
    assert items[..|items|] == items;
  }

  // ----- item references

  /** The item an id names; a later item with the same id hides an earlier one. */
  function ItemNamed(items: seq<ReplayItem>, id: Id): Option<ReplayItem> {
    if items == [] then None
    else if items[|items| - 1].id == id then Some(items[|items| - 1])
    else ItemNamed(items[..|items| - 1], id)
  }

  /** The history position an id refers to, when it is known and in range. */
  function Target(items: seq<ReplayItem>, id: Id, length: nat): Option<nat> {
    var item := ItemNamed(items, id);
    if item.Some? && 0 <= item.value.messageIndex < length then Some(item.value.messageIndex) else None
  }

  function Targets(items: seq<ReplayItem>, ids: seq<Id>, length: nat): set<nat> {
    set i | 0 <= i < |ids| && Target(items, ids[i], length).Some? :: Target(items, ids[i], length).value
  }

  function ResolvedMessage(items: seq<ReplayItem>, id: Id, history: seq<Message>, sameProvider: bool): Message
    requires Target(items, id, |history|).Some?
  {
    var item := ItemNamed(items, id).value;
    if sameProvider && item.message.Some? then item.message.value else history[item.messageIndex]
  }

  /** One message per referenced position, in order of first reference; unknown ids are skipped. */
  function Resolved(items: seq<ReplayItem>, ids: seq<Id>, history: seq<Message>, sameProvider: bool): seq<Message> {
    if ids == [] then []
    else
      var n := |ids| - 1;
      var before := Resolved(items, ids[..n], history, sameProvider);
      var target := Target(items, ids[n], |history|);
      if target.None? || target.value in Targets(items, ids[..n], |history|) then before
      else before + [ResolvedMessage(items, ids[n], history, sameProvider)]
  }

  function References(replay: Option<ReplayState>, ids: seq<Id>, history: seq<Message>, provider: string): seq<Message> {
    if replay.None? then [] else Resolved(replay.value.items, ids, history, replay.value.provider == provider)
  }

  method ResolveItemReferences(ids: seq<Id>, history: seq<Message>, replay: Option<ReplayState>, provider: string)
    returns (resolved: seq<Message>)
    ensures resolved == References(replay, ids, history, provider)
  {
    resolved := [];
    if replay.None? || |ids| == 0 {
      return;
    }
    var items := replay.value.items;
    var refs: map<Id, ReplayItem> := map[];
    for i := 0 to |items|
      invariant forall id :: id in refs <==> ItemNamed(items[..i], id).Some?
      invariant forall id :: id in refs ==> refs[id] == ItemNamed(items[..i], id).value
    {
      assert items[..i + 1][..i] == items[..i];
      refs := refs[items[i].id := items[i]];
    }
    assert items[..|items|] == items;
    var seen: set<int> := {};
    for i := 0 to |ids|
      invariant forall t: int :: t in seen <==> 0 <= t && t in Targets(items, ids[..i], |history|)
      invariant resolved == Resolved(items, ids[..i], history, replay.value.provider == provider)
    {
      TargetsOneMore(items, ids[..i], ids[i], |history|);
      assert ids[..i + 1] == ids[..i] + [ids[i]] && ids[..i + 1][..i] == ids[..i];
      if ids[i] !in refs || refs[ids[i]].messageIndex < 0 || refs[ids[i]].messageIndex >= |history| {
        continue;
      }
      var item := refs[ids[i]];
      if item.messageIndex in seen {
        continue;
      }
      seen := seen + {item.messageIndex};
      if replay.value.provider == provider && item.message.Some? {
        resolved := resolved + [item.message.value];
        continue;
      }
      resolved := resolved + [history[item.messageIndex]];
    }
    assert ids[..|ids|] == ids;
  }

  /** Messages come in the order of the first references to them: further ids only add at the end. */
  lemma {:induction false} ReferencesComeInOrder(items: seq<ReplayItem>, a: seq<Id>, b: seq<Id>, history: seq<Message>, same: bool)
    ensures Resolved(items, a, history, same) <= Resolved(items, a + b, history, same)
    decreases |b|
  {
    if b == [] {
      assert a + b == a;
    } else {
      var n := |b| - 1;
      ReferencesComeInOrder(items, a, b[..n], history, same);
      assert (a + b)[..|a| + n] == a + b[..n];
      hide ResolvedMessage, Target, Targets;
    }
  }

  lemma TargetsOneMore(items: seq<ReplayItem>, ids: seq<Id>, id: Id, length: nat)
    ensures var t := Target(items, id, length);
            Targets(items, ids + [id], length) == Targets(items, ids, length) + if t.Some? then {t.value} else {}
  {
    var all := ids + [id];
    assert all[..|ids|] == ids && all[|ids|] == id;
    forall t | t in Targets(items, all, length)
      ensures t in Targets(items, ids, length) + if Target(items, id, length).Some? then {Target(items, id, length).value} else {}
    {
      var i :| 0 <= i < |all| && Target(items, all[i], length).Some? && Target(items, all[i], length).value == t;
      assert i < |ids| ==> ids[i] == all[i];
    }
    forall t | t in Targets(items, ids, length) ensures t in Targets(items, all, length) {
      var i :| 0 <= i < |ids| && Target(items, ids[i], length).Some? && Target(items, ids[i], length).value == t;
      assert all[i] == ids[i];
    }
  }

  // ----- retrieval

  function OutputPart(block: ContentBlock): ContentPart {
    ContentPart(block.kind, block.text)
  }

  function PartsOf(content: seq<ContentBlock>): seq<ContentPart> {
    seq(|content|, k requires 0 <= k < |content| => OutputPart(content[k]))
  }

  function CallItemsOf(calls: seq<ToolCall>, firstId: Id): seq<OutputItem> {
    seq(|calls|, k requires 0 <= k < |calls| =>
      FunctionCallItem(firstId + k, Complete, calls[k].id, calls[k].name, calls[k].arguments))
  }

  /** The items rebuilt from a stored message, with fresh ids from `firstId` on. */
  function ItemsOfMessage(m: Message, firstId: Id): seq<OutputItem> {
    if m.content == [] then CallItemsOf(m.toolCalls, firstId)
    else [MessageItem(firstId, Complete, PartsOf(m.content))] + CallItemsOf(m.toolCalls, firstId + 1)
  }

  /** The last assistant message, if there is one. */
  function LastAssistant(messages: seq<Message>): Option<Message> {
    if messages == [] then None
    else if messages[|messages| - 1].role == "assistant" then Some(messages[|messages| - 1])
    else LastAssistant(messages[..|messages| - 1])
  }

  function RetrievedOutput(messages: seq<Message>, firstId: Id): seq<OutputItem> {
    var m := LastAssistant(messages);
    if m.Some? then ItemsOfMessage(m.value, firstId) else []
  }

  method BuildOutputItemsFromMessage(m: Message, firstId: Id) returns (items: seq<OutputItem>)
    ensures items == ItemsOfMessage(m, firstId)
  {
    items := [];
    var nextId := firstId;
    if |m.content| > 0 {
      var parts := [];
      for i := 0 to |m.content|
        invariant parts == PartsOf(m.content[..i])
      {
        parts := parts + [ContentPart(m.content[i].kind, m.content[i].text)];
      }
      assert m.content[..|m.content|] == m.content;
      items := [MessageItem(nextId, Complete, parts)];
      nextId := nextId + 1;
    }
    ghost var base, start := items, nextId;
    for i := 0 to |m.toolCalls|
      invariant nextId == start + i
      invariant items == base + CallItemsOf(m.toolCalls[..i], start)
    {
      var tc := m.toolCalls[i];
      items := items + [FunctionCallItem(nextId, Complete, tc.id, tc.name, tc.arguments)];
      nextId := nextId + 1;
    }
    assert m.toolCalls[..|m.toolCalls|] == m.toolCalls;
  }

  method BuildResponseOutput(conv: Conversation, firstId: Id) returns (items: seq<OutputItem>)
    ensures items == RetrievedOutput(conv.messages, firstId)
  {
    items := [];
    var i := |conv.messages| - 1;
    assert conv.messages[..|conv.messages|] == conv.messages;
    while i >= 0
      invariant -1 <= i < |conv.messages|
      invariant LastAssistant(conv.messages) == LastAssistant(conv.messages[..i + 1])
    {
      if conv.messages[i].role == "assistant" {
        items := BuildOutputItemsFromMessage(conv.messages[i], firstId);
        return;
      }
      assert conv.messages[..i + 1][..i] == conv.messages[..i];
      i := i - 1;
    }
  }
}

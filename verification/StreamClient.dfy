/** The receiving side of the event protocol, as a strict recogniser: a client that keeps one slot per
    output index, accumulates deltas, and refuses any event that does not fit.  Every uncut run of the
    gateway is accepted by it (internal/server/server.go:693-972). */
module StreamClient {
  import opened Api
  import opened ToolPolicy
  import opened StreamSpec

  datatype Stage = Announced | PartOpen | TextClosed | PartClosed

  datatype Slot =
    | MessageSlot(id: Id, text: string, stage: Stage)
    | CallSlot(id: Id, callId: string, name: string, arguments: string, argumentsClosed: bool)
    | Closed(item: OutputItem)

  /** `Violation` is final: the client has seen an event that the protocol forbids. */
  datatype Client =
    | Waiting
    | Receiving(slots: seq<Slot>)
    | Finished(output: seq<OutputItem>)
    | GaveUp(error: ResponseError)
    | Violation

  function NewSlot(item: OutputItem): Option<Slot> {
    match item
    case MessageItem(id, status, content) =>
      if status.Running? && content == [] then Some(MessageSlot(id, "", Announced)) else None
    case FunctionCallItem(id, status, callId, name, arguments) =>
      if status.Running? && arguments == "" then Some(CallSlot(id, callId, name, "", false)) else None
  }

  /** What an event does to the slot it names; `None` when it does not fit there. */
  function UpdateSlot(slot: Slot, e: EventBody): Option<Slot> {
    match e
    case PartAdded(id, _, part) =>
      if slot.MessageSlot? && slot.id == id && slot.stage == Announced && part == TextPart("")
      then Some(slot.(stage := PartOpen)) else None
    case TextDelta(id, _, delta) =>
      if slot.MessageSlot? && slot.id == id && slot.stage == PartOpen && delta != ""
      then Some(slot.(text := slot.text + delta)) else None
    case ArgumentsDelta(id, _, delta) =>
      if slot.CallSlot? && slot.id == id && !slot.argumentsClosed && delta != ""
      then Some(slot.(arguments := slot.arguments + delta)) else None
    case TextDone(id, _, text) =>
      if slot.MessageSlot? && slot.id == id && slot.stage == PartOpen && text == slot.text
      then Some(slot.(stage := TextClosed)) else None
    case PartDone(id, _, part) =>
      if slot.MessageSlot? && slot.id == id && slot.stage == TextClosed && part == TextPart(slot.text)
      then Some(slot.(stage := PartClosed)) else None
    case ArgumentsDone(id, _, arguments) =>
      if slot.CallSlot? && slot.id == id && !slot.argumentsClosed && arguments == slot.arguments
      then Some(slot.(argumentsClosed := true)) else None
    case ItemDone(_, item) =>
      if MayClose(slot, item) then Some(Closed(item)) else None
    case _ => None
  }

  /** A finished item must carry exactly what was accumulated; an id or a name that was announced
      may not change, one that was announced empty may be filled in. */
  predicate MayClose(slot: Slot, item: OutputItem) {
    match slot
    case MessageSlot(id, text, stage) => stage == PartClosed && item == MessageItem(id, Complete, [TextPart(text)])
    case CallSlot(id, callId, name, arguments, argumentsClosed) =>
      && argumentsClosed
      && item.FunctionCallItem?
      && item.id == id && item.status == Complete && item.arguments == arguments
      && (callId == "" || callId == item.callId)
      && (name == "" || name == item.name)
    case Closed(_) => false
  }

  function IndexOf(e: EventBody): Option<nat> {
    match e
    case PartAdded(_, k, _) => Some(k)
    case TextDelta(_, k, _) => Some(k)
    case ArgumentsDelta(_, k, _) => Some(k)
    case TextDone(_, k, _) => Some(k)
    case PartDone(_, k, _) => Some(k)
    case ArgumentsDone(_, k, _) => Some(k)
    case ItemDone(k, _) => Some(k)
    case _ => None
  }

  predicate AllClosed(slots: seq<Slot>) {
    forall k :: 0 <= k < |slots| ==> slots[k].Closed?
  }

  /** The output list as the client has rebuilt it. */
  function Rebuilt(slots: seq<Slot>): seq<OutputItem>
    requires AllClosed(slots)
  {
    seq(|slots|, k requires 0 <= k < |slots| => slots[k].item)
  }

  function Receive(c: Client, e: EventBody): Client {
    if c.Waiting? then (if e.InProgress? then Receiving([]) else Violation)
    else if !c.Receiving? then Violation
    else
      match e
      case InProgress => Violation
      case ItemAdded(k, item) =>
        if k == |c.slots| && NewSlot(item).Some? then Receiving(c.slots + [NewSlot(item).value]) else Violation
      case Failed(error) => GaveUp(error)
      case Completed(response) =>
        if AllClosed(c.slots) && response.output == Rebuilt(c.slots) then Finished(Rebuilt(c.slots)) else Violation
      case _ =>
        var k := IndexOf(e).value;
        if k < |c.slots| && UpdateSlot(c.slots[k], e).Some?
        then Receiving(c.slots[k := UpdateSlot(c.slots[k], e).value]) else Violation
  }

  function ReceiveAll(c: Client, events: seq<EventBody>): Client {
    if events == [] then c else Receive(ReceiveAll(c, events[..|events| - 1]), events[|events| - 1])
  }

  lemma ReceiveOneMore(c: Client, events: seq<EventBody>, e: EventBody)
    ensures ReceiveAll(c, events + [e]) == Receive(ReceiveAll(c, events), e)
  {
    assert (events + [e])[..|events|] == events;
  }

  lemma {:induction false} ReceiveAppend(c: Client, first: seq<EventBody>, second: seq<EventBody>)
    ensures ReceiveAll(c, first + second) == ReceiveAll(ReceiveAll(c, first), second)
  {
    if second == [] {
      assert first + second == first;
    } else {
      var n := |second| - 1;
      ReceiveAppend(c, first, second[..n]);
      assert first + second == (first + second[..n]) + [second[n]];
      ReceiveOneMore(c, first + second[..n], second[n]);
    }
  }

  predicate IsTerminal(e: EventBody) {
    e.Failed? || e.Completed?
  }

  /** What acceptance means for the shape of a trace: `in_progress` first and only first, and one
      terminal event, which is the last one. */
  lemma {:induction false} AcceptedTraceShape(events: seq<EventBody>)
    ensures ReceiveAll(Waiting, events).Receiving? ==>
              |events| > 0 && forall k :: 0 <= k < |events| ==> (events[k].InProgress? <==> k == 0) && !IsTerminal(events[k])
    ensures ReceiveAll(Waiting, events).Finished? || ReceiveAll(Waiting, events).GaveUp? ==>
              && |events| > 1
              && (forall k :: 0 <= k < |events| ==> (events[k].InProgress? <==> k == 0))
              && (forall k :: 0 <= k < |events| ==> (IsTerminal(events[k]) <==> k == |events| - 1))
    ensures ReceiveAll(Waiting, events).Waiting? ==> events == []
  {
    if events != [] {
      AcceptedTraceShape(events[..|events| - 1]);
    }
  }

  /** The slot of an item that is still open holds exactly what the gateway has accumulated. */
  ghost predicate Mirrors(slot: Slot, item: Item) {
    match item
    case TextItem(id, text) => slot == MessageSlot(id, text, PartOpen)
    case CallItem(id, _, callId, name, arguments) =>
      && slot.CallSlot? && slot.id == id && slot.arguments == arguments && !slot.argumentsClosed
      && (slot.callId == "" || slot.callId == callId)
      && (slot.name == "" || slot.name == name)
  }

  ghost predicate InStep(c: Client, s: Stream) {
    && c.Receiving?
    && |c.slots| == |s.items|
    && forall k :: 0 <= k < |s.items| ==> Mirrors(c.slots[k], s.items[k])
  }

  lemma ReceiveTextItem(c: Client, s: Stream)
    requires InStep(c, s)
    ensures var k := |s.items|;
            InStep(Receive(Receive(c, ItemAdded(k, MessageItem(s.nextId, Running, []))), PartAdded(s.nextId, k, TextPart(""))),
                   OpenText(s))
  {
  }

  lemma ReceiveTextDelta(c: Client, s: Stream, p: nat, text: string)
    requires InStep(c, s) && p < |s.items| && s.items[p].TextItem? && text != ""
    ensures InStep(Receive(c, TextDelta(s.items[p].id, p, text)), ExtendText(s, p, text))
  {
  }

  lemma OpenTextInStep(c: Client, s: Stream)
    requires InStep(ReceiveAll(c, s.log), s)
    ensures InStep(ReceiveAll(c, OpenText(s).log), OpenText(s))
  {
    var first, second := ItemAdded(|s.items|, MessageItem(s.nextId, Running, [])), PartAdded(s.nextId, |s.items|, TextPart(""));
    assert OpenText(s).log == (s.log + [first]) + [second];
    ReceiveOneMore(c, s.log, first);
    ReceiveOneMore(c, s.log + [first], second);
    ReceiveTextItem(ReceiveAll(c, s.log), s);
  }

  lemma ExtendTextInStep(c: Client, s: Stream, p: nat, text: string)
    requires InStep(ReceiveAll(c, s.log), s) && p < |s.items| && s.items[p].TextItem? && text != ""
    ensures InStep(ReceiveAll(c, ExtendText(s, p, text).log), ExtendText(s, p, text))
  {
    ReceiveOneMore(c, s.log, TextDelta(s.items[p].id, p, text));
    ReceiveTextDelta(ReceiveAll(c, s.log), s, p, text);
  }

  lemma ApplyTextInStep(c: Client, s: Stream, text: string)
    requires InStep(ReceiveAll(c, s.log), s)
    ensures InStep(ReceiveAll(c, ApplyText(s, text).log), ApplyText(s, text))
  {
    if text != "" {
      if TextPosition(s.items) < |s.items| {
        ExtendTextInStep(c, s, TextPosition(s.items), text);
      } else {
        OpenTextInStep(c, s);
        ExtendTextInStep(c, OpenText(s), |s.items|, text);
      }
    }
  }

  lemma ReceiveCallItem(c: Client, policy: Policy, s: Stream, tc: ToolCallDelta)
    requires InStep(c, s) && ValidateToolCallName(policy, tc.name).None?
    ensures InStep(Receive(c, ItemAdded(|s.items|, FunctionCallItem(s.nextId, Running, tc.id, tc.name, ""))),
                   OpenCall(policy, s, tc))
  {
  }

  lemma ReceiveArguments(c: Client, policy: Policy, s: Stream, p: nat, tc: ToolCallDelta)
    requires InStep(c, s) && !s.stopped && p < |s.items| && s.items[p].CallItem?
    ensures var t := ExtendCall(policy, s, p, tc);
            InStep(if t.stopped || tc.arguments == "" then c
                   else Receive(c, ArgumentsDelta(s.items[p].id, p, tc.arguments)), t)
  {
  }

  lemma ExtendCallInStep(c: Client, policy: Policy, s: Stream, p: nat, tc: ToolCallDelta)
    requires InStep(ReceiveAll(c, s.log), s) && !s.stopped
    requires p < |s.items| && s.items[p].CallItem?
    ensures InStep(ReceiveAll(c, ExtendCall(policy, s, p, tc).log), ExtendCall(policy, s, p, tc))
  {
    ReceiveOneMore(c, s.log, ArgumentsDelta(s.items[p].id, p, tc.arguments));
    ReceiveArguments(ReceiveAll(c, s.log), policy, s, p, tc);
  }

  /** A call refused on its first delta is not announced; then the client lags one item behind. */
  lemma ApplyCallInStep(c: Client, policy: Policy, s: Stream, tc: ToolCallDelta)
    requires InStep(ReceiveAll(c, s.log), s) && !s.stopped
    ensures var t := ApplyCall(policy, s, tc);
            ReceiveAll(c, t.log).Receiving? && (t.stopped || InStep(ReceiveAll(c, t.log), t))
  {
    var p := CallPosition(s.items, tc.index);
    if p < |s.items| {
      ExtendCallInStep(c, policy, s, p, tc);
    } else {
      var t := OpenCall(policy, s, tc);
      if !t.stopped {
        ReceiveOneMore(c, s.log, ItemAdded(p, FunctionCallItem(s.nextId, Running, tc.id, tc.name, "")));
        ReceiveCallItem(ReceiveAll(c, s.log), policy, s, tc);
        ExtendCallInStep(c, policy, t, p, tc);
      }
    }
  }

  lemma {:induction false} FoldInStep(policy: Policy, firstId: Id, deltas: seq<Delta>)
    ensures var s := Fold(policy, firstId, deltas);
            ReceiveAll(Waiting, s.log).Receiving? && (s.rejection.Some? || InStep(ReceiveAll(Waiting, s.log), s))
    ensures Fold(policy, firstId, deltas).rejection.Some? ==> Fold(policy, firstId, deltas).stopped
  {
    if deltas == [] {
      ReceiveOneMore(Waiting, [], InProgress);
      assert [] + [InProgress] == Initial(firstId).log;
    } else {
      var n := |deltas| - 1;
      FoldInStep(policy, firstId, deltas[..n]);
      var s := Fold(policy, firstId, deltas[..n]);
      if !s.stopped {
        var t := ApplyHead(s, deltas[n]);
        ApplyTextInStep(Waiting, s.(model := t.model, resultId := t.resultId), deltas[n].text);
        if deltas[n].tool.Some? {
          ApplyCallInStep(Waiting, policy, t, deltas[n].tool.value);
          RejectionStops(policy, t, deltas[n].tool.value);
        }
      }
    }
  }

  lemma RejectionStops(policy: Policy, s: Stream, tc: ToolCallDelta)
    requires !s.stopped && s.rejection.None?
    ensures var t := ApplyCall(policy, s, tc); t.stopped <==> t.rejection.Some?
  {
  }

  /** While the gateway closes items: text first, then the calls at positions below `n`. */
  ghost predicate ClosingStep(c: Client, items: seq<Item>, textClosed: bool, n: nat) {
    && c.Receiving?
    && |c.slots| == |items|
    && forall k :: 0 <= k < |items| ==>
         if (if items[k].TextItem? then textClosed else k < n) then c.slots[k] == Closed(FinishedItem(items[k]))
         else Mirrors(c.slots[k], items[k])
  }

  lemma ReceiveTextClosing(c: Client, items: seq<Item>, p: nat)
    requires ClosingStep(c, items, false, 0) && WellShaped(items)
    requires p < |items| && items[p].TextItem?
    ensures var item := items[p];
            ClosingStep(Receive(Receive(Receive(c, TextDone(item.id, p, item.text)), PartDone(item.id, p, TextPart(item.text))),
                                ItemDone(p, FinishedItem(item))), items, true, 0)
  {
  }

  lemma ReceiveCallClosing(c: Client, items: seq<Item>, n: nat)
    requires n < |items| && ClosingStep(c, items, true, n) && items[n].CallItem?
    ensures var item := items[n];
            ClosingStep(Receive(Receive(c, ArgumentsDone(item.id, n, item.arguments)), ItemDone(n, FinishedItem(item))),
                        items, true, n + 1)
  {
  }

  lemma TextClosing(c: Client, items: seq<Item>)
    requires WellShaped(items) && ClosingStep(c, items, false, 0)
    ensures ClosingStep(ReceiveAll(c, TextDoneEvents(items)), items, true, 0)
  {
    var p := TextPosition(items);
    if p < |items| {
      var item := items[p];
      var e1, e2, e3 := TextDone(item.id, p, item.text), PartDone(item.id, p, TextPart(item.text)), ItemDone(p, FinishedItem(item));
      assert TextDoneEvents(items) == [e1, e2] + [e3];
      assert [e1, e2] == [e1] + [e2] && [e1] == [] + [e1];
      ReceiveOneMore(c, [], e1);
      ReceiveOneMore(c, [e1], e2);
      ReceiveOneMore(c, [e1, e2], e3);
      ReceiveTextClosing(c, items, p);
    }
  }

  lemma ReceiveTwoMore(c: Client, events: seq<EventBody>, e1: EventBody, e2: EventBody)
    ensures ReceiveAll(c, events + [e1, e2]) == Receive(Receive(ReceiveAll(c, events), e1), e2)
  {
    assert events + [e1, e2] == (events + [e1]) + [e2];
    ReceiveOneMore(c, events, e1);
    ReceiveOneMore(c, events + [e1], e2);
  }

  lemma {:induction false} CallsClosing(c: Client, items: seq<Item>, n: nat)
    requires n <= |items| && ClosingStep(c, items, true, 0)
    ensures ClosingStep(ReceiveAll(c, CallDoneEvents(items, n)), items, true, n)
  {
    if n > 0 {
      CallsClosing(c, items, n - 1);
      var before := CallDoneEvents(items, n - 1);
      if items[n - 1].CallItem? {
        var item := items[n - 1];
        ReceiveCallClosing(ReceiveAll(c, before), items, n - 1);
        ReceiveTwoMore(c, before, ArgumentsDone(item.id, n - 1, item.arguments), ItemDone(n - 1, FinishedItem(item)));
      } else {
        assert before + [] == before;
        assert CallDoneEvents(items, n) == before;
      }
    }
  }

  lemma ReceiveCompleted(c: Client, items: seq<Item>, response: Response)
    requires ClosingStep(c, items, true, |items|) && response.output == OutputOf(items)
    ensures Receive(c, Completed(response)) == Finished(response.output)
  {
    assert AllClosed(c.slots);
    assert Rebuilt(c.slots) == OutputOf(items);
  }

  lemma FailureIsReceived(c: Client, error: ResponseError)
    requires c.Receiving?
    ensures ReceiveAll(c, [Failed(error)]) == GaveUp(error)
  {
    assert [Failed(error)] == [] + [Failed(error)];
    ReceiveOneMore(c, [], Failed(error));
  }

  lemma CompletionIsReceived(c: Client, s: Stream, requestModel: string)
    requires c.Receiving? && InStep(c, s) && WellShaped(s.items)
    ensures var last := Completed(CompletedResponse(s, requestModel));
            ReceiveAll(c, TextDoneEvents(s.items) + CallDoneEvents(s.items, |s.items|) + [last]) == Finished(CompletedResponse(s, requestModel).output)
  {
    var text, calls := TextDoneEvents(s.items), CallDoneEvents(s.items, |s.items|);
    var last := Completed(CompletedResponse(s, requestModel));
    TextClosing(c, s.items);
    hide TextDoneEvents, CallDoneEvents, InStep, WellShaped, Receive;
    ReceiveAppend(c, text, calls);
    CallsClosing(ReceiveAll(c, text), s.items, |s.items|);
    ReceiveOneMore(c, text + calls, last);
    ReceiveCompleted(ReceiveAll(c, text + calls), s.items, CompletedResponse(s, requestModel));
  }

  /** The client that receives every event of a run the client did not cut: it never sees a violation;
      it gives up with exactly the run's error, or finishes with the completed response's output list,
      rebuilt from its own slots. */
  lemma EveryRunIsAccepted(policy: Policy, firstId: Id, deltas: seq<Delta>, e: Ending, requestModel: string)
    ensures var s := Fold(policy, firstId, deltas);
            var client := ReceiveAll(Waiting, Trace(policy, firstId, deltas, e, requestModel));
            match FinalError(policy, s, e)
            case Some(error) => client == GaveUp(error)
            case None => client == Finished(CompletedResponse(s, requestModel).output)
  {
    var s := Fold(policy, firstId, deltas);
    FoldInStep(policy, firstId, deltas);
    FoldIsWellShaped(policy, firstId, deltas);
    ReceiveAppend(Waiting, s.log, ClosingEvents(policy, s, e, requestModel));
    assert s.rejection.Some? ==> FinalError(policy, s, e).Some?;
    hide Fold, InStep, WellShaped, FinalError, CompletedResponse, TextDoneEvents, CallDoneEvents, Receive;
    var c := ReceiveAll(Waiting, s.log);
    if FinalError(policy, s, e).Some? {
      FailureIsReceived(c, FinalError(policy, s, e).value);
    } else {
      CompletionIsReceived(c, s, requestModel);
    }
  }
}

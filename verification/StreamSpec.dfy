/** What one streamed response means: a list of output items in order of first appearance, an event
    log, and the step each provider delta makes (internal/server/server.go:693-995).  The position
    of an item in the list is its output index. */
module StreamSpec {
  import opened Api
  import opened ToolPolicy

  datatype EventBody =
    | InProgress
    | ItemAdded(outputIndex: nat, item: OutputItem)
    | PartAdded(itemId: Id, outputIndex: nat, part: ContentPart)
    | TextDelta(itemId: Id, outputIndex: nat, delta: string)
    | ArgumentsDelta(itemId: Id, outputIndex: nat, delta: string)
    | TextDone(itemId: Id, outputIndex: nat, text: string)
    | PartDone(itemId: Id, outputIndex: nat, part: ContentPart)
    | ArgumentsDone(itemId: Id, outputIndex: nat, arguments: string)
    | ItemDone(outputIndex: nat, item: OutputItem)
    | Failed(error: ResponseError)
    | Completed(response: Response)

  datatype Item =
    | TextItem(id: Id, text: string)
    | CallItem(id: Id, streamIndex: int, callId: string, name: string, arguments: string)

  /** `stopped` is set once the receive loop has been left, by a `done` delta or by a rejected call. */
  datatype Stream =
    Stream(items: seq<Item>, nextId: Id, stopped: bool, rejection: Option<ResponseError>,
           model: string, resultId: string, usage: Option<Usage>, replay: Option<Message>,
           log: seq<EventBody>)

  function Initial(firstId: Id): Stream {
    Stream([], firstId, false, None, "", "", None, None, [InProgress])
  }

  /** The position of the text item, or the length of the list when there is none yet. */
  function TextPosition(items: seq<Item>): (p: nat)
    ensures p <= |items|
    ensures p < |items| ==> items[p].TextItem?
    ensures forall k :: 0 <= k < p ==> !items[k].TextItem?
  {
    if items == [] || items[0].TextItem? then 0 else 1 + TextPosition(items[1..])
  }

  predicate IsCall(item: Item, index: int) {
    item.CallItem? && item.streamIndex == index
  }

  /** The position of the call with this provider index, or the length of the list. */
  function CallPosition(items: seq<Item>, index: int): (p: nat)
    ensures p <= |items|
    ensures p < |items| ==> IsCall(items[p], index)
    ensures forall k :: 0 <= k < p ==> !IsCall(items[k], index)
  {
    if items == [] || IsCall(items[0], index) then 0 else 1 + CallPosition(items[1..], index)
  }

  function OpenText(s: Stream): Stream {
    var k := |s.items|;
    s.(items := s.items + [TextItem(s.nextId, "")],
       nextId := s.nextId + 1,
       log := s.log + [ItemAdded(k, MessageItem(s.nextId, Running, [])), PartAdded(s.nextId, k, TextPart(""))])
  }

  function ExtendText(s: Stream, p: nat, text: string): Stream
    requires p < |s.items| && s.items[p].TextItem?
  {
    var item := s.items[p];
    s.(items := s.items[p := item.(text := item.text + text)],
       log := s.log + [TextDelta(item.id, p, text)])
  }

  function ApplyText(s: Stream, text: string): Stream {
    if text == "" then s
    else if TextPosition(s.items) < |s.items| then ExtendText(s, TextPosition(s.items), text)
    else ExtendText(OpenText(s), |s.items|, text)
  }

  function Reject(s: Stream, error: Option<ResponseError>): Stream {
    s.(stopped := true, rejection := error)
  }

  /** The first delta of a call: the call joins the list, and is announced unless policy forbids it. */
  function OpenCall(policy: Policy, s: Stream, tc: ToolCallDelta): Stream {
    var k := |s.items|;
    var t := s.(items := s.items + [CallItem(s.nextId, tc.index, tc.id, tc.name, "")], nextId := s.nextId + 1);
    if ValidateToolCallName(policy, tc.name).Some? then Reject(t, ValidateToolCallName(policy, tc.name))
    else t.(log := t.log + [ItemAdded(k, FunctionCallItem(s.nextId, Running, tc.id, tc.name, ""))])
  }

  /** Any delta of an announced call: late id, late name (checked), then a piece of the arguments. */
  function ExtendCall(policy: Policy, s: Stream, p: nat, tc: ToolCallDelta): Stream
    requires p < |s.items| && s.items[p].CallItem?
  {
    var before := s.items[p];
    var item := before.(callId := FirstSet(before.callId, tc.id), name := FirstSet(before.name, tc.name));
    var t := s.(items := s.items[p := item]);
    if before.name == "" && tc.name != "" && ValidateToolCallName(policy, tc.name).Some?
    then Reject(t, ValidateToolCallName(policy, tc.name))
    else if tc.arguments == "" then t
    else
      t.(items := s.items[p := item.(arguments := item.arguments + tc.arguments)],
         log := t.log + [ArgumentsDelta(item.id, p, tc.arguments)])
  }

  function ApplyCall(policy: Policy, s: Stream, tc: ToolCallDelta): Stream {
    if CallPosition(s.items, tc.index) < |s.items|
    then ExtendCall(policy, s, CallPosition(s.items, tc.index), tc)
    else
      var t := OpenCall(policy, s, tc);
      if t.stopped then t else ExtendCall(policy, t, |s.items|, tc)
  }

  function ApplyTail(s: Stream, d: Delta): Stream {
    s.(usage := if d.usage.Some? then d.usage else s.usage,
       replay := if d.replay.Some? then d.replay else s.replay,
       stopped := d.done)
  }

  function ApplyHead(s: Stream, d: Delta): Stream {
    ApplyText(s.(model := FirstSet(s.model, d.model), resultId := FirstSet(s.resultId, d.id)), d.text)
  }

  /** One iteration of the receive loop. */
  function Apply(policy: Policy, s: Stream, d: Delta): Stream
    requires !s.stopped
  {
    var t := ApplyHead(s, d);
    var u := if d.tool.Some? then ApplyCall(policy, t, d.tool.value) else t;
    if u.stopped then u else ApplyTail(u, d)
  }

  /** The loop over everything the provider sends; deltas after the loop is left are not read. */
  function Fold(policy: Policy, firstId: Id, deltas: seq<Delta>): Stream {
    if deltas == [] then Initial(firstId)
    else
      var s := Fold(policy, firstId, deltas[..|deltas| - 1]);
      if s.stopped then s else Apply(policy, s, deltas[|deltas| - 1])
  }

  /** Nothing is read once the loop is left. */
  lemma {:induction false} FoldStopped(policy: Policy, firstId: Id, deltas: seq<Delta>, i: nat)
    requires i <= |deltas| && Fold(policy, firstId, deltas[..i]).stopped
    ensures Fold(policy, firstId, deltas) == Fold(policy, firstId, deltas[..i])
  {
    hide Apply;
    if i == |deltas| {
      assert deltas[..i] == deltas;
    } else {
      var n := |deltas| - 1;
      assert deltas[..n][..i] == deltas[..i];
      FoldStopped(policy, firstId, deltas[..n], i);
    }
  }

  function TextIn(items: seq<Item>): string {
    var p := TextPosition(items);
    if p < |items| then items[p].text else ""
  }

  function CallsIn(items: seq<Item>): seq<ToolCall> {
    if items == [] then []
    else
      var last := items[|items| - 1];
      var rest := CallsIn(items[..|items| - 1]);
      if last.CallItem? then rest + [ToolCall(last.callId, last.name, last.arguments)] else rest
  }

  function FinishedItem(item: Item): OutputItem {
    match item
    case TextItem(id, text) => MessageItem(id, Complete, [TextPart(text)])
    case CallItem(id, _, callId, name, arguments) => FunctionCallItem(id, Complete, callId, name, arguments)
  }

  function OutputOf(items: seq<Item>): seq<OutputItem> {
    seq(|items|, k requires 0 <= k < |items| => FinishedItem(items[k]))
  }

  /** The provider result that the stream amounts to. */
  function ResultOf(s: Stream, requestModel: string): ProviderResult {
    ProviderResult(s.resultId, FirstSet(s.model, requestModel), TextIn(s.items),
                   if s.usage.Some? then s.usage.value else EMPTY_USAGE, CallsIn(s.items), s.replay)
  }

  /** How the channel loop was left other than by `done`: end of stream, or an error. */
  datatype Ending = Ended | Broke(message: string) | BreakerOpen

  function EndingError(e: Ending): Option<ResponseError> {
    match e
    case Ended => None
    case Broke(message) => Some(ProviderFailed(message))
    case BreakerOpen => Some(ProviderUnavailable)
  }

  /** The error a run ends with: a rejected call, else the channel's error, else the final check. */
  function FinalError(policy: Policy, s: Stream, e: Ending): Option<ResponseError> {
    if s.rejection.Some? then s.rejection
    else if !s.stopped && EndingError(e).Some? then EndingError(e)
    else Verdict(policy, CallsIn(s.items))
  }

  function TextDoneEvents(items: seq<Item>): seq<EventBody> {
    var p := TextPosition(items);
    if p == |items| then []
    else
      var item := items[p];
      [TextDone(item.id, p, item.text), PartDone(item.id, p, TextPart(item.text)), ItemDone(p, FinishedItem(item))]
  }

  /** The closing events of the calls among the first `n` items, in output order. */
  function CallDoneEvents(items: seq<Item>, n: nat): seq<EventBody>
    requires n <= |items|
  {
    if n == 0 then []
    else
      var item := items[n - 1];
      CallDoneEvents(items, n - 1) + if item.CallItem? then CallDone(n - 1, item) else []
  }

  function CallDone(k: nat, item: Item): seq<EventBody>
    requires item.CallItem?
  {
    [ArgumentsDone(item.id, k, item.arguments), ItemDone(k, FinishedItem(item))]
  }

  function CompletedResponse(s: Stream, requestModel: string): Response {
    var result := ResultOf(s, requestModel);
    Response(FirstSet(result.model, requestModel), OutputOf(s.items), result.usage)
  }

  function ClosingEvents(policy: Policy, s: Stream, e: Ending, requestModel: string): seq<EventBody> {
    if FinalError(policy, s, e).Some? then [Failed(FinalError(policy, s, e).value)]
    else
      TextDoneEvents(s.items) + CallDoneEvents(s.items, |s.items|) + [Completed(CompletedResponse(s, requestModel))]
  }

  /** Every event of a run that the client did not cut, in order. */
  function Trace(policy: Policy, firstId: Id, deltas: seq<Delta>, e: Ending, requestModel: string): seq<EventBody> {
    var s := Fold(policy, firstId, deltas);
    s.log + ClosingEvents(policy, s, e, requestModel)
  }

  /** At most one text item, and at most one item per provider index. */
  ghost predicate WellShaped(items: seq<Item>) {
    && (forall i, j :: 0 <= i < j < |items| ==> !(items[i].TextItem? && items[j].TextItem?))
    && (forall i, j :: 0 <= i < j < |items| && items[i].CallItem? ==> !IsCall(items[j], items[i].streamIndex))
  }

  lemma ReplaceKeepsShape(items: seq<Item>, p: nat, item: Item)
    requires WellShaped(items) && p < |items|
    requires item.TextItem? <==> items[p].TextItem?
    requires item.CallItem? ==> item.streamIndex == items[p].streamIndex
    ensures WellShaped(items[p := item])
  {
  }

  lemma AppendCallKeepsShape(items: seq<Item>, item: Item)
    requires WellShaped(items) && item.CallItem? && CallPosition(items, item.streamIndex) == |items|
    ensures WellShaped(items + [item])
  {
  }

  lemma ApplyTextKeepsShape(s: Stream, text: string)
    requires WellShaped(s.items)
    ensures WellShaped(ApplyText(s, text).items)
  {
    var p := TextPosition(s.items);
    if text != "" {
      var t := if p < |s.items| then s else OpenText(s);
      ReplaceKeepsShape(t.items, p, t.items[p].(text := t.items[p].text + text));
    }
  }

  lemma ExtendCallKeepsShape(policy: Policy, s: Stream, p: nat, tc: ToolCallDelta)
    requires WellShaped(s.items) && p < |s.items| && s.items[p].CallItem?
    ensures WellShaped(ExtendCall(policy, s, p, tc).items)
  {
    ReplaceKeepsShape(s.items, p, ExtendCall(policy, s, p, tc).items[p]);
  }

  lemma ApplyCallKeepsShape(policy: Policy, s: Stream, tc: ToolCallDelta)
    requires WellShaped(s.items)
    ensures WellShaped(ApplyCall(policy, s, tc).items)
  {
    var p := CallPosition(s.items, tc.index);
    if p < |s.items| {
      ExtendCallKeepsShape(policy, s, p, tc);
    } else if !OpenCall(policy, s, tc).stopped {
      ExtendCallKeepsShape(policy, OpenCall(policy, s, tc), p, tc);
    }
  }

  lemma {:induction false} FoldIsWellShaped(policy: Policy, firstId: Id, deltas: seq<Delta>)
    ensures WellShaped(Fold(policy, firstId, deltas).items)
  {
    if deltas != [] {
      var n := |deltas| - 1;
      FoldIsWellShaped(policy, firstId, deltas[..n]);
      var s := Fold(policy, firstId, deltas[..n]);
      if !s.stopped {
        var t := ApplyHead(s, deltas[n]);
        ApplyTextKeepsShape(s.(model := t.model, resultId := t.resultId), deltas[n].text);
        if deltas[n].tool.Some? {
          ApplyCallKeepsShape(policy, t, deltas[n].tool.value);
        }
      }
    }
  }
}

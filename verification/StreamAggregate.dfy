/** What a sequence of provider deltas amounts to, defined without the receive loop: each field of the
    aggregated result is its own projection of the deltas.  The loop of `handleStreamingResponse`
    is shown to compute exactly these, and its early tool checks to be exact. */
module StreamAggregate {
  import opened Api
  import opened ToolPolicy
  import opened StreamSpec

  predicate HasDone(ds: seq<Delta>) {
    ds != [] && ds[|ds| - 1].done
  }

  /** The deltas up to and including the first `done`. */
  function UpToDone(ds: seq<Delta>): (r: seq<Delta>)
    ensures r <= ds
    ensures !HasDone(r) ==> r == ds
  {
    if ds == [] then []
    else
      var p := UpToDone(ds[..|ds| - 1]);
      if HasDone(p) then p else ds
  }

  function TextOf(ds: seq<Delta>): string {
    if ds == [] then "" else TextOf(ds[..|ds| - 1]) + ds[|ds| - 1].text
  }

  predicate Touches(d: Delta, index: int) {
    d.tool.Some? && d.tool.value.index == index
  }

  function ArgumentsOf(ds: seq<Delta>, index: int): string {
    if ds == [] then ""
    else
      var d := ds[|ds| - 1];
      ArgumentsOf(ds[..|ds| - 1], index) + if Touches(d, index) then d.tool.value.arguments else ""
  }

  function CallIdOf(ds: seq<Delta>, index: int): string {
    if ds == [] then ""
    else
      var d := ds[|ds| - 1];
      FirstSet(CallIdOf(ds[..|ds| - 1], index), if Touches(d, index) then d.tool.value.id else "")
  }

  function NameOf(ds: seq<Delta>, index: int): string {
    if ds == [] then ""
    else
      var d := ds[|ds| - 1];
      FirstSet(NameOf(ds[..|ds| - 1], index), if Touches(d, index) then d.tool.value.name else "")
  }

  /** The provider's call indices in order of first appearance. */
  function CallOrder(ds: seq<Delta>): seq<int> {
    if ds == [] then []
    else
      var d := ds[|ds| - 1];
      var order := CallOrder(ds[..|ds| - 1]);
      if d.tool.Some? && d.tool.value.index !in order then order + [d.tool.value.index] else order
  }

  function CallOf(ds: seq<Delta>, index: int): ToolCall {
    ToolCall(CallIdOf(ds, index), NameOf(ds, index), ArgumentsOf(ds, index))
  }

  function CallsOf(ds: seq<Delta>): seq<ToolCall> {
    var order := CallOrder(ds);
    seq(|order|, k requires 0 <= k < |order| => CallOf(ds, order[k]))
  }

  function ModelOf(ds: seq<Delta>): string {
    if ds == [] then "" else FirstSet(ModelOf(ds[..|ds| - 1]), ds[|ds| - 1].model)
  }

  function ResultIdOf(ds: seq<Delta>): string {
    if ds == [] then "" else FirstSet(ResultIdOf(ds[..|ds| - 1]), ds[|ds| - 1].id)
  }

  function UsageOf(ds: seq<Delta>): Option<Usage> {
    if ds == [] then None
    else if ds[|ds| - 1].usage.Some? then ds[|ds| - 1].usage
    else UsageOf(ds[..|ds| - 1])
  }

  function ReplayOf(ds: seq<Delta>): Option<Message> {
    if ds == [] then None
    else if ds[|ds| - 1].replay.Some? then ds[|ds| - 1].replay
    else ReplayOf(ds[..|ds| - 1])
  }

  /** The result that the deltas are a chunking of. */
  function Aggregate(ds: seq<Delta>, requestModel: string): ProviderResult {
    ProviderResult(ResultIdOf(ds), FirstSet(ModelOf(ds), requestModel), TextOf(ds),
                   if UsageOf(ds).Some? then UsageOf(ds).value else EMPTY_USAGE, CallsOf(ds), ReplayOf(ds))
  }

  function CallIndices(items: seq<Item>): seq<int> {
    if items == [] then []
    else
      var last := items[|items| - 1];
      CallIndices(items[..|items| - 1]) + if last.CallItem? then [last.streamIndex] else []
  }

  lemma {:induction false} CallIndicesMembers(items: seq<Item>, index: int)
    ensures index in CallIndices(items) <==> exists k :: 0 <= k < |items| && IsCall(items[k], index)
  {
    if items != [] {
      var init := items[..|items| - 1];
      CallIndicesMembers(init, index);
      assert IsCall(items[|items| - 1], index) || forall k :: 0 <= k < |items| && IsCall(items[k], index) ==> IsCall(init[k], index);
      assert forall k :: 0 <= k < |init| && IsCall(init[k], index) ==> IsCall(items[k], index);
    }
  }

  lemma {:induction false} CallIndicesSame(a: seq<Item>, b: seq<Item>)
    requires |a| == |b|
    requires forall k :: 0 <= k < |a| ==> (a[k].CallItem? <==> b[k].CallItem?)
    requires forall k :: 0 <= k < |a| ==> a[k].CallItem? ==> a[k].streamIndex == b[k].streamIndex
    ensures CallIndices(a) == CallIndices(b)
  {
    if a != [] {
      CallIndicesSame(a[..|a| - 1], b[..|b| - 1]);
    }
  }

  lemma {:induction false} CallsByIndex(items: seq<Item>, ds: seq<Delta>)
    requires forall k :: 0 <= k < |items| && items[k].CallItem? ==>
               ToolCall(items[k].callId, items[k].name, items[k].arguments) == CallOf(ds, items[k].streamIndex)
    ensures CallsIn(items) == seq(|CallIndices(items)|, k requires 0 <= k < |CallIndices(items)| => CallOf(ds, CallIndices(items)[k]))
  {
    if items != [] {
      CallsByIndex(items[..|items| - 1], ds);
    }
  }

  ghost predicate CallsAgree(items: seq<Item>, ds: seq<Delta>) {
    && CallIndices(items) == CallOrder(ds)
    && forall k :: 0 <= k < |items| && items[k].CallItem? ==>
         ToolCall(items[k].callId, items[k].name, items[k].arguments) == CallOf(ds, items[k].streamIndex)
  }

  ghost predicate TextAgrees(items: seq<Item>, ds: seq<Delta>) {
    && TextIn(items) == TextOf(ds)
    && (TextPosition(items) < |items| ==> TextOf(ds) != "")
  }

  ghost predicate NamesAllowed(policy: Policy, items: seq<Item>) {
    forall k :: 0 <= k < |items| && items[k].CallItem? ==> ValidateToolCallName(policy, items[k].name).None?
  }

  ghost predicate CallPartAgrees(policy: Policy, items: seq<Item>, ds: seq<Delta>) {
    WellShaped(items) && CallsAgree(items, ds) && NamesAllowed(policy, items)
  }

  /** The loop state after the deltas `ds` is what the projections of `ds` say. */
  ghost predicate Agrees(policy: Policy, s: Stream, ds: seq<Delta>) {
    && TextAgrees(s.items, ds)
    && CallPartAgrees(policy, s.items, ds)
    && s.model == ModelOf(ds) && s.resultId == ResultIdOf(ds)
    && s.usage == UsageOf(ds) && s.replay == ReplayOf(ds)
  }

  /** Some call of `ds` bears a name that policy refuses. */
  ghost predicate Condemned(policy: Policy, ds: seq<Delta>) {
    exists index :: index in CallOrder(ds) && ValidateToolCallName(policy, NameOf(ds, index)).Some?
  }

  lemma CondemnedForGood(policy: Policy, ds: seq<Delta>, d: Delta)
    requires Condemned(policy, ds)
    ensures Condemned(policy, ds + [d])
  {
    assert (ds + [d])[..|ds|] == ds;
    var index :| index in CallOrder(ds) && ValidateToolCallName(policy, NameOf(ds, index)).Some?;
    if NameOf(ds, index) == "" {
      UnnamedRejectionIsFinal(policy, NameOf(ds + [d], index));
    }
    assert index in CallOrder(ds + [d]);
  }

  lemma TextPositionKept(a: seq<Item>, b: seq<Item>)
    requires |a| <= |b|
    requires forall k :: 0 <= k < |a| ==> (a[k].TextItem? <==> b[k].TextItem?)
    requires forall k :: |a| <= k < |b| ==> !b[k].TextItem?
    ensures TextPosition(b) == if TextPosition(a) < |a| then TextPosition(a) else |b|
  {
    var p, q := TextPosition(a), TextPosition(b);
    if q < |b| {
      assert b[q].TextItem?;
    }
    if p < |a| {
      assert b[p].TextItem?;
    }
  }

  ghost predicate SameCalls(a: seq<Item>, b: seq<Item>) {
    && CallIndices(a) == CallIndices(b)
    && |a| >= |b|
    && (forall k :: 0 <= k < |a| && a[k].CallItem? ==> k < |b| && a[k] == b[k])
  }

  lemma OpenTextAgrees(s: Stream)
    requires TextPosition(s.items) == |s.items| && WellShaped(s.items)
    ensures SameCalls(OpenText(s).items, s.items) && WellShaped(OpenText(s).items)
  {
    assert OpenText(s).items[..|s.items|] == s.items;
  }

  lemma ExtendTextAgrees(s: Stream, p: nat, text: string)
    requires WellShaped(s.items) && p < |s.items| && s.items[p].TextItem?
    ensures var t := ExtendText(s, p, text);
            TextIn(t.items) == s.items[p].text + text && TextPosition(t.items) < |t.items| && SameCalls(t.items, s.items)
  {
    var t := ExtendText(s, p, text);
    CallIndicesSame(t.items, s.items);
    TextPositionKept(s.items, t.items);
    assert TextPosition(s.items) == p;
  }

  lemma FirstTextAgrees(s: Stream, text: string)
    requires WellShaped(s.items) && TextPosition(s.items) == |s.items|
    ensures var t := ExtendText(OpenText(s), |s.items|, text);
            TextIn(t.items) == text && TextPosition(t.items) < |t.items| && SameCalls(t.items, s.items)
  {
    OpenTextAgrees(s);
    var u := OpenText(s);
    ExtendTextAgrees(u, |s.items|, text);
    assert u.items[|s.items|].text + text == text;
  }

  lemma ApplyTextAgrees(s: Stream, text: string)
    requires WellShaped(s.items)
    ensures var t := ApplyText(s, text);
            && TextIn(t.items) == TextIn(s.items) + text
            && (TextPosition(t.items) < |t.items| <==> TextPosition(s.items) < |s.items| || text != "")
            && SameCalls(t.items, s.items)
  {
    var p := TextPosition(s.items);
    if text == "" {
      assert TextIn(s.items) + text == TextIn(s.items);
    } else if p < |s.items| {
      ExtendTextAgrees(s, p, text);
    } else {
      FirstTextAgrees(s, text);
      assert TextIn(s.items) + text == text;
    }
  }

  lemma OpenCallAgrees(items: seq<Item>, id: Id, ds: seq<Delta>, d: Delta)
    requires CallsAgree(items, ds) && d.tool.Some? && d.tool.value.index !in CallOrder(ds)
    ensures CallIdOf(ds, d.tool.value.index) == NameOf(ds, d.tool.value.index) == ArgumentsOf(ds, d.tool.value.index) == ""
    ensures CallIndices(items + [CallItem(id, d.tool.value.index, d.tool.value.id, d.tool.value.name, "")]) == CallOrder(ds + [d])
  {
    UntouchedIsEmpty(ds, d.tool.value.index);
    var item := CallItem(id, d.tool.value.index, d.tool.value.id, d.tool.value.name, "");
    assert (items + [item])[..|items|] == items;
    assert (ds + [d])[..|ds|] == ds;
  }

  lemma {:induction false} UntouchedIsEmpty(ds: seq<Delta>, index: int)
    requires index !in CallOrder(ds)
    ensures CallIdOf(ds, index) == NameOf(ds, index) == ArgumentsOf(ds, index) == ""
  {
    if ds != [] {
      UntouchedIsEmpty(ds[..|ds| - 1], index);
    }
  }

  /** One more delta changes the projections of the call it touches, and of no other. */
  lemma OneMoreDelta(ds: seq<Delta>, d: Delta, index: int)
    ensures !Touches(d, index) ==> CallOf(ds + [d], index) == CallOf(ds, index)
    ensures Touches(d, index) ==>
              CallOf(ds + [d], index) ==
              ToolCall(FirstSet(CallIdOf(ds, index), d.tool.value.id), FirstSet(NameOf(ds, index), d.tool.value.name),
                       ArgumentsOf(ds, index) + d.tool.value.arguments)
  {
    assert (ds + [d])[..|ds|] == ds;
  }

  ghost predicate CallAgrees(item: Item, ds: seq<Delta>) {
    item.CallItem? ==> ToolCall(item.callId, item.name, item.arguments) == CallOf(ds, item.streamIndex)
  }

  lemma ExtendCallAgrees(policy: Policy, s: Stream, p: nat, ds: seq<Delta>, d: Delta)
    requires WellShaped(s.items) && !s.stopped && s.rejection.None?
    requires d.tool.Some? && p < |s.items| && IsCall(s.items[p], d.tool.value.index)
    requires CallIndices(s.items) == CallOrder(ds + [d]) && NamesAllowed(policy, s.items)
    requires forall k :: 0 <= k < |s.items| && k != p ==> CallAgrees(s.items[k], ds)
    requires FirstSet(s.items[p].callId, d.tool.value.id) == CallIdOf(ds + [d], d.tool.value.index)
    requires FirstSet(s.items[p].name, d.tool.value.name) == NameOf(ds + [d], d.tool.value.index)
    requires s.items[p].arguments == ArgumentsOf(ds, d.tool.value.index)
    ensures var t := ExtendCall(policy, s, p, d.tool.value);
            if t.stopped then t.rejection.Some? && Condemned(policy, ds + [d])
            else t.rejection.None? && CallsAgree(t.items, ds + [d]) && NamesAllowed(policy, t.items)
  {
    var index := d.tool.value.index;
    var t := ExtendCall(policy, s, p, d.tool.value);
    CallIndicesSame(t.items, s.items);
    CallIndicesMembers(s.items, index);
    OneMoreDelta(ds, d, index);
    forall k | 0 <= k < |t.items| && k != p ensures t.items[k] == s.items[k] && CallAgrees(t.items[k], ds + [d]) {
      if s.items[k].CallItem? {
        assert !IsCall(s.items[k], index);
        assert CallAgrees(s.items[k], ds);
        OneMoreDelta(ds, d, s.items[k].streamIndex);
      }
    }
    if t.stopped {
      assert index in CallOrder(ds + [d]) && ValidateToolCallName(policy, NameOf(ds + [d], index)).Some?;
    } else {
      assert CallAgrees(t.items[p], ds + [d]);
      forall k | 0 <= k < |t.items| && t.items[k].CallItem?
        ensures ToolCall(t.items[k].callId, t.items[k].name, t.items[k].arguments) == CallOf(ds + [d], t.items[k].streamIndex)
      {
        assert CallAgrees(t.items[k], ds + [d]);
      }
    }
  }

  lemma KnownCallAgrees(policy: Policy, s: Stream, ds: seq<Delta>, d: Delta)
    requires WellShaped(s.items) && !s.stopped && s.rejection.None? && d.tool.Some?
    requires CallsAgree(s.items, ds) && NamesAllowed(policy, s.items)
    requires CallPosition(s.items, d.tool.value.index) < |s.items|
    ensures var t := ExtendCall(policy, s, CallPosition(s.items, d.tool.value.index), d.tool.value);
            if t.stopped then t.rejection.Some? && Condemned(policy, ds + [d])
            else t.rejection.None? && CallsAgree(t.items, ds + [d]) && NamesAllowed(policy, t.items)
  {
    var index := d.tool.value.index;
    CallIndicesMembers(s.items, index);
    assert index in CallOrder(ds);
    OneMoreDelta(ds, d, index);
    assert (ds + [d])[..|ds|] == ds;
    assert CallOrder(ds + [d]) == CallOrder(ds);
    ExtendCallAgrees(policy, s, CallPosition(s.items, index), ds, d);
  }

  lemma OpenedCallAgrees(policy: Policy, s: Stream, ds: seq<Delta>, d: Delta)
    requires WellShaped(s.items) && !s.stopped && s.rejection.None? && d.tool.Some?
    requires CallsAgree(s.items, ds) && NamesAllowed(policy, s.items)
    requires CallPosition(s.items, d.tool.value.index) == |s.items|
    ensures var t, tc := OpenCall(policy, s, d.tool.value), d.tool.value;
            && |t.items| == |s.items| + 1 && IsCall(t.items[|s.items|], tc.index)
            && WellShaped(t.items)
            && CallIndices(t.items) == CallOrder(ds + [d])
            && (forall k :: 0 <= k < |s.items| ==> CallAgrees(t.items[k], ds))
            && FirstSet(t.items[|s.items|].callId, tc.id) == CallIdOf(ds + [d], tc.index)
            && FirstSet(t.items[|s.items|].name, tc.name) == NameOf(ds + [d], tc.index)
            && t.items[|s.items|].arguments == ArgumentsOf(ds, tc.index)
            && if t.stopped then t.rejection.Some? && Condemned(policy, ds + [d])
               else t.rejection.None? && NamesAllowed(policy, t.items)
  {
    var tc := d.tool.value;
    CallIndicesMembers(s.items, tc.index);
    OneMoreDelta(ds, d, tc.index);
    OpenCallAgrees(s.items, s.nextId, ds, d);
    AppendCallKeepsShape(s.items, CallItem(s.nextId, tc.index, tc.id, tc.name, ""));
    FirstNamed(policy, ds, d);
    hide WellShaped, Condemned, CallIndices, CallOrder, CallOf, CallIdOf, NameOf, ArgumentsOf;
  }

  lemma FirstNamed(policy: Policy, ds: seq<Delta>, d: Delta)
    requires d.tool.Some? && d.tool.value.index !in CallOrder(ds)
    ensures ValidateToolCallName(policy, d.tool.value.name).Some? ==> Condemned(policy, ds + [d])
  {
    var index := d.tool.value.index;
    UntouchedIsEmpty(ds, index);
    OneMoreDelta(ds, d, index);
    assert index in CallOrder(ds + [d]) by {
      assert (ds + [d])[..|ds|] == ds;
    }
    assert NameOf(ds + [d], index) == d.tool.value.name;
  }

  lemma NewCallAgrees(policy: Policy, s: Stream, ds: seq<Delta>, d: Delta)
    requires WellShaped(s.items) && !s.stopped && s.rejection.None? && d.tool.Some?
    requires CallsAgree(s.items, ds) && NamesAllowed(policy, s.items)
    requires CallPosition(s.items, d.tool.value.index) == |s.items|
    ensures var t := OpenCall(policy, s, d.tool.value);
            if t.stopped then t.rejection.Some? && Condemned(policy, ds + [d])
            else
              |t.items| > |s.items| && t.items[|s.items|].CallItem? &&
              var u := ExtendCall(policy, t, |s.items|, d.tool.value);
              if u.stopped then u.rejection.Some? && Condemned(policy, ds + [d])
              else u.rejection.None? && CallsAgree(u.items, ds + [d]) && NamesAllowed(policy, u.items)
  {
    OpenedCallAgrees(policy, s, ds, d);
    hide WellShaped, Condemned, OpenCall, NamesAllowed, CallsAgree, CallAgrees, ExtendCall;
    if !OpenCall(policy, s, d.tool.value).stopped {
      ExtendCallAgrees(policy, OpenCall(policy, s, d.tool.value), |s.items|, ds, d);
    }
  }

  lemma ApplyCallAgrees(policy: Policy, s: Stream, ds: seq<Delta>, d: Delta)
    requires WellShaped(s.items) && !s.stopped && s.rejection.None? && d.tool.Some?
    requires CallsAgree(s.items, ds) && NamesAllowed(policy, s.items)
    ensures var t := ApplyCall(policy, s, d.tool.value);
            if t.stopped then t.rejection.Some? && Condemned(policy, ds + [d])
            else t.rejection.None? && CallsAgree(t.items, ds + [d]) && NamesAllowed(policy, t.items)
  {
    hide WellShaped, CallsAgree, NamesAllowed, Condemned, ExtendCall, OpenCall;
    if CallPosition(s.items, d.tool.value.index) < |s.items| {
      KnownCallAgrees(policy, s, ds, d);
    } else {
      NewCallAgrees(policy, s, ds, d);
    }
  }

  ghost predicate SameButCalls(s: Stream, t: Stream) {
    && TextIn(t.items) == TextIn(s.items)
    && (TextPosition(t.items) < |t.items| <==> TextPosition(s.items) < |s.items|)
    && t.model == s.model && t.resultId == s.resultId && t.usage == s.usage && t.replay == s.replay
  }

  lemma ExtendCallKeepsText(policy: Policy, s: Stream, p: nat, tc: ToolCallDelta)
    requires p < |s.items| && s.items[p].CallItem?
    ensures SameButCalls(s, ExtendCall(policy, s, p, tc))
  {
    TextPositionKept(s.items, ExtendCall(policy, s, p, tc).items);
  }

  lemma ApplyCallKeepsText(policy: Policy, s: Stream, tc: ToolCallDelta)
    ensures SameButCalls(s, ApplyCall(policy, s, tc))
  {
    var p := CallPosition(s.items, tc.index);
    if p < |s.items| {
      ExtendCallKeepsText(policy, s, p, tc);
    } else {
      var t := OpenCall(policy, s, tc);
      TextPositionKept(s.items, t.items);
      assert SameButCalls(s, t);
      if !t.stopped {
        ExtendCallKeepsText(policy, t, p, tc);
      }
    }
  }

  lemma InitialAgrees(policy: Policy, firstId: Id)
    ensures Agrees(policy, Initial(firstId), [])
  {
  }

  /** Whatever the chunking: either the loop has refused a call, and then some call of the deltas up to
      `done` bears a refused name; or its state is what those deltas amount to. */
  lemma {:induction false} FoldAgrees(policy: Policy, firstId: Id, ds: seq<Delta>)
    ensures var s := Fold(policy, firstId, ds);
            if s.rejection.Some? then s.stopped && Condemned(policy, UpToDone(ds))
            else Agrees(policy, s, UpToDone(ds)) && (s.stopped <==> HasDone(UpToDone(ds)))
  {
    hide Apply, Condemned, Agrees;
    if ds == [] {
      InitialAgrees(policy, firstId);
    } else {
      var n := |ds| - 1;
      var s, d := Fold(policy, firstId, ds[..n]), ds[n];
      FoldAgrees(policy, firstId, ds[..n]);
      assert ds == ds[..n] + [d];
      if s.rejection.Some? {
        if !HasDone(UpToDone(ds[..n])) {
          CondemnedForGood(policy, ds[..n], d);
        }
      } else if !s.stopped {
        ApplyAgrees(policy, s, ds[..n], d);
      }
    }
  }

  lemma HeadAgrees(policy: Policy, s: Stream, ds: seq<Delta>, d: Delta)
    requires TextAgrees(s.items, ds) && CallPartAgrees(policy, s.items, ds)
    ensures var t := ApplyHead(s, d);
            && TextAgrees(t.items, ds + [d]) && CallPartAgrees(policy, t.items, ds)
            && t.model == FirstSet(s.model, d.model) && t.resultId == FirstSet(s.resultId, d.id)
            && t.usage == s.usage && t.replay == s.replay && t.stopped == s.stopped && t.rejection == s.rejection
  {
    assert (ds + [d])[..|ds|] == ds;
    var h := s.(model := FirstSet(s.model, d.model), resultId := FirstSet(s.resultId, d.id));
    ApplyTextAgrees(h, d.text);
    ApplyTextKeepsShape(h, d.text);
    hide WellShaped;
    var t := ApplyText(h, d.text);
    assert CallsAgree(t.items, ds);
  }

  lemma CallStepAgrees(policy: Policy, s: Stream, ds: seq<Delta>, d: Delta)
    requires TextAgrees(s.items, ds + [d]) && CallPartAgrees(policy, s.items, ds)
    requires !s.stopped && s.rejection.None? && d.tool.Some?
    ensures var t := ApplyCall(policy, s, d.tool.value);
            if t.stopped then t.rejection.Some? && Condemned(policy, ds + [d])
            else
              && t.rejection.None? && TextAgrees(t.items, ds + [d]) && CallPartAgrees(policy, t.items, ds + [d])
              && t.model == s.model && t.resultId == s.resultId && t.usage == s.usage && t.replay == s.replay
  {
    ApplyCallAgrees(policy, s, ds, d);
    ApplyCallKeepsText(policy, s, d.tool.value);
    ApplyCallKeepsShape(policy, s, d.tool.value);
    hide WellShaped, ApplyCall, CallsAgree, NamesAllowed, Condemned;
  }

  lemma MetaAgrees(ds: seq<Delta>, d: Delta)
    ensures ModelOf(ds + [d]) == FirstSet(ModelOf(ds), d.model) && ResultIdOf(ds + [d]) == FirstSet(ResultIdOf(ds), d.id)
    ensures UsageOf(ds + [d]) == if d.usage.Some? then d.usage else UsageOf(ds)
    ensures ReplayOf(ds + [d]) == if d.replay.Some? then d.replay else ReplayOf(ds)
  {
    assert (ds + [d])[..|ds|] == ds;
  }

  lemma ApplyAgrees(policy: Policy, s: Stream, ds: seq<Delta>, d: Delta)
    requires Agrees(policy, s, ds) && !s.stopped && s.rejection.None?
    ensures var t := Apply(policy, s, d);
            if t.rejection.Some? then t.stopped && Condemned(policy, ds + [d])
            else Agrees(policy, t, ds + [d]) && (t.stopped <==> d.done)
  {
    hide TextAgrees, CallPartAgrees, Condemned, ApplyHead, ApplyCall, ModelOf, ResultIdOf, UsageOf, ReplayOf;
    MetaAgrees(ds, d);
    HeadAgrees(policy, s, ds, d);
    if d.tool.Some? {
      CallStepAgrees(policy, ApplyHead(s, d), ds, d);
    } else {
      CallPartUntouched(policy, ApplyHead(s, d).items, ds, d);
    }
  }

  lemma CallPartUntouched(policy: Policy, items: seq<Item>, ds: seq<Delta>, d: Delta)
    requires CallPartAgrees(policy, items, ds) && d.tool.None?
    ensures CallPartAgrees(policy, items, ds + [d])
  {
    assert (ds + [d])[..|ds|] == ds;
    forall k | 0 <= k < |items| && items[k].CallItem?
      ensures CallOf(ds + [d], items[k].streamIndex) == CallOf(ds, items[k].streamIndex)
    {
      OneMoreDelta(ds, d, items[k].streamIndex);
    }
  }
}

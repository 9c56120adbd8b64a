/** What the client is sent while a stream runs, from the deltas' own fields (internal/server/server.go:755-842):
    one event for each piece, at once, and one announcement for each call, as it was first heard of.  The
    strict client of StreamClient fixes the indices and ids that these events carry. */
module StreamEvents {
  import opened Api
  import opened ToolPolicy
  import opened StreamSpec
  import opened StreamAggregate
  import opened StreamErrors

  datatype Call = Call(callId: string, name: string)

  function TextSent(log: seq<EventBody>): seq<string> {
    if log == [] then []
    else
      var before, e := TextSent(log[..|log| - 1]), log[|log| - 1];
      if e.TextDelta? then before + [e.delta] else before
  }

  function ArgumentsSent(log: seq<EventBody>): seq<string> {
    if log == [] then []
    else
      var before, e := ArgumentsSent(log[..|log| - 1]), log[|log| - 1];
      if e.ArgumentsDelta? then before + [e.delta] else before
  }

  function CallsAnnounced(log: seq<EventBody>): seq<Call> {
    if log == [] then []
    else
      var before, e := CallsAnnounced(log[..|log| - 1]), log[|log| - 1];
      if e.ItemAdded? && e.item.FunctionCallItem? then before + [Call(e.item.callId, e.item.name)] else before
  }

  /** The pieces of text that say something. */
  function TextPieces(ds: seq<Delta>): seq<string> {
    if ds == [] then []
    else
      var before, d := TextPieces(ds[..|ds| - 1]), ds[|ds| - 1];
      if d.text != "" then before + [d.text] else before
  }

  function ArgumentPieces(ds: seq<Delta>): seq<string> {
    if ds == [] then []
    else
      var before, d := ArgumentPieces(ds[..|ds| - 1]), ds[|ds| - 1];
      if d.tool.Some? && d.tool.value.arguments != "" then before + [d.tool.value.arguments] else before
  }

  /** Id and name in the first delta of each call. */
  function FirstHeard(ds: seq<Delta>): seq<Call> {
    if ds == [] then []
    else
      var init, d := ds[..|ds| - 1], ds[|ds| - 1];
      if d.tool.Some? && forall i :: 0 <= i < |init| ==> !(init[i].tool.Some? && init[i].tool.value.index == d.tool.value.index)
      then FirstHeard(init) + [Call(d.tool.value.id, d.tool.value.name)] else FirstHeard(init)
  }

  lemma OneEvent(log: seq<EventBody>, e: EventBody)
    ensures TextSent(log + [e]) == TextSent(log) + if e.TextDelta? then [e.delta] else []
    ensures ArgumentsSent(log + [e]) == ArgumentsSent(log) + if e.ArgumentsDelta? then [e.delta] else []
    ensures CallsAnnounced(log + [e]) ==
            CallsAnnounced(log) + if e.ItemAdded? && e.item.FunctionCallItem? then [Call(e.item.callId, e.item.name)] else []
  {
    assert (log + [e])[..|log|] == log;
  }

  lemma TwoEvents(log: seq<EventBody>, e: EventBody, f: EventBody)
    ensures log + [e, f] == log + [e] + [f]
  {
  }

  /** The same events but for these. */
  ghost predicate SentMore(before: seq<EventBody>, after: seq<EventBody>, texts: seq<string>, arguments: seq<string>, calls: seq<Call>) {
    && TextSent(after) == TextSent(before) + texts
    && ArgumentsSent(after) == ArgumentsSent(before) + arguments
    && CallsAnnounced(after) == CallsAnnounced(before) + calls
  }

  lemma HeadSends(s: Stream, d: Delta)
    ensures ApplyHead(s, d).stopped == s.stopped && ApplyHead(s, d).rejection == s.rejection
    ensures SentMore(s.log, ApplyHead(s, d).log, if d.text != "" then [d.text] else [], [], [])
  {
    var p := TextPosition(s.items);
    if d.text != "" {
      if p == |s.items| {
        var added, part := ItemAdded(p, MessageItem(s.nextId, Running, [])), PartAdded(s.nextId, p, TextPart(""));
        TwoEvents(s.log, added, part);
        OneEvent(s.log, added);
        OneEvent(s.log + [added], part);
        OneEvent(s.log + [added] + [part], TextDelta(s.nextId, p, d.text));
      } else {
        OneEvent(s.log, TextDelta(s.items[p].id, p, d.text));
      }
    }
    hide TextSent, ArgumentsSent, CallsAnnounced;
  }

  lemma ExtendSends(policy: Policy, s: Stream, p: nat, tc: ToolCallDelta)
    requires p < |s.items| && s.items[p].CallItem?
    ensures s.rejection.None? && ExtendCall(policy, s, p, tc).rejection.None? ==>
              SentMore(s.log, ExtendCall(policy, s, p, tc).log, [], if tc.arguments != "" then [tc.arguments] else [], [])
  {
    if tc.arguments != "" {
      OneEvent(s.log, ArgumentsDelta(s.items[p].id, p, tc.arguments));
    }
    hide TextSent, ArgumentsSent, CallsAnnounced;
  }

  lemma CallSends(policy: Policy, s: Stream, tc: ToolCallDelta)
    requires !s.stopped && s.rejection.None?
    ensures ApplyCall(policy, s, tc).rejection.None? ==>
              SentMore(s.log, ApplyCall(policy, s, tc).log, [], if tc.arguments != "" then [tc.arguments] else [],
                       if CallPosition(s.items, tc.index) < |s.items| then [] else [Call(tc.id, tc.name)])
  {
    var p := CallPosition(s.items, tc.index);
    if p < |s.items| {
      ExtendSends(policy, s, p, tc);
    } else {
      var t := OpenCall(policy, s, tc);
      if !t.stopped {
        OneEvent(s.log, ItemAdded(p, FunctionCallItem(s.nextId, Running, tc.id, tc.name, "")));
        ExtendSends(policy, t, p, tc);
      }
    }
    hide TextSent, ArgumentsSent, CallsAnnounced, ExtendCall;
  }

  lemma DeltaSends(policy: Policy, s: Stream, d: Delta)
    requires !s.stopped && s.rejection.None?
    ensures Apply(policy, s, d).rejection.None? ==>
              SentMore(s.log, Apply(policy, s, d).log, if d.text != "" then [d.text] else [],
                       if d.tool.Some? && d.tool.value.arguments != "" then [d.tool.value.arguments] else [],
                       if d.tool.Some? && CallPosition(ApplyHead(s, d).items, d.tool.value.index) == |ApplyHead(s, d).items|
                       then [Call(d.tool.value.id, d.tool.value.name)] else [])
  {
    hide ApplyHead, ApplyCall, SentMore;
    HeadSends(s, d);
    var t := ApplyHead(s, d);
    if d.tool.Some? {
      CallSends(policy, t, d.tool.value);
      var u, tc := ApplyCall(policy, t, d.tool.value), d.tool.value;
      if u.rejection.None? {
        SentInTurn(s.log, t.log, u.log, if d.text != "" then [d.text] else [], if tc.arguments != "" then [tc.arguments] else [],
                   if CallPosition(t.items, tc.index) < |t.items| then [] else [Call(tc.id, tc.name)]);
      }
    }
  }

  lemma SentInTurn(a: seq<EventBody>, b: seq<EventBody>, c: seq<EventBody>, texts: seq<string>, arguments: seq<string>, calls: seq<Call>)
    requires SentMore(a, b, texts, [], []) && SentMore(b, c, [], arguments, calls)
    ensures SentMore(a, c, texts, arguments, calls)
  {
    hide TextSent, ArgumentsSent, CallsAnnounced;
  }

  lemma {:induction false} TouchedIsInOrder(ds: seq<Delta>, k: int)
    ensures k in CallOrder(ds) <==> exists i :: 0 <= i < |ds| && ds[i].tool.Some? && ds[i].tool.value.index == k
  {
    if ds != [] {
      var init := ds[..|ds| - 1];
      TouchedIsInOrder(init, k);
      assert forall i :: 0 <= i < |init| ==> init[i] == ds[i];
    }
  }

  /** After any deltas that the loop has read without refusing a call: every piece of text and of arguments
      has been sent, once, in order, and every call was announced with the id and name it was first heard
      of with, in order of appearance.  Nothing is held back to a later delta. */
  lemma {:induction false} EverythingIsSentAtOnce(policy: Policy, firstId: Id, ds: seq<Delta>)
    ensures var log, read := Fold(policy, firstId, ds).log, UpToDone(ds);
            Fold(policy, firstId, ds).rejection.None? ==>
              && TextSent(log) == TextPieces(read)
              && ArgumentsSent(log) == ArgumentPieces(read)
              && CallsAnnounced(log) == FirstHeard(read)
  {
    hide Agrees, Condemned, Apply;
    if ds == [] {
      assert [InProgress][..0] == [];
    } else {
      var init, d := ds[..|ds| - 1], ds[|ds| - 1];
      var s := Fold(policy, firstId, init);
      FoldAgrees(policy, firstId, init);
      assert ds == init + [d];
      hide TextSent, ArgumentsSent, CallsAnnounced, TextPieces, ArgumentPieces, FirstHeard;
      EverythingIsSentAtOnce(policy, firstId, init);
      if !s.stopped && Apply(policy, s, d).rejection.None? {
        NextIsSent(policy, s, init, d);
      }
    }
  }

  lemma OneMorePiece(ds: seq<Delta>, d: Delta)
    ensures TextPieces(ds + [d]) == TextPieces(ds) + if d.text != "" then [d.text] else []
    ensures ArgumentPieces(ds + [d]) ==
            ArgumentPieces(ds) + if d.tool.Some? && d.tool.value.arguments != "" then [d.tool.value.arguments] else []
    ensures FirstHeard(ds + [d]) ==
            FirstHeard(ds) + if d.tool.Some? && d.tool.value.index !in CallOrder(ds) then [Call(d.tool.value.id, d.tool.value.name)] else []
  {
    assert (ds + [d])[..|ds|] == ds;
    if d.tool.Some? {
      TouchedIsInOrder(ds, d.tool.value.index);
    }
    hide CallOrder;
  }

  lemma CallIsNew(policy: Policy, s: Stream, ds: seq<Delta>, d: Delta, index: int)
    requires Agrees(policy, s, ds)
    ensures CallPosition(ApplyHead(s, d).items, index) == |ApplyHead(s, d).items| <==> index !in CallOrder(ds)
  {
    HeadAgrees(policy, s, ds, d);
    hide TextAgrees, CallPartAgrees, ApplyHead, CallOrder;
    NameBefore(policy, ApplyHead(s, d), ds, index);
  }

  lemma NextIsSent(policy: Policy, s: Stream, ds: seq<Delta>, d: Delta)
    requires !s.stopped && s.rejection.None? && Apply(policy, s, d).rejection.None? && Agrees(policy, s, ds)
    requires TextSent(s.log) == TextPieces(ds) && ArgumentsSent(s.log) == ArgumentPieces(ds) && CallsAnnounced(s.log) == FirstHeard(ds)
    ensures var log := Apply(policy, s, d).log;
            TextSent(log) == TextPieces(ds + [d]) && ArgumentsSent(log) == ArgumentPieces(ds + [d]) && CallsAnnounced(log) == FirstHeard(ds + [d])
  {
    hide Agrees, Apply, ApplyHead, TextSent, ArgumentsSent, CallsAnnounced, TextPieces, ArgumentPieces, FirstHeard, CallOrder;
    DeltaSends(policy, s, d);
    OneMorePiece(ds, d);
    if d.tool.Some? {
      CallIsNew(policy, s, ds, d, d.tool.value.index);
    }
  }

  ghost predicate Consecutive(s: Stream, firstId: Id) {
    s.nextId == firstId + |s.items| && forall k :: 0 <= k < |s.items| ==> s.items[k].id == firstId + k
  }

  lemma HeadIsConsecutive(s: Stream, d: Delta, firstId: Id)
    requires Consecutive(s, firstId)
    ensures Consecutive(ApplyHead(s, d), firstId) && ApplyHead(s, d).stopped == s.stopped
  {
  }

  lemma ExtendIsConsecutive(policy: Policy, s: Stream, p: nat, tc: ToolCallDelta, firstId: Id)
    requires p < |s.items| && s.items[p].CallItem? && Consecutive(s, firstId)
    ensures Consecutive(ExtendCall(policy, s, p, tc), firstId)
  {
    hide ValidateToolCallName;
  }

  lemma OpenIsConsecutive(policy: Policy, s: Stream, tc: ToolCallDelta, firstId: Id)
    requires Consecutive(s, firstId)
    ensures Consecutive(OpenCall(policy, s, tc), firstId)
  {
    hide ValidateToolCallName;
  }

  lemma StepIsConsecutive(policy: Policy, s: Stream, d: Delta, firstId: Id)
    requires Consecutive(s, firstId) && !s.stopped
    ensures Consecutive(Apply(policy, s, d), firstId)
  {
    HeadIsConsecutive(s, d, firstId);
    var t := ApplyHead(s, d);
    if d.tool.Some? {
      var tc, p := d.tool.value, CallPosition(t.items, d.tool.value.index);
      if p < |t.items| {
        ExtendIsConsecutive(policy, t, p, tc, firstId);
      } else {
        OpenIsConsecutive(policy, t, tc, firstId);
        if !OpenCall(policy, t, tc).stopped {
          ExtendIsConsecutive(policy, OpenCall(policy, t, tc), p, tc, firstId);
        }
      }
    }
    hide ApplyHead, ExtendCall;
  }

  /** Items get consecutive fresh ids, in order of appearance. */
  lemma {:induction false} IdsAreConsecutive(policy: Policy, firstId: Id, ds: seq<Delta>)
    ensures Consecutive(Fold(policy, firstId, ds), firstId)
  {
    hide Apply;
    if ds == [] {
      assert Consecutive(Initial(firstId), firstId);
    } else {
      hide Consecutive;
      var init := ds[..|ds| - 1];
      IdsAreConsecutive(policy, firstId, init);
      if !Fold(policy, firstId, init).stopped {
        StepIsConsecutive(policy, Fold(policy, firstId, init), ds[|ds| - 1], firstId);
      }
    }
  }
}

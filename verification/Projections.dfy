/** What the projections of a delta sequence are, from the deltas' own fields (internal/server/server.go:761-838):
    the laws that fix them. */
module Projections {
  import opened Api
  import opened StreamAggregate

  /** The piece of call `k` that one delta carries. */
  function PieceOf(d: Delta, k: int): ToolCall {
    if d.tool.Some? && d.tool.value.index == k then ToolCall(d.tool.value.id, d.tool.value.name, d.tool.value.arguments)
    else ToolCall("", "", "")
  }

  /** One delta: text, model, id, usage and native message are its own, and so is its piece of a call. */
  lemma OneDelta(d: Delta, k: int)
    ensures TextOf([d]) == d.text && ModelOf([d]) == d.model && ResultIdOf([d]) == d.id
    ensures UsageOf([d]) == d.usage && ReplayOf([d]) == d.replay
    ensures CallOf([d], k) == PieceOf(d, k)
    ensures CallOrder([d]) == if d.tool.Some? then [d.tool.value.index] else []
  {
    assert [d][..0] == [];
    assert "" + d.text == d.text;
    OneMoreDelta([], d, k);
    assert [] + [d] == [d];
    assert d.tool.Some? ==> "" + d.tool.value.arguments == d.tool.value.arguments;
  }

  lemma {:induction false} JoinedDeltas(a: seq<Delta>, b: seq<Delta>, k: int)
    ensures TextOf(a + b) == TextOf(a) + TextOf(b) && ArgumentsOf(a + b, k) == ArgumentsOf(a, k) + ArgumentsOf(b, k)
    decreases |b|
  {
    if b == [] {
      assert a + b == a;
      assert TextOf(a) + "" == TextOf(a) && ArgumentsOf(a, k) + "" == ArgumentsOf(a, k);
    } else {
      var n := |b| - 1;
      JoinedDeltas(a, b[..n], k);
      assert a + b == (a + b[..n]) + [b[n]] && b == b[..n] + [b[n]];
      LastDelta(a + b[..n], b[n], k);
      LastDelta(b[..n], b[n], k);
      Associative(TextOf(a), TextOf(b[..n]), b[n].text);
      if Touches(b[n], k) {
        Associative(ArgumentsOf(a, k), ArgumentsOf(b[..n], k), b[n].tool.value.arguments);
      }
      hide TextOf, ArgumentsOf, NameOf, CallIdOf, ModelOf, ResultIdOf, UsageOf, ReplayOf, CallOrder, Touches;
    }
  }

  /** More deltas: text and arguments are joined in order; the first name, call id, model and result id that
      is set stays; the last usage and native message win. */
  lemma {:induction false} MoreDeltas(a: seq<Delta>, b: seq<Delta>, k: int)
    ensures TextOf(a + b) == TextOf(a) + TextOf(b) && ArgumentsOf(a + b, k) == ArgumentsOf(a, k) + ArgumentsOf(b, k)
    ensures NameOf(a + b, k) == (if NameOf(a, k) != "" then NameOf(a, k) else NameOf(b, k))
    ensures CallIdOf(a + b, k) == (if CallIdOf(a, k) != "" then CallIdOf(a, k) else CallIdOf(b, k))
    ensures ModelOf(a + b) == (if ModelOf(a) != "" then ModelOf(a) else ModelOf(b))
    ensures ResultIdOf(a + b) == (if ResultIdOf(a) != "" then ResultIdOf(a) else ResultIdOf(b))
    ensures UsageOf(a + b) == (if UsageOf(b).Some? then UsageOf(b) else UsageOf(a))
    ensures ReplayOf(a + b) == (if ReplayOf(b).Some? then ReplayOf(b) else ReplayOf(a))
    decreases |b|
  {
    JoinedDeltas(a, b, k);
    hide TextOf, ArgumentsOf, NameOf, CallIdOf, ModelOf, ResultIdOf, UsageOf, ReplayOf, Touches;
    if b == [] {
      assert a + b == a;
      NoDeltas(k);
    } else {
      var n := |b| - 1;
      MoreDeltas(a, b[..n], k);
      assert a + b == (a + b[..n]) + [b[n]] && b == b[..n] + [b[n]];
      LastDelta(a + b[..n], b[n], k);
      LastDelta(b[..n], b[n], k);
    }
  }

  lemma NoDeltas(k: int)
    ensures NameOf([], k) == "" && CallIdOf([], k) == "" && ModelOf([]) == "" && ResultIdOf([]) == ""
    ensures UsageOf([]).None? && ReplayOf([]).None?
  {
  }

  /** The order of calls is only ever lengthened. */
  lemma {:induction false} OrderGrows(a: seq<Delta>, b: seq<Delta>)
    ensures CallOrder(a) <= CallOrder(a + b)
    decreases |b|
  {
    if b == [] {
      assert a + b == a;
    } else {
      var n := |b| - 1;
      OrderGrows(a, b[..n]);
      assert (a + b)[..|a| + n] == a + b[..n];
    }
  }

  lemma Associative(x: string, y: string, z: string)
    ensures x + y + z == x + (y + z)
  {
  }

  lemma LastDelta(ds: seq<Delta>, d: Delta, k: int)
    ensures TextOf(ds + [d]) == TextOf(ds) + d.text
    ensures ArgumentsOf(ds + [d], k) == (if Touches(d, k) then ArgumentsOf(ds, k) + d.tool.value.arguments else ArgumentsOf(ds, k))
    ensures NameOf(ds + [d], k) == (if NameOf(ds, k) != "" || !Touches(d, k) then NameOf(ds, k) else d.tool.value.name)
    ensures CallIdOf(ds + [d], k) == (if CallIdOf(ds, k) != "" || !Touches(d, k) then CallIdOf(ds, k) else d.tool.value.id)
    ensures ModelOf(ds + [d]) == (if ModelOf(ds) != "" then ModelOf(ds) else d.model)
    ensures ResultIdOf(ds + [d]) == (if ResultIdOf(ds) != "" then ResultIdOf(ds) else d.id)
    ensures UsageOf(ds + [d]) == (if d.usage.Some? then d.usage else UsageOf(ds))
    ensures ReplayOf(ds + [d]) == (if d.replay.Some? then d.replay else ReplayOf(ds))
  {
    assert (ds + [d])[..|ds|] == ds;
    assert ArgumentsOf(ds, k) + "" == ArgumentsOf(ds, k);
  }

  /** The calls are those that some delta touches, each once, in the order of their first deltas. */
  lemma {:induction false} CallsAppearInOrder(ds: seq<Delta>)
    ensures forall k :: k in CallOrder(ds) <==> exists i :: 0 <= i < |ds| && Touches(ds[i], k)
    ensures forall i, j :: 0 <= i < j < |CallOrder(ds)| ==> CallOrder(ds)[i] != CallOrder(ds)[j]
    ensures |CallsOf(ds)| == |CallOrder(ds)| && forall i :: 0 <= i < |CallOrder(ds)| ==> CallsOf(ds)[i] == CallOf(ds, CallOrder(ds)[i])
  {
    if ds != [] {
      var init, d := ds[..|ds| - 1], ds[|ds| - 1];
      CallsAppearInOrder(init);
      forall k ensures k in CallOrder(ds) <==> exists i :: 0 <= i < |ds| && Touches(ds[i], k) {
        if Touches(d, k) {
          assert Touches(ds[|ds| - 1], k);
        }
        assert forall i :: 0 <= i < |init| && Touches(init[i], k) ==> Touches(ds[i], k);
        assert forall i :: 0 <= i < |ds| && Touches(ds[i], k) && i < |init| ==> Touches(init[i], k);
      }
      hide CallOf, Touches;
    }
  }

  /** What is read: everything before the first `done` and that one, or everything when there is none. */
  lemma {:induction false} ReadsToTheFirstDone(ds: seq<Delta>)
    ensures var read := UpToDone(ds);
            && read <= ds
            && (forall i :: 0 <= i < |read| - 1 ==> !read[i].done)
            && (if exists i :: 0 <= i < |ds| && ds[i].done then read != [] && read[|read| - 1].done else read == ds)
  {
    if ds != [] {
      var init := ds[..|ds| - 1];
      ReadsToTheFirstDone(init);
      assert forall i :: 0 <= i < |init| ==> init[i] == ds[i];
    }
  }
}

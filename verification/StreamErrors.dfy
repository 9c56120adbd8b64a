/** Which call a refused turn blames.  The streaming loop leaves at the first refused name it hears; the
    synchronous path reads the finished calls in order.  Both refuse the same turns; this module says when
    they also name the same call (internal/server/server.go:797-823, 875-878, 1078-1090). */
module StreamErrors {
  import opened Api
  import opened ToolPolicy
  import opened StreamSpec
  import opened StreamAggregate

  /** How many deltas are read: the loop is left after the last of them. */
  function ReadCount(policy: Policy, firstId: Id, deltas: seq<Delta>): (n: nat)
    ensures n <= |deltas|
  {
    if deltas == [] then 0
    else if Fold(policy, firstId, deltas[..|deltas| - 1]).stopped then ReadCount(policy, firstId, deltas[..|deltas| - 1])
    else |deltas|
  }

  lemma {:induction false} ReadIsEnough(policy: Policy, firstId: Id, deltas: seq<Delta>)
    ensures var read := deltas[..ReadCount(policy, firstId, deltas)];
            && Fold(policy, firstId, read) == Fold(policy, firstId, deltas)
            && (read != [] ==> !Fold(policy, firstId, read[..|read| - 1]).stopped)
            && (Fold(policy, firstId, deltas).stopped ==> read != [])
  {
    hide Apply;
    if deltas != [] && Fold(policy, firstId, deltas[..|deltas| - 1]).stopped {
      var n := ReadCount(policy, firstId, deltas);
      ReadIsEnough(policy, firstId, deltas[..|deltas| - 1]);
      assert deltas[..|deltas| - 1][..n] == deltas[..n];
    } else {
      assert deltas[..|deltas|] == deltas;
    }
  }

  /** A refusal is about the name the delta brings, which the call did not have before. */
  lemma RefusedByName(policy: Policy, s: Stream, tc: ToolCallDelta)
    requires !s.stopped && s.rejection.None? && ApplyCall(policy, s, tc).rejection.Some?
    ensures ApplyCall(policy, s, tc).rejection == ValidateToolCallName(policy, tc.name)
    ensures var p := CallPosition(s.items, tc.index); p < |s.items| ==> s.items[p].name == "" && tc.name != ""
  {
  }

  /** Of the calls that have appeared when a delta is refused, exactly the one it touches bears a refused
      name, and that name's error is the run's. */
  lemma RefusalBlamesTheTouched(policy: Policy, firstId: Id, ds: seq<Delta>, d: Delta)
    requires !Fold(policy, firstId, ds).stopped && Fold(policy, firstId, ds + [d]).rejection.Some?
    ensures d.tool.Some? && d.tool.value.index in CallOrder(ds + [d])
    ensures Fold(policy, firstId, ds + [d]).rejection == ValidateToolCallName(policy, NameOf(ds + [d], d.tool.value.index))
    ensures forall index :: index in CallOrder(ds + [d]) && index != d.tool.value.index ==>
              ValidateToolCallName(policy, NameOf(ds + [d], index)).None?
    ensures UpToDone(ds) == ds && !HasDone(ds)
  {
    var s := Fold(policy, firstId, ds);
    assert (ds + [d])[..|ds|] == ds;
    FoldAgrees(policy, firstId, ds);
    var t := ApplyHead(s, d);
    HeadAgrees(policy, s, ds, d);
    assert d.tool.Some?;
    var tc := d.tool.value;
    RefusedByName(policy, t, tc);
    OneMoreDelta(ds, d, tc.index);
    CallIndicesMembers(t.items, tc.index);
    NameBefore(policy, t, ds, tc.index);
    forall index | index in CallOrder(ds + [d]) && index != tc.index
      ensures ValidateToolCallName(policy, NameOf(ds + [d], index)).None?
    {
      OneMoreDelta(ds, d, index);
      assert index in CallOrder(ds);
      NameBefore(policy, t, ds, index);
    }
  }

  /** A call that has appeared bears the name its item shows, and that one is allowed; any other has none. */
  lemma NameBefore(policy: Policy, s: Stream, ds: seq<Delta>, index: int)
    requires CallPartAgrees(policy, s.items, ds)
    ensures index in CallOrder(ds) <==> CallPosition(s.items, index) < |s.items|
    ensures index in CallOrder(ds) ==>
              && NameOf(ds, index) == s.items[CallPosition(s.items, index)].name
              && ValidateToolCallName(policy, NameOf(ds, index)).None?
    ensures index !in CallOrder(ds) ==> NameOf(ds, index) == ""
  {
    CallIndicesMembers(s.items, index);
    if index !in CallOrder(ds) {
      UntouchedIsEmpty(ds, index);
    }
  }

  lemma {:induction false} ReadIsBeforeDone(policy: Policy, firstId: Id, deltas: seq<Delta>)
    ensures deltas[..ReadCount(policy, firstId, deltas)] <= UpToDone(deltas)
  {
    hide Apply;
    if deltas != [] {
      var init := deltas[..|deltas| - 1];
      ReadIsBeforeDone(policy, firstId, init);
      var n := ReadCount(policy, firstId, deltas);
      if Fold(policy, firstId, init).stopped {
        assert init[..n] == deltas[..n];
      } else {
        FoldAgrees(policy, firstId, init);
        assert deltas[..n] == deltas;
      }
      hide Fold, Agrees, Condemned;
    }
  }

  lemma OneMoreGrows(ds: seq<Delta>, d: Delta, index: int)
    ensures CallOrder(ds) <= CallOrder(ds + [d])
    ensures NameOf(ds, index) != "" ==> NameOf(ds + [d], index) == NameOf(ds, index)
  {
    assert (ds + [d])[..|ds|] == ds;
  }

  lemma {:induction false} OrderAndNamesGrow(ds: seq<Delta>, more: seq<Delta>, index: int)
    ensures CallOrder(ds) <= CallOrder(ds + more)
    ensures NameOf(ds, index) != "" ==> NameOf(ds + more, index) == NameOf(ds, index)
  {
    hide CallOrder, NameOf;
    if more == [] {
      assert ds + more == ds;
    } else {
      var n := |more| - 1;
      OrderAndNamesGrow(ds, more[..n], index);
      OneMoreGrows(ds + more[..n], more[n], index);
      assert ds + more[..n] + [more[n]] == ds + more;
    }
  }

  lemma {:induction false} RejectionAt(policy: Policy, calls: seq<ToolCall>, k: nat)
    requires k < |calls| && ValidateToolCallName(policy, calls[k].name).Some?
    ensures FirstRejection(policy, calls) ==
            if FirstRejection(policy, calls[..k]).Some? then FirstRejection(policy, calls[..k])
            else ValidateToolCallName(policy, calls[k].name)
    decreases k
  {
    if k > 0 {
      RejectionAt(policy, calls[1..], k - 1);
      assert calls[1..][..k - 1] == calls[..k][1..];
    } else {
      assert calls[..0] == [];
    }
  }

  /** The position of the call that the loop refused, among the calls in order of appearance. */
  ghost predicate RefusedAt(policy: Policy, read: seq<Delta>, error: ResponseError, k: nat) {
    && k < |CallOrder(read)|
    && ValidateToolCallName(policy, NameOf(read, CallOrder(read)[k])) == Some(error)
    && forall j :: 0 <= j < |CallOrder(read)| && j != k ==> ValidateToolCallName(policy, NameOf(read, CallOrder(read)[j])).None?
  }

  lemma {:induction false} OrderHasNoRepeats(ds: seq<Delta>)
    ensures forall i, j :: 0 <= i < j < |CallOrder(ds)| ==> CallOrder(ds)[i] != CallOrder(ds)[j]
  {
    if ds != [] {
      OrderHasNoRepeats(ds[..|ds| - 1]);
    }
  }

  lemma RefusedOnce(policy: Policy, read: seq<Delta>, error: ResponseError, index: int) returns (k: nat)
    requires index in CallOrder(read) && ValidateToolCallName(policy, NameOf(read, index)) == Some(error)
    requires forall i :: i in CallOrder(read) && i != index ==> ValidateToolCallName(policy, NameOf(read, i)).None?
    ensures RefusedAt(policy, read, error, k)
  {
    OrderHasNoRepeats(read);
    hide CallOrder, NameOf, ValidateToolCallName;
    k :| 0 <= k < |CallOrder(read)| && CallOrder(read)[k] == index;
  }

  lemma OneRefusedIn(policy: Policy, firstId: Id, ds: seq<Delta>, d: Delta) returns (k: nat)
    requires !Fold(policy, firstId, ds).stopped && Fold(policy, firstId, ds + [d]).rejection.Some?
    ensures RefusedAt(policy, ds + [d], Fold(policy, firstId, ds + [d]).rejection.value, k)
  {
    hide Fold, RefusedAt, CallOrder, NameOf, ValidateToolCallName, UpToDone;
    RefusalBlamesTheTouched(policy, firstId, ds, d);
    k := RefusedOnce(policy, ds + [d], Fold(policy, firstId, ds + [d]).rejection.value, d.tool.value.index);
  }

  lemma RejectedIsStopped(policy: Policy, firstId: Id, deltas: seq<Delta>)
    requires Fold(policy, firstId, deltas).rejection.Some?
    ensures Fold(policy, firstId, deltas).stopped
  {
    FoldAgrees(policy, firstId, deltas);
    hide Fold, Agrees, Condemned;
  }

  /** When the loop refuses a call, one call bears a refused name. */
  lemma OneCallIsRefused(policy: Policy, firstId: Id, deltas: seq<Delta>) returns (k: nat)
    requires Fold(policy, firstId, deltas).rejection.Some?
    ensures RefusedAt(policy, deltas[..ReadCount(policy, firstId, deltas)], Fold(policy, firstId, deltas).rejection.value, k)
  {
    hide Fold, RefusedAt, ReadCount;
    var read := deltas[..ReadCount(policy, firstId, deltas)];
    RejectedIsStopped(policy, firstId, deltas);
    ReadIsEnough(policy, firstId, deltas);
    var n := |read| - 1;
    assert read == read[..n] + [read[n]];
    k := OneRefusedIn(policy, firstId, read[..n], read[n]);
  }

  /** The first refused call of the finished stream, given the one that was refused when only `read` had
      been read. */
  lemma FinishedCalls(policy: Policy, read: seq<Delta>, ds: seq<Delta>, error: ResponseError, k: nat)
    requires read <= ds && RefusedAt(policy, read, error, k)
    ensures k < |CallsOf(ds)| && ValidateToolCallName(policy, CallsOf(ds)[k].name) == Some(error)
    ensures FirstRejection(policy, CallsOf(ds)) ==
            if FirstRejection(policy, CallsOf(ds)[..k]).Some? then FirstRejection(policy, CallsOf(ds)[..k]) else Some(error)
    ensures (forall j :: 0 <= j < k ==> NameOf(read, CallOrder(read)[j]) != "") ==> FirstRejection(policy, CallsOf(ds)[..k]).None?
  {
    var order, more := CallOrder(read), ds[|read|..];
    assert ds == read + more;
    OrderAndNamesGrow(read, more, order[k]);
    if NameOf(read, order[k]) == "" {
      UnnamedRejectionIsFinal(policy, NameOf(ds, order[k]));
    }
    hide CallOrder, NameOf, ValidateToolCallName, CallIdOf, ArgumentsOf;
    RejectionAt(policy, CallsOf(ds), k);
    if forall j :: 0 <= j < k ==> NameOf(read, order[j]) != "" {
      var ahead := CallsOf(ds)[..k];
      forall j | 0 <= j < k ensures ahead[j].name == NameOf(read, order[j]) {
        OrderAndNamesGrow(read, more, order[j]);
      }
      assert forall c :: c in ahead ==> ValidateToolCallName(policy, c.name).None?;
    }
  }

  predicate IsRefused(policy: Policy, calls: seq<ToolCall>, j: nat)
    requires j < |calls|
  {
    ValidateToolCallName(policy, calls[j].name).Some?
  }

  /** No call before `j` bears a refused name, and `j` does. */
  ghost predicate IsFirstRefused(policy: Policy, calls: seq<ToolCall>, j: nat)
    requires j < |calls|
  {
    IsRefused(policy, calls, j) && forall i :: 0 <= i < j ==> !IsRefused(policy, calls, i)
  }

  lemma {:induction false} FirstRefusedIsBlamed(policy: Policy, calls: seq<ToolCall>, j: nat)
    requires j < |calls| && IsFirstRefused(policy, calls, j)
    ensures FirstRejection(policy, calls) == ValidateToolCallName(policy, calls[j].name)
    decreases j
  {
    if j > 0 {
      assert !IsRefused(policy, calls, 0);
      forall i | 0 <= i < j - 1 ensures !IsRefused(policy, calls[1..], i) {
        assert !IsRefused(policy, calls, i + 1);
      }
      FirstRefusedIsBlamed(policy, calls[1..], j - 1);
    }
  }

  /** Two refused names give one error exactly when they are one name, or the error does not depend on it. */
  lemma ErrorsOfNames(policy: Policy, a: string, b: string)
    requires ValidateToolCallName(policy, a).Some? && ValidateToolCallName(policy, b).Some?
    ensures ValidateToolCallName(policy, a) == ValidateToolCallName(policy, b) <==>
            a == b || ValidateToolCallName(policy, "").Some? || policy.declared.BadTools?
  {
  }

  /** Where every name is refused, nothing is ahead: the loop is left at the first call. */
  lemma NothingAheadWhenAllRefused(policy: Policy, read: seq<Delta>, error: ResponseError, k: nat)
    requires RefusedAt(policy, read, error, k) && ValidateToolCallName(policy, "").Some?
    ensures k == 0
  {
    if k > 0 {
      UnnamedRejectionIsFinal(policy, NameOf(read, CallOrder(read)[0]));
    }
  }

  /** What the two paths report for a refused turn, of which the loop refused call `k`.  They report the same
      error exactly when the tool declarations do not decode, or the first call ahead of `k` that ends
      up with a refused name, if there is one, has the name of call `k`.  So they do whenever the
      calls ahead had their names when the loop was left. */
  lemma ErrorsAgreeExactlyWhen(policy: Policy, firstId: Id, deltas: seq<Delta>, k: nat)
    ensures var read, calls := deltas[..ReadCount(policy, firstId, deltas)], CallsOf(UpToDone(deltas));
            var streamed := Fold(policy, firstId, deltas).rejection;
            streamed.Some? && RefusedAt(policy, read, streamed.value, k) ==>
              && k < |calls|
              && (Verdict(policy, calls) == streamed <==>
                  policy.declared.BadTools? || forall j :: 0 <= j < k && IsFirstRefused(policy, calls, j) ==> calls[j].name == calls[k].name)
              && ((forall j :: 0 <= j < k ==> NameOf(read, CallOrder(read)[j]) != "") ==> Verdict(policy, calls) == streamed)
  {
    var read, calls := deltas[..ReadCount(policy, firstId, deltas)], CallsOf(UpToDone(deltas));
    var streamed := Fold(policy, firstId, deltas).rejection;
    hide Fold, UpToDone, CallOrder, NameOf, CallsOf, ReadCount;
    if streamed.Some? && RefusedAt(policy, read, streamed.value, k) {
      ReadIsBeforeDone(policy, firstId, deltas);
      FinishedCalls(policy, read, UpToDone(deltas), streamed.value, k);
      if ValidateToolCallName(policy, "").Some? {
        NothingAheadWhenAllRefused(policy, read, streamed.value, k);
      }
      hide RefusedAt;
      BlameAhead(policy, calls, streamed.value, k);
    }
  }

  lemma BlameAhead(policy: Policy, calls: seq<ToolCall>, error: ResponseError, k: nat)
    requires k < |calls| && ValidateToolCallName(policy, calls[k].name) == Some(error)
    requires ValidateToolCallName(policy, "").Some? ==> k == 0
    ensures FirstRejection(policy, calls) == Some(error) <==>
            policy.declared.BadTools? || forall j :: 0 <= j < k && IsFirstRefused(policy, calls, j) ==> calls[j].name == calls[k].name
  {
    var j := FirstRefused(policy, calls, k);
    FirstRefusedIsBlamed(policy, calls, j);
    ErrorsOfNames(policy, calls[j].name, calls[k].name);
    forall i | 0 <= i < k && IsFirstRefused(policy, calls, i) ensures i == j {
      assert IsRefused(policy, calls, i) && IsRefused(policy, calls, j);
    }
    hide ValidateToolCallName, FirstRejection;
  }

  lemma FirstRefused(policy: Policy, calls: seq<ToolCall>, k: nat) returns (j: nat)
    requires k < |calls| && IsRefused(policy, calls, k)
    ensures j <= k && IsFirstRefused(policy, calls, j)
  {
    j := 0;
    while !IsRefused(policy, calls, j)
      invariant j <= k && forall i :: 0 <= i < j ==> !IsRefused(policy, calls, i)
      decreases k - j
    {
      j := j + 1;
    }
  }

  function CallDelta(index: int, name: string): Delta {
    Delta("", "", "", false, None, Some(ToolCallDelta(index, "", name, "")), None)
  }

  const NOTHING_DECLARED := Policy(Auto, ToolDecls.Tools({}))

  lemma UnnamedOpens(firstId: Id)
    ensures var s := Fold(NOTHING_DECLARED, firstId, [CallDelta(0, "")]);
            !s.stopped && s.items == [CallItem(firstId, 0, "", "", "")]
  {
    assert [CallDelta(0, "")][..0] == [];
  }

  lemma StreamBlamesTheSecond(firstId: Id, b: string)
    requires b != ""
    ensures var s := Fold(NOTHING_DECLARED, firstId, [CallDelta(0, ""), CallDelta(1, b)]);
            s.stopped && s.rejection == Some(UndeclaredTool(b))
  {
    UnnamedOpens(firstId);
    assert [CallDelta(0, ""), CallDelta(1, b)][..1] == [CallDelta(0, "")];
  }

  lemma CallsBlameTheFirst(a: string, b: string)
    requires a != "" && b != ""
    ensures Verdict(NOTHING_DECLARED, CallsOf([CallDelta(0, ""), CallDelta(1, b), CallDelta(0, a)])) == Some(UndeclaredTool(a))
  {
    var one, two := [CallDelta(0, "")], [CallDelta(0, ""), CallDelta(1, b)];
    var deltas := [CallDelta(0, ""), CallDelta(1, b), CallDelta(0, a)];
    assert one[..0] == [] && two[..1] == one && deltas[..2] == two;
    assert CallOrder(one) == [0] && CallOrder(two) == [0, 1] && CallOrder(deltas) == [0, 1];
    assert NameOf(one, 0) == "" && NameOf(two, 0) == "" && NameOf(deltas, 0) == a;
    hide CallOrder, NameOf, CallIdOf, ArgumentsOf;
    assert CallsOf(deltas)[0].name == a;
  }

  /** They can differ: a call that opens unnamed, one with an undeclared name, then a bad name for the first. */
  lemma ErrorsCanDiffer(firstId: Id, a: string, b: string)
    requires a != "" && b != "" && a != b
    ensures var deltas := [CallDelta(0, ""), CallDelta(1, b), CallDelta(0, a)];
            && UpToDone(deltas) == deltas
            && Fold(NOTHING_DECLARED, firstId, deltas).rejection == Some(UndeclaredTool(b))
            && Verdict(NOTHING_DECLARED, CallsOf(deltas)) == Some(UndeclaredTool(a))
  {
    var deltas := [CallDelta(0, ""), CallDelta(1, b), CallDelta(0, a)];
    assert deltas[..2] == [CallDelta(0, ""), CallDelta(1, b)];
    StreamBlamesTheSecond(firstId, b);
    CallsBlameTheFirst(a, b);
    NoneDone(deltas);
    hide CallsOf, Apply, Verdict, UpToDone;
  }

  lemma {:induction false} NoneDone(ds: seq<Delta>)
    requires forall i :: 0 <= i < |ds| ==> !ds[i].done
    ensures UpToDone(ds) == ds && !HasDone(ds)
  {
    if ds != [] {
      NoneDone(ds[..|ds| - 1]);
    }
  }
}

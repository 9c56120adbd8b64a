/** What the client is told when the provider fails, on both paths (internal/server/server.go:582-588 and
    855-893): from how the error channel ended to the error of the response. */
module Endings {
  import opened Api
  import opened ToolPolicy
  import opened Requests
  import opened SyncPath
  import opened StreamSpec
  import opened StreamAggregate
  import opened StreamRefinement
  import opened Channels
  import Relay

  lemma RejectionBlamesCalls(policy: Policy, firstId: Id, deltas: seq<Delta>)
    requires Fold(policy, firstId, deltas).rejection.Some?
    ensures var error := Fold(policy, firstId, deltas).rejection.value;
            && !error.ProviderFailed? && !error.ProviderUnavailable?
            && Fold(policy, firstId, deltas).stopped
  {
    FoldAgrees(policy, firstId, deltas);
    hide Agrees, Condemned, Apply;
    if !Fold(policy, firstId, deltas[..|deltas| - 1]).stopped {
      var s, d := Fold(policy, firstId, deltas[..|deltas| - 1]), deltas[|deltas| - 1];
      FoldAgrees(policy, firstId, deltas[..|deltas| - 1]);
      StepBlamesCalls(policy, s, d);
    } else {
      RejectionBlamesCalls(policy, firstId, deltas[..|deltas| - 1]);
    }
  }

  lemma StepBlamesCalls(policy: Policy, s: Stream, d: Delta)
    requires !s.stopped && s.rejection.None?
    ensures var error := Apply(policy, s, d).rejection;
            error.Some? ==> !error.value.ProviderFailed? && !error.value.ProviderUnavailable?
  {
  }

  /** A run whose deltas never stop the loop ends with the provider's message exactly when the channel ended
      in that error, and with "unavailable" exactly when the breaker was open. */
  lemma UnstoppedRunReportsItsEnding(policy: Policy, firstId: Id, deltas: seq<Delta>, e: Ending, model: string)
    requires !Fold(policy, firstId, deltas).stopped
    ensures var trace := Trace(policy, firstId, deltas, e, model);
            && trace != []
            && (forall m :: trace[|trace| - 1] == Failed(ProviderFailed(m)) <==> e == Broke(m))
            && (trace[|trace| - 1] == Failed(ProviderUnavailable) <==> e == BreakerOpen)
  {
    var s := Fold(policy, firstId, deltas);
    VerdictBlamesCalls(policy, CallsIn(s.items));
    FoldAgrees(policy, firstId, deltas);
    hide Fold, Verdict, Agrees, Condemned, TextDoneEvents, CallDoneEvents, CompletedResponse;
  }

  /** A run that its deltas stop never reports the provider, however the channel ends. */
  lemma StoppedRunNeverBlamesTheProvider(policy: Policy, firstId: Id, deltas: seq<Delta>, e: Ending, model: string)
    requires Fold(policy, firstId, deltas).stopped
    ensures var trace := Trace(policy, firstId, deltas, e, model);
            && trace != []
            && !(trace[|trace| - 1].Failed? && (trace[|trace| - 1].error.ProviderFailed? || trace[|trace| - 1].error.ProviderUnavailable?))
  {
    var s := Fold(policy, firstId, deltas);
    VerdictBlamesCalls(policy, CallsIn(s.items));
    if s.rejection.Some? {
      RejectionBlamesCalls(policy, firstId, deltas);
    }
    hide Fold, Verdict, TextDoneEvents, CallDoneEvents, CompletedResponse;
  }

  /** The same of the outcome of a streamed turn. */
  lemma StreamReportsItsEnding(request: Request, provider: string, deltas: seq<Delta>, e: Ending, storeMsgs: seq<Message>,
                               firstId: Id, byDefault: bool)
    ensures var outcome := StreamOutcome(request, provider, deltas, e, storeMsgs, firstId, byDefault);
            var unstopped := !Fold(PolicyOf(request), firstId, deltas).stopped;
            && (forall m :: outcome == Refused(ProviderFailed(m)) <==> unstopped && e == Broke(m))
            && (outcome == Refused(ProviderUnavailable) <==> unstopped && e == BreakerOpen)
  {
    var s := Fold(PolicyOf(request), firstId, deltas);
    VerdictBlamesCalls(PolicyOf(request), CallsIn(s.items));
    if s.rejection.Some? {
      RejectionBlamesCalls(PolicyOf(request), firstId, deltas);
    }
    hide Fold, Verdict, CompletedResponse, StoredConversation, IsEmptyResult, OutputOf;
  }

  /** A synchronous turn reports an open breaker exactly when there is one, and any other provider error
      without its text. */
  lemma SyncReportsItsError(request: Request, provider: string, g: Generation, storeMsgs: seq<Message>, firstId: Id, byDefault: bool)
    ensures var outcome := SyncTurn(request, provider, g, storeMsgs, firstId, byDefault);
            && (outcome == Refused(ProviderUnavailable) <==> g == Errored(true))
            && (outcome == Refused(ProviderFailed("provider error")) <==> g == Errored(false))
            && (forall m :: outcome == Refused(ProviderFailed(m)) ==> m == "provider error")
  {
    if g.Generated? {
      VerdictBlamesCalls(PolicyOf(request), g.result.toolCalls);
    }
    hide Verdict;
  }

  /** An open breaker is reported alike on both paths: in every schedule that no client cuts, a streamed turn
      behind a breaker that refuses is refused as unavailable, as the synchronous turn is. */
  lemma OpenBreakerIsReported(c: Script, steps: seq<Relay.Step>, provider: string, storeMsgs: seq<Message>, syncId: Id,
                              byDefault: bool)
    requires c.gate == Shut && Relay.Run(c, steps).Some?
    requires var s := Relay.Run(c, steps).value; s.server.stage == Left && !s.disconnected
    ensures var v := Relay.Run(c, steps).value.server;
            && v.received == []
            && StreamOutcome(c.request, provider, v.received, v.ending, storeMsgs, c.firstId, byDefault) == Refused(ProviderUnavailable)
            && SyncTurn(c.request, provider, Errored(true), storeMsgs, syncId, byDefault) == Refused(ProviderUnavailable)
  {
    Relay.RelayLosesNothing(c, steps);
    var v := Relay.Run(c, steps).value.server;
    StreamReportsItsEnding(c.request, provider, [], BreakerOpen, storeMsgs, c.firstId, byDefault);
    SyncReportsItsError(c.request, provider, Errored(true), storeMsgs, syncId, byDefault);
    assert Fold(PolicyOf(c.request), c.firstId, []) == StreamSpec.Initial(c.firstId);
    hide Relay.Run, StreamOutcome, Apply;
  }

  /** And the provider's own error arrives with its text, in every such schedule, when the server reads the
      stream to its end. */
  lemma ProviderErrorIsReported(c: Script, steps: seq<Relay.Step>, provider: string, message: string, storeMsgs: seq<Message>,
                                byDefault: bool)
    requires c.gate != Shut && c.ending == Broke(message) && Relay.Run(c, steps).Some?
    requires var s := Relay.Run(c, steps).value; s.server.stage == Left && !s.disconnected
    ensures var v := Relay.Run(c, steps).value.server;
            StreamOutcome(c.request, provider, v.received, v.ending, storeMsgs, c.firstId, byDefault) == Refused(ProviderFailed(message))
            <==>
            !Fold(PolicyOf(c.request), c.firstId, c.deltas).stopped
  {
    Relay.RelayLosesNothing(c, steps);
    StreamReportsItsEnding(c.request, provider, c.deltas, Broke(message), storeMsgs, c.firstId, byDefault);
    hide Relay.Run, StreamOutcome, Fold;
  }
}

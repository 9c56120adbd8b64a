/** The goroutines and channels around one provider stream: the provider, the relay of its circuit
    breaker and the receive loop of the server, each with its own steps
    (internal/providers/circuitbreaker.go:88-133, internal/server/server.go:753-854, with the producer
    discipline of internal/providers/anthropic/anthropic.go:184-190 and 355-379).

    Delta channels are unbuffered, so a hand-over is one joint step of its two sides.  Error channels
    have room for one value.  The deferred closes of a provider run last in, first out: its error
    channel closes before its delta channel. */
module Channels {
  import opened Api
  import opened Requests
  import opened StreamSpec
  import opened StreamRefinement

  /** `Ended` as the pending value means that the buffer is empty. */
  datatype ErrorChannel = ErrorChannel(pending: Ending, closed: bool)

  const OPEN := ErrorChannel(Ended, false)
  const CANCELLED := Broke("context canceled")

  predicate Readable(c: ErrorChannel) {
    c.closed || c.pending != Ended
  }

  datatype Gate = NoBreaker | Allowed | Shut

  /** What the provider would send, how it would end, and what stands between it and its reader. */
  datatype Script = Script(request: Request, firstId: Id, deltas: seq<Delta>, ending: Ending, gate: Gate)

  /** What the reader should get: a breaker that refuses ends the stream before it starts. */
  function Offered(c: Script): seq<Delta> {
    if c.gate == Shut then [] else c.deltas
  }

  function OfferedEnding(c: Script): Ending {
    if c.gate == Shut then BreakerOpen else c.ending
  }

  /** The receive loop is left after these deltas, by `done` or by a rejected tool call. */
  predicate Stops(c: Script, received: seq<Delta>) {
    Fold(PolicyOf(c.request), c.firstId, received).stopped
  }

  /** No proper prefix of the stream stops the server: it waits for the last delta, at least. */
  ghost predicate ReadsAll(c: Script) {
    forall i :: 0 <= i < |c.deltas| ==> !Stops(c, c.deltas[..i])
  }

  datatype ProviderStage = Sending | Returning | ErrorsClosed | Finished

  /** `Heard`: the error channel is read, `done` not yet called; `Judged`: `done` called, the error not
      yet passed on; `Forwarded`: the wrapped error channel not yet closed. */
  datatype BreakerStage = Waiting | Heard(e: Ending) | Judged(e: Ending) | Forwarded | Exited

  /** The provider goroutine with the relay goroutine of its breaker, if any.  `verdicts` logs the
      calls of `done`, true for success. */
  datatype Upstream =
    Upstream(unsent: seq<Delta>, ending: Ending, stage: ProviderStage, errors: ErrorChannel,
             breaker: BreakerStage, verdicts: seq<bool>, wrapped: ErrorChannel)

  function Start(c: Script): Upstream {
    match c.gate
    case Shut => Upstream([], BreakerOpen, Finished, OPEN, Exited, [], ErrorChannel(BreakerOpen, true))
    case Allowed => Upstream(c.deltas, c.ending, Sending, OPEN, Waiting, [], OPEN)
    case NoBreaker => Upstream(c.deltas, c.ending, Sending, OPEN, Exited, [], OPEN)
  }

  /** The error channel that the reader of this stream holds. */
  function Out(c: Script, u: Upstream): ErrorChannel {
    if c.gate == NoBreaker then u.errors else u.wrapped
  }

  function OutRead(c: Script, u: Upstream): Upstream {
    if c.gate == NoBreaker then u.(errors := u.errors.(pending := Ended))
    else u.(wrapped := u.wrapped.(pending := Ended))
  }

  function Sent(u: Upstream): Upstream
    requires u.unsent != []
  {
    u.(unsent := u.unsent[1..])
  }

  datatype UpstreamStep =
    | ProviderReturns
    | ProviderGivesUp
    | ProviderClosesErrors
    | ProviderClosesDeltas
    | BreakerReads
    | BreakerJudges
    | BreakerForwards
    | BreakerCloses

  predicate CanStep(u: Upstream, step: UpstreamStep, cancelled: bool) {
    match step
    case ProviderReturns => u.stage == Sending && u.unsent == []
    case ProviderGivesUp => u.stage == Sending && cancelled && (u.unsent != [] || u.ending != Ended)
    case ProviderClosesErrors => u.stage == Returning
    case ProviderClosesDeltas => u.stage == ErrorsClosed
    case BreakerReads => u.breaker == Waiting && Readable(u.errors)
    case BreakerJudges => u.breaker.Heard?
    case BreakerForwards => u.breaker.Judged?
    case BreakerCloses => u.breaker == Forwarded
  }

  function StepUpstream(u: Upstream, step: UpstreamStep): Upstream {
    match step
    case ProviderReturns => u.(stage := Returning, errors := u.errors.(pending := u.ending))
    case ProviderGivesUp => u.(stage := Returning, ending := CANCELLED, errors := u.errors.(pending := CANCELLED))
    case ProviderClosesErrors => u.(stage := ErrorsClosed, errors := u.errors.(closed := true))
    case ProviderClosesDeltas => u.(stage := Finished)
    case BreakerReads => u.(breaker := Heard(u.errors.pending), errors := u.errors.(pending := Ended))
    case BreakerJudges =>
      if u.breaker.Heard? then u.(breaker := Judged(u.breaker.e), verdicts := u.verdicts + [u.breaker.e == Ended]) else u
    case BreakerForwards =>
      if u.breaker.Judged? then u.(breaker := Forwarded, wrapped := u.wrapped.(pending := u.breaker.e)) else u
    case BreakerCloses => u.(breaker := Exited, wrapped := u.wrapped.(closed := true))
  }

  /** The reader may take an error only after the last hand-over, and what waits for it is the
      provider's ending.  `read` says that the reader has taken the pending value. */
  ghost predicate UpstreamSound(c: Script, u: Upstream, cancelled: bool, read: bool) {
    && (u.stage != Sending && !cancelled ==> u.ending == OfferedEnding(c) && u.unsent == [])
    && (u.stage != Sending ==> (u.ending == Ended <==> u.unsent == [] && OfferedEnding(c) == Ended))
    && (u.stage == Sending ==> u.ending == OfferedEnding(c) && u.errors == OPEN && c.gate != Shut)
    && (c.gate != Shut ==> (u.errors.closed <==> u.stage in {ErrorsClosed, Finished}))
    && (c.gate == NoBreaker ==>
          u.breaker == Exited && u.verdicts == [] && (!read && u.stage != Sending ==> u.errors.pending == u.ending))
    && (c.gate == Shut ==>
          u.breaker == Exited && u.verdicts == [] && u.stage == Finished && u.wrapped.closed &&
          u.ending == BreakerOpen && (!read ==> u.wrapped.pending == BreakerOpen))
    && (c.gate == Allowed ==> RelaySound(u, read))
  }

  ghost predicate RelaySound(u: Upstream, read: bool) {
    && (u.breaker == Waiting && u.stage != Sending ==> u.errors.pending == u.ending)
    && (u.breaker != Waiting ==> u.stage != Sending)
    && (u.breaker.Heard? || u.breaker.Judged? ==> u.breaker.e == u.ending)
    && u.verdicts == (if u.breaker == Waiting || u.breaker.Heard? then [] else [u.ending == Ended])
    && (u.wrapped.closed <==> u.breaker == Exited)
    && (u.breaker == Waiting || u.breaker.Heard? || u.breaker.Judged? ==> u.wrapped == OPEN)
    && (u.breaker == Forwarded || u.breaker == Exited ==> !read ==> u.wrapped.pending == u.ending)
  }

  lemma UpstreamStepIsSound(c: Script, u: Upstream, step: UpstreamStep, cancelled: bool, read: bool)
    requires UpstreamSound(c, u, cancelled, read) && CanStep(u, step, cancelled)
    requires read ==> u.stage != Sending && Spoken(c, u)
    ensures Spoken(c, u) ==> Spoken(c, StepUpstream(u, step))
    ensures UpstreamSound(c, StepUpstream(u, step), cancelled, read)
    ensures step != ProviderGivesUp ==> StepUpstream(u, step).ending == u.ending
    ensures StepUpstream(u, step).unsent == u.unsent
  {
  }

  /** The breaker's relay, if any, has passed the ending on. */
  predicate Spoken(c: Script, u: Upstream) {
    c.gate == Allowed ==> u.breaker == Forwarded || u.breaker == Exited
  }

  lemma SendingIsSound(c: Script, u: Upstream, cancelled: bool, after: bool)
    requires UpstreamSound(c, u, cancelled, false) && u.stage == Sending && u.unsent != []
    ensures UpstreamSound(c, Sent(u), after, false)
  {
  }

  lemma CancellingIsSound(c: Script, u: Upstream, cancelled: bool, read: bool)
    requires UpstreamSound(c, u, cancelled, read)
    ensures UpstreamSound(c, u, true, read)
  {
  }

  /** Steps until both goroutines have returned, hand-overs included. */
  function UpstreamWork(u: Upstream): nat {
    |u.unsent| +
    (match u.stage case Sending => 3 case Returning => 2 case ErrorsClosed => 1 case Finished => 0) +
    (match u.breaker case Waiting => 4 case Heard(_) => 3 case Judged(_) => 2 case Forwarded => 1 case Exited => 0)
  }

  lemma UpstreamStepUsesWork(u: Upstream, step: UpstreamStep, cancelled: bool)
    requires CanStep(u, step, cancelled)
    ensures UpstreamWork(StepUpstream(u, step)) < UpstreamWork(u)
    ensures StepUpstream(u, step).unsent == u.unsent
  {
  }

  datatype ServerStage = Reading | Draining | Left | Gone

  /** The receive loop: what it has received, the stream error it has recorded, where it is, and
      whether it has read the error channel.  `Draining`: it saw the delta channel closed and waits for
      the error channel; `Gone`: it saw the request cancelled. */
  datatype Server = Server(received: seq<Delta>, ending: Ending, stage: ServerStage, heard: bool)

  const LISTENING := Server([], Ended, Reading, false)

  function Receive(c: Script, v: Server, d: Delta): Server {
    var received := v.received + [d];
    v.(received := received, stage := if Stops(c, received) then Left else Reading)
  }

  function HearError(v: Server, e: Ending): Server {
    v.(ending := e, stage := Left, heard := true)
  }

  function ServerWork(v: Server): nat {
    match v.stage case Reading => 2 case Draining => 1 case Left => 0 case Gone => 0
  }

  predicate Away(v: Server) {
    v.stage == Left || v.stage == Gone
  }

  /** The loop is left at the first stopping prefix, never later. */
  ghost predicate StopsInTime(c: Script, v: Server) {
    && (forall i :: 0 <= i < |v.received| ==> !Stops(c, v.received[..i]))
    && (v.stage != Left || v.heard ==> !Stops(c, v.received))
    && (v.stage == Left && !v.heard ==> Stops(c, v.received))
    && (v.heard ==> v.stage == Left)
    && (!v.heard ==> v.ending == Ended)
  }

  lemma ReceiveIsInTime(c: Script, v: Server, d: Delta)
    requires StopsInTime(c, v) && v.stage == Reading
    ensures StopsInTime(c, Receive(c, v, d))
  {
    var w := Receive(c, v, d);
    forall i | 0 <= i < |w.received| ensures !Stops(c, w.received[..i]) {
      assert w.received[..i] == v.received[..i];
      assert v.received[..|v.received|] == v.received;
    }
  }

  /** The run that the server concludes from these deltas and this error is the one that the whole
      offered stream gives: same events, same response, same stored conversation. */
  ghost predicate Concludes(c: Script, received: seq<Delta>, e: Ending) {
    && (forall model :: Trace(PolicyOf(c.request), c.firstId, received, e, model)
                        == Trace(PolicyOf(c.request), c.firstId, Offered(c), OfferedEnding(c), model))
    && (forall provider, storeMsgs, byDefault ::
          StreamOutcome(c.request, provider, received, e, storeMsgs, c.firstId, byDefault)
          == StreamOutcome(c.request, provider, Offered(c), OfferedEnding(c), storeMsgs, c.firstId, byDefault))
  }

  lemma EndingIsIgnored(policy: ToolPolicy.Policy, s: Stream, e: Ending)
    requires s.stopped
    ensures FinalError(policy, s, Ended) == FinalError(policy, s, e)
  {
  }

  lemma StoppedEarlyConcludes(c: Script, received: seq<Delta>)
    requires received <= Offered(c) && Stops(c, received)
    ensures Concludes(c, received, Ended)
  {
    var policy := PolicyOf(c.request);
    assert Offered(c)[..|received|] == received;
    FoldStopped(policy, c.firstId, Offered(c), |received|);
    EndingIsIgnored(policy, Fold(policy, c.firstId, received), OfferedEnding(c));
    hide Fold, FinalError, CompletedResponse, ResultOf, TextDoneEvents, CallDoneEvents;
  }
}

/** The forwarding loop of the metrics wrapper between a stream and its reader
    (internal/observability/provider_wrapper.go:108-232), over the same upstream and the same receive
    loop as in Relay.  In the running gateway the wrapper stands outside the circuit breaker
    (internal/providers/providers.go:56, internal/observability/init.go:47-63). */
module Instrumentation {
  import opened Api
  import opened Requests
  import opened StreamSpec
  import opened StreamRefinement
  import opened Channels

  datatype WrapperStage = Looping | ErrorsShut | Returned

  /** `base` and `errs` say that `baseChan` and `baseErrChan` are not yet nil; `holding` is the delta that
      it has taken and not yet passed on.  `overlooked` logs that the select at line 180 took its
      default branch. */
  datatype Wrapper =
    Wrapper(base: bool, errs: bool, holding: Option<Delta>, streamErr: Ending, outErrors: ErrorChannel,
            stage: WrapperStage, overlooked: bool)

  const FRESH := Wrapper(true, true, None, Ended, OPEN, Looping, false)

  function Record(w: Wrapper, e: Ending): Wrapper {
    if e == Ended then w else w.(streamErr := e, outErrors := w.outErrors.(pending := e))
  }

  /** The base delta channel is closed: capture an error that is already pending, and wait for none. */
  function SeeClose(w: Wrapper, out: ErrorChannel): Wrapper {
    var v := w.(base := false, errs := false);
    if w.errs && Readable(out) then Record(v, out.pending) else v.(overlooked := w.errs)
  }

  /** The error channel is ready: a close is noted, an error ends the loop. */
  function SeeError(w: Wrapper, out: ErrorChannel): Wrapper {
    if out.pending == Ended then w.(errs := false) else Record(w.(base := false, errs := false), out.pending)
  }

  function WrapperWork(w: Wrapper): nat {
    (if w.base then 1 else 0) + (if w.errs then 1 else 0) + (if w.holding.Some? then 1 else 0) +
    (match w.stage case Looping => 2 case ErrorsShut => 1 case Returned => 0)
  }

  datatype WrapperStep =
    | TakesDelta
    | PassesDelta
    | SeesClose
    | SeesError
    | ShutsErrors
    | Returns

  datatype Step =
    | Up(step: UpstreamStep)
    | Wrap(move: WrapperStep)
    | ServerSeesClose
    | ServerDrains
    | ServerReadsError
    | ClientDisconnects
    | ServerSeesCancel

  datatype State = State(up: Upstream, wrapper: Wrapper, server: Server, disconnected: bool)

  function Initial(c: Script): State {
    State(Start(c), FRESH, LISTENING, false)
  }

  predicate Cancelled(s: State) {
    s.disconnected || Away(s.server)
  }

  /** The select is reached only when the last delta has been passed on. */
  predicate Selecting(w: Wrapper) {
    w.stage == Looping && w.holding.None?
  }

  predicate CanMove(c: Script, s: State, move: WrapperStep) {
    var w := s.wrapper;
    match move
    case TakesDelta => Selecting(w) && w.base && s.up.stage == Sending && s.up.unsent != []
    case PassesDelta => w.stage == Looping && w.holding.Some? && s.server.stage == Reading
    case SeesClose => Selecting(w) && w.base && s.up.stage == Finished
    case SeesError => Selecting(w) && w.errs && Readable(Out(c, s.up))
    case ShutsErrors => Selecting(w) && !w.base && !w.errs
    case Returns => w.stage == ErrorsShut
  }

  function Move(c: Script, s: State, move: WrapperStep): State
    requires CanMove(c, s, move)
  {
    var w, out := s.wrapper, Out(c, s.up);
    match move
    case TakesDelta => s.(up := Sent(s.up), wrapper := w.(holding := Some(s.up.unsent[0])))
    case PassesDelta => s.(wrapper := w.(holding := None), server := Receive(c, s.server, w.holding.value))
    case SeesClose =>
      s.(up := if w.errs && Readable(out) then OutRead(c, s.up) else s.up, wrapper := SeeClose(w, out))
    case SeesError => s.(up := OutRead(c, s.up), wrapper := SeeError(w, out))
    case ShutsErrors => s.(wrapper := w.(stage := ErrorsShut, outErrors := w.outErrors.(closed := true)))
    case Returns => s.(wrapper := w.(stage := Returned))
  }

  predicate Enabled(c: Script, s: State, step: Step) {
    match step
    case Up(us) => CanStep(s.up, us, Cancelled(s))
    case Wrap(move) => CanMove(c, s, move)
    case ServerSeesClose => s.server.stage == Reading && s.wrapper.stage == Returned
    case ServerDrains => s.server.stage == Draining && Readable(s.wrapper.outErrors)
    case ServerReadsError => s.server.stage == Reading && Readable(s.wrapper.outErrors)
    case ClientDisconnects => !s.disconnected
    case ServerSeesCancel => s.disconnected && s.server.stage == Reading
  }

  function ServerHears(s: State): State {
    var errors := s.wrapper.outErrors;
    s.(wrapper := s.wrapper.(outErrors := errors.(pending := Ended)), server := HearError(s.server, errors.pending))
  }

  function Take(c: Script, s: State, step: Step): State
    requires Enabled(c, s, step)
  {
    match step
    case Up(us) => s.(up := StepUpstream(s.up, us))
    case Wrap(move) => Move(c, s, move)
    case ServerSeesClose => s.(server := s.server.(stage := Draining))
    case ServerDrains => ServerHears(s)
    case ServerReadsError => ServerHears(s)
    case ClientDisconnects => s.(disconnected := true)
    case ServerSeesCancel => s.(server := s.server.(stage := Gone))
  }

  /** Where the schedule `steps` leads, if each of its steps can be taken. */
  function Run(c: Script, steps: seq<Step>): Option<State> {
    if steps == [] then Some(Initial(c))
    else
      var before := Run(c, steps[..|steps| - 1]);
      if before.Some? && Enabled(c, before.value, steps[|steps| - 1])
      then Some(Take(c, before.value, steps[|steps| - 1]))
      else None
  }

  function Held(w: Wrapper): seq<Delta> {
    if w.holding.Some? then [w.holding.value] else []
  }

  /** The wrapper has read the base error channel. */
  predicate Asked(w: Wrapper) {
    !w.errs && !w.overlooked
  }

  ghost predicate WrapperSound(c: Script, s: State) {
    var w := s.wrapper;
    && (!w.base || !w.errs ==> s.up.stage != Sending && w.holding.None?)
    && (w.stage != Looping ==> !w.base && !w.errs)
    && (w.overlooked ==> !w.base && !w.errs && w.streamErr == Ended && s.up.stage == Finished && c.gate == Allowed)
    && (w.base || w.errs ==> w.streamErr == Ended)
    && (Asked(w) ==> Spoken(c, s.up) && w.streamErr == s.up.ending)
    && (w.outErrors.closed <==> w.stage != Looping)
    && (!s.server.heard ==> w.outErrors.pending == w.streamErr)
    && (s.server.heard ==> s.server.ending == w.streamErr && !w.base && !w.errs)
  }

  ghost predicate Conserved(c: Script, s: State) {
    s.server.received + Held(s.wrapper) + s.up.unsent == Offered(c)
  }

  ghost predicate ServerSound(c: Script, s: State) {
    && (s.server.stage == Draining ==> s.wrapper.stage == Returned)
    && (s.server.stage == Gone ==> s.disconnected)
    && (s.server.heard && !s.disconnected ==> s.up.unsent == [] && s.up.ending == OfferedEnding(c))
  }

  ghost predicate Sound(c: Script, s: State) {
    && Conserved(c, s)
    && StopsInTime(c, s.server)
    && UpstreamSound(c, s.up, Cancelled(s), Asked(s.wrapper))
    && WrapperSound(c, s)
    && ServerSound(c, s)
  }

  lemma InitialIsSound(c: Script)
    ensures Sound(c, Initial(c))
  {
  }

  lemma TakingKeepsWrapper(c: Script, s: State)
    requires WrapperSound(c, s) && CanMove(c, s, TakesDelta)
    ensures WrapperSound(c, Move(c, s, TakesDelta)) && !s.server.heard && s.wrapper.errs
  {
  }

  lemma TakingConserves(c: Script, s: State)
    requires Conserved(c, s) && CanMove(c, s, TakesDelta)
    ensures Conserved(c, Move(c, s, TakesDelta))
  {
    hide Offered, Out;
    assert s.up.unsent == [s.up.unsent[0]] + s.up.unsent[1..];
  }

  lemma TakingIsSound(c: Script, s: State)
    requires Sound(c, s) && CanMove(c, s, TakesDelta)
    ensures Sound(c, Move(c, s, TakesDelta))
  {
    TakingKeepsWrapper(c, s);
    TakingConserves(c, s);
    hide StopsInTime, Stops, Offered, WrapperSound, Conserved;
    SendingIsSound(c, s.up, Cancelled(s), Cancelled(s));
    hide UpstreamSound;
  }

  lemma PassingKeepsWrapper(c: Script, s: State)
    requires WrapperSound(c, s) && CanMove(c, s, PassesDelta)
    ensures WrapperSound(c, Move(c, s, PassesDelta)) && !s.server.heard
  {
    hide Stops, Out;
  }

  lemma PassingConserves(c: Script, s: State)
    requires Conserved(c, s) && CanMove(c, s, PassesDelta)
    ensures Conserved(c, Move(c, s, PassesDelta))
  {
    hide Offered, Out, Stops;
    var received, d := s.server.received, s.wrapper.holding.value;
    assert received + [d] + [] == received + [d];
  }

  lemma PassingIsSound(c: Script, s: State)
    requires Sound(c, s) && CanMove(c, s, PassesDelta)
    ensures Sound(c, Move(c, s, PassesDelta))
  {
    PassingKeepsWrapper(c, s);
    PassingConserves(c, s);
    ReceiveIsInTime(c, s.server, s.wrapper.holding.value);
    CancellingIsSound(c, s.up, Cancelled(s), Asked(s.wrapper));
    hide StopsInTime, Stops, Offered, UpstreamSound, WrapperSound, Conserved;
  }

  lemma MoveIsSound(c: Script, s: State, move: WrapperStep)
    requires Sound(c, s) && CanMove(c, s, move) && move != TakesDelta && move != PassesDelta
    ensures Sound(c, Move(c, s, move))
  {
    hide StopsInTime, Stops, Offered;
  }

  lemma HearingIsSound(c: Script, s: State)
    requires Sound(c, s) && (s.server.stage == Reading || s.server.stage == Draining) && Readable(s.wrapper.outErrors)
    ensures Sound(c, ServerHears(s))
  {
    hide Offered;
  }

  lemma StepIsSound(c: Script, s: State, step: Step)
    requires Sound(c, s) && Enabled(c, s, step)
    ensures Sound(c, Take(c, s, step))
  {
    match step
    case Up(us) => UpstreamStepIsSound(c, s.up, us, Cancelled(s), Asked(s.wrapper));
    case Wrap(move) =>
      if move == TakesDelta {
        TakingIsSound(c, s);
      } else if move == PassesDelta {
        PassingIsSound(c, s);
      } else {
        MoveIsSound(c, s, move);
      }
    case ServerDrains => HearingIsSound(c, s);
    case ServerReadsError => HearingIsSound(c, s);
    case ServerSeesClose =>
    case ClientDisconnects =>
    case ServerSeesCancel =>
  }

  lemma {:induction false} EveryStateIsSound(c: Script, steps: seq<Step>)
    requires Run(c, steps).Some?
    ensures var s := Run(c, steps).value;
            Sound(c, s) && s.server.received + Held(s.wrapper) + s.up.unsent == Offered(c)
  {
    hide Sound, Enabled, Take;
    if steps == [] {
      InitialIsSound(c);
    } else {
      var n := |steps| - 1;
      EveryStateIsSound(c, steps[..n]);
      StepIsSound(c, Run(c, steps[..n]).value, steps[n]);
    }
    SoundIsConserved(c, Run(c, steps).value);
  }

  lemma SoundIsConserved(c: Script, s: State)
    requires Sound(c, s)
    ensures s.server.received + Held(s.wrapper) + s.up.unsent == Offered(c)
  {
  }

  /** Whatever the schedule, a receive loop left without a disconnect has received the offered deltas,
      in order, up to where it stops.  It ends with the offered error, unless it stopped first or the
      wrapper saw the delta channel close while the error was not yet there to be read. */
  lemma WrapperForwardsDeltas(c: Script, steps: seq<Step>)
    requires Run(c, steps).Some?
    ensures var s := Run(c, steps).value;
            s.server.stage == Left && !s.disconnected ==>
              && s.server.received <= Offered(c)
              && (forall i :: 0 <= i < |s.server.received| ==> !Stops(c, s.server.received[..i]))
              && (if Stops(c, s.server.received) then s.server.ending == Ended
                  else && s.server.received == Offered(c)
                       && s.server.ending == if s.wrapper.overlooked then Ended else OfferedEnding(c))
  {
    EveryStateIsSound(c, steps);
    if Run(c, steps).value.server.stage == Left && !Run(c, steps).value.disconnected {
      LeavingIsExact(c, Run(c, steps).value);
    }
    hide Run, Stops, Offered, OfferedEnding, Sound;
  }

  lemma LeavingIsExact(c: Script, s: State)
    requires Sound(c, s) && s.server.stage == Left && !s.disconnected
    ensures s.server.received <= Offered(c)
    ensures forall i :: 0 <= i < |s.server.received| ==> !Stops(c, s.server.received[..i])
    ensures if Stops(c, s.server.received) then s.server.ending == Ended
            else && s.server.received == Offered(c)
                 && s.server.ending == if s.wrapper.overlooked then Ended else OfferedEnding(c)
  {
    hide Stops, Offered;
  }

  /** Over a base whose error is buffered before its delta channel closes (a provider itself, or a
      breaker that refuses), nothing is overlooked: the reader concludes as it would without the
      wrapper. */
  lemma WrapperIsFaithful(c: Script, steps: seq<Step>)
    requires Run(c, steps).Some? && c.gate != Allowed
    ensures var s := Run(c, steps).value;
            && !s.wrapper.overlooked
            && (s.server.stage == Left && !s.disconnected ==> Concludes(c, s.server.received, s.server.ending))
  {
    EveryStateIsSound(c, steps);
    WrapperForwardsDeltas(c, steps);
    var s := Run(c, steps).value;
    if s.server.stage == Left && !s.disconnected && Stops(c, s.server.received) {
      StoppedEarlyConcludes(c, s.server.received);
    }
    hide Run, StopsInTime, Stops, UpstreamSound, Offered;
  }

  function Work(s: State): nat {
    UpstreamWork(s.up) + |s.up.unsent| + WrapperWork(s.wrapper) + ServerWork(s.server) + if s.disconnected then 0 else 1
  }

  lemma MoveUsesWork(c: Script, s: State, move: WrapperStep)
    requires CanMove(c, s, move)
    ensures Work(Move(c, s, move)) < Work(s)
  {
    hide Stops;
    assert UpstreamWork(OutRead(c, s.up)) == UpstreamWork(s.up);
    hide OutRead, Out;
  }

  lemma StepUsesWork(c: Script, s: State, step: Step)
    requires Enabled(c, s, step)
    ensures Work(Take(c, s, step)) < Work(s)
  {
    hide Stops;
    match step
    case Up(us) => UpstreamStepUsesWork(s.up, us, Cancelled(s));
    case Wrap(move) =>
      MoveUsesWork(c, s, move);
    case _ =>
      hide UpstreamWork, CanMove;
  }

  /** The loop terminates: every step, the wrapper's own included, uses up work. */
  lemma {:induction false} SchedulesAreBounded(c: Script, steps: seq<Step>)
    requires Run(c, steps).Some?
    ensures |steps| + Work(Run(c, steps).value) <= 2 * |c.deltas| + 14
  {
    hide Enabled, Take;
    if steps != [] {
      var n := |steps| - 1;
      SchedulesAreBounded(c, steps[..n]);
      StepUsesWork(c, Run(c, steps[..n]).value, steps[n]);
      hide Work;
    }
  }

  /** Nothing can move any more, but for a disconnect. */
  ghost predicate Final(c: Script, s: State) {
    forall step :: step != ClientDisconnects ==> !Enabled(c, s, step)
  }

  /** Where nothing can move any more (but for a disconnect), the server has left, the upstream has
      returned and the breaker has been told once; the wrapper has returned too unless it holds a delta
      that the server left behind, and that takes a stream that goes on after the server stops, or a
      disconnect. */
  lemma OnlyAnAbandonedWrapperStays(c: Script, steps: seq<Step>)
    requires Run(c, steps).Some? && Final(c, Run(c, steps).value)
    ensures var s := Run(c, steps).value;
            && Away(s.server) && s.up.stage == Finished && s.up.breaker == Exited
            && s.up.verdicts == (if c.gate == Allowed then [s.up.unsent == [] && c.ending == Ended] else [])
            && (s.wrapper.stage == Returned <==> s.wrapper.holding.None?)
            && (s.wrapper.stage != Returned && !s.disconnected ==>
                  Stops(c, s.server.received) && |s.server.received| < |Offered(c)|)
  {
    EveryStateIsSound(c, steps);
    var s := Run(c, steps).value;
    NothingLeftToDo(c, s);
    hide Run, Enabled, Stops, Offered;
  }

  lemma NothingLeftToDo(c: Script, s: State)
    requires Sound(c, s) && Final(c, s)
    ensures Away(s.server) && s.up.stage == Finished && s.up.breaker == Exited
    ensures s.wrapper.stage == Returned <==> s.wrapper.holding.None?
  {
    hide StopsInTime, Stops, Offered;
    assert !Enabled(c, s, ServerSeesClose) && !Enabled(c, s, ServerDrains) && !Enabled(c, s, ServerReadsError);
    assert !Enabled(c, s, Wrap(TakesDelta)) && !Enabled(c, s, Wrap(PassesDelta)) && !Enabled(c, s, Wrap(SeesClose));
    assert !Enabled(c, s, Wrap(SeesError)) && !Enabled(c, s, Wrap(ShutsErrors)) && !Enabled(c, s, Wrap(Returns));
    assert !Enabled(c, s, Up(ProviderReturns)) && !Enabled(c, s, Up(ProviderGivesUp));
    assert !Enabled(c, s, Up(ProviderClosesErrors)) && !Enabled(c, s, Up(ProviderClosesDeltas));
    assert !Enabled(c, s, Up(BreakerReads)) && !Enabled(c, s, Up(BreakerJudges));
    assert !Enabled(c, s, Up(BreakerForwards)) && !Enabled(c, s, Up(BreakerCloses));
  }

  /** The schedule that hands over the first `n` deltas one at a time. */
  function Delivering(n: nat): seq<Step> {
    if n == 0 then [] else Delivering(n - 1) + [Wrap(TakesDelta)] + [Wrap(PassesDelta)]
  }

  function Delivered(c: Script, n: nat): State
    requires n <= |c.deltas|
  {
    State(Start(c).(unsent := c.deltas[n..]), FRESH, LISTENING.(received := c.deltas[..n]), false)
  }

  lemma OneMore(c: Script, steps: seq<Step>, step: Step)
    requires Run(c, steps).Some? && Enabled(c, Run(c, steps).value, step)
    ensures Run(c, steps + [step]) == Some(Take(c, Run(c, steps).value, step))
  {
    assert (steps + [step])[..|steps|] == steps;
  }

  /** The server reads this stream to its end. */
  ghost predicate NeverStops(c: Script) {
    NoStopWithin(c, |c.deltas|)
  }

  ghost predicate NoStopWithin(c: Script, n: nat)
    requires n <= |c.deltas|
  {
    forall i :: 0 <= i <= n ==> !Stops(c, c.deltas[..i])
  }

  lemma {:induction false} DeliveringDelivers(c: Script, n: nat)
    requires c.gate != Shut && n <= |c.deltas| && NoStopWithin(c, n)
    ensures Run(c, Delivering(n)) == Some(Delivered(c, n))
  {
    hide Stops;
    if n > 0 {
      DeliveringDelivers(c, n - 1);
      DeliverOne(c, n - 1);
      hide Run, Enabled, Take;
      OneMore(c, Delivering(n - 1), Wrap(TakesDelta));
      OneMore(c, Delivering(n - 1) + [Wrap(TakesDelta)], Wrap(PassesDelta));
    }
  }

  /** One delta goes through the wrapper; the server leaves if that stops it. */
  lemma DeliverOne(c: Script, n: nat)
    requires c.gate != Shut && n < |c.deltas|
    ensures var s := Delivered(c, n);
            && Enabled(c, s, Wrap(TakesDelta)) && Enabled(c, Take(c, s, Wrap(TakesDelta)), Wrap(PassesDelta))
            && var t := Take(c, Take(c, s, Wrap(TakesDelta)), Wrap(PassesDelta));
               t == Delivered(c, n + 1).(server := t.server)
               && t.server == Server(c.deltas[..n + 1], Ended, if Stops(c, c.deltas[..n + 1]) then Left else Reading, false)
  {
    hide Stops;
    assert c.deltas[n..][0] == c.deltas[n] && c.deltas[n..][1..] == c.deltas[n + 1..];
    assert c.deltas[..n] + [c.deltas[n]] == c.deltas[..n + 1];
  }

  /** The order of events in which the relay of the breaker comes too late. */
  function LosingSchedule(c: Script): seq<Step> {
    Delivering(|c.deltas|) + [Up(ProviderReturns)] + [Up(ProviderClosesErrors)] + [Up(ProviderClosesDeltas)]
    + [Wrap(SeesClose)] + [Wrap(ShutsErrors)] + [ServerReadsError]
  }

  /** Over an admitting breaker the wrapper can lose any error: for every stream that the server reads to
      its end there is a schedule that delivers all deltas and then concludes as if the provider had
      ended without error. */
  lemma AnyErrorCanBeLost(c: Script)
    requires c.gate == Allowed && NeverStops(c)
    ensures var s := Run(c, LosingSchedule(c));
            && s.Some? && s.value.server.stage == Left && !s.value.disconnected
            && s.value.server.received == c.deltas && s.value.server.ending == Ended
  {
    var a := Delivering(|c.deltas|);
    DeliveringDelivers(c, |c.deltas|);
    assert c.deltas[..|c.deltas|] == c.deltas && c.deltas[|c.deltas|..] == [];
    hide Stops, Run, Delivering;
    OneMore(c, a, Up(ProviderReturns));
    a := a + [Up(ProviderReturns)];
    OneMore(c, a, Up(ProviderClosesErrors));
    a := a + [Up(ProviderClosesErrors)];
    OneMore(c, a, Up(ProviderClosesDeltas));
    a := a + [Up(ProviderClosesDeltas)];
    OneMore(c, a, Wrap(SeesClose));
    a := a + [Wrap(SeesClose)];
    OneMore(c, a, Wrap(ShutsErrors));
    a := a + [Wrap(ShutsErrors)];
    OneMore(c, a, ServerReadsError);
  }

  /** What that costs: the failed stream should be refused, but after the losing schedule the server
      reports it completed whenever the tool calls received so far pass the policy. */
  lemma ALostErrorCompletesTheTurn(c: Script, provider: string, storeMsgs: seq<Message>, byDefault: bool)
    requires c.gate == Allowed && NeverStops(c) && c.ending != Ended
    ensures var policy := PolicyOf(c.request);
            var s := Run(c, LosingSchedule(c));
            && s.Some?
            && StreamOutcome(c.request, provider, Offered(c), OfferedEnding(c), storeMsgs, c.firstId, byDefault).Refused?
            && (StreamOutcome(c.request, provider, s.value.server.received, s.value.server.ending, storeMsgs, c.firstId,
                              byDefault).Answered?
                <==> ToolPolicy.Verdict(policy, CallsIn(Fold(policy, c.firstId, c.deltas).items)).None?)
  {
    AnyErrorCanBeLost(c);
    assert c.deltas[..|c.deltas|] == c.deltas && !Stops(c, c.deltas);
    StreamAggregate.FoldAgrees(PolicyOf(c.request), c.firstId, c.deltas);
    hide Run, Delivering, Fold, LosingSchedule, ToolPolicy.Verdict;
  }

  lemma LossChangesTheConclusion(c: Script)
    requires c.gate == Allowed && NeverStops(c) && c.ending != Ended
    ensures !Concludes(c, c.deltas, Ended)
  {
    assert c.deltas[..|c.deltas|] == c.deltas && !Stops(c, c.deltas);
    var policy, s := PolicyOf(c.request), Fold(PolicyOf(c.request), c.firstId, c.deltas);
    StreamAggregate.FoldAgrees(policy, c.firstId, c.deltas);
    ToolPolicy.VerdictBlamesCalls(policy, CallsIn(s.items));
    assert FinalError(policy, s, Ended) != FinalError(policy, s, c.ending);
    hide Fold, FinalError, ToolPolicy.Verdict;
    assert StreamOutcome(c.request, "", c.deltas, Ended, [], c.firstId, false)
           != StreamOutcome(c.request, "", c.deltas, c.ending, [], c.firstId, false);
  }

  lemma ReadToTheEnd(c: Script, v: Server)
    requires v.received == c.deltas && !Stops(c, v.received) && forall i :: 0 <= i < |v.received| ==> !Stops(c, v.received[..i])
    ensures NeverStops(c)
  {
    hide Stops;
    assert c.deltas[..|c.deltas|] == c.deltas;
  }

  /** A run over an admitting breaker concludes as the stream does, unless there is an error to lose and the
      server waits for it. */
  lemma NothingToLose(c: Script, steps: seq<Step>)
    requires Run(c, steps).Some? && (c.ending == Ended || !NeverStops(c)) && c.gate == Allowed
    ensures var s := Run(c, steps).value;
            s.server.stage == Left && !s.disconnected ==> Concludes(c, s.server.received, s.server.ending)
  {
    hide Run, Stops, NeverStops;
    WrapperForwardsDeltas(c, steps);
    var s := Run(c, steps).value;
    if s.server.stage == Left && !s.disconnected {
      if Stops(c, s.server.received) {
        StoppedEarlyConcludes(c, s.server.received);
      } else {
        ReadToTheEnd(c, s.server);
      }
    }
  }

  /** Exactly when the wrapper preserves the conclusion of a stream in every schedule: when no admitting
      breaker stands behind it, or there is no error to lose, or the server stops before the end. */
  lemma ErrorsSurviveExactlyWhen(c: Script)
    ensures (forall steps :: Run(c, steps).Some? ==>
               var s := Run(c, steps).value;
               s.server.stage == Left && !s.disconnected ==> Concludes(c, s.server.received, s.server.ending))
            <==>
            (c.gate != Allowed || c.ending == Ended || !NeverStops(c))
  {
    if c.gate != Allowed || c.ending == Ended || !NeverStops(c) {
      forall steps | Run(c, steps).Some?
        ensures var s := Run(c, steps).value;
                s.server.stage == Left && !s.disconnected ==> Concludes(c, s.server.received, s.server.ending)
      {
        if c.gate != Allowed {
          WrapperIsFaithful(c, steps);
        } else {
          NothingToLose(c, steps);
        }
      }
    } else {
      AnyErrorCanBeLost(c);
      LossChangesTheConclusion(c);
    }
    hide Run, Concludes, NeverStops, LosingSchedule;
  }

  // ----- the abandoned wrapper

  /** The server has left after `n` deltas and the wrapper holds the next one. */
  function Abandoned(c: Script, n: nat): State
    requires n < |c.deltas|
  {
    State(Start(c).(unsent := c.deltas[n + 1..]), FRESH.(holding := Some(c.deltas[n])),
          Server(c.deltas[..n], Ended, Left, false), false)
  }

  function ServerLeft(c: Script, n: nat): State
    requires n <= |c.deltas|
  {
    Delivered(c, n).(server := Server(c.deltas[..n], Ended, Left, false))
  }

  lemma LastDelivery(c: Script, n: nat)
    requires c.gate != Shut && n < |c.deltas| && Stops(c, c.deltas[..n + 1])
    ensures var s := Delivered(c, n);
            && Enabled(c, s, Wrap(TakesDelta)) && Enabled(c, Take(c, s, Wrap(TakesDelta)), Wrap(PassesDelta))
            && Take(c, Take(c, s, Wrap(TakesDelta)), Wrap(PassesDelta)) == ServerLeft(c, n + 1)
  {
    DeliverOne(c, n);
    hide Enabled, Take, Stops;
  }

  lemma StopsAreNotEmpty(c: Script, n: nat)
    requires n <= |c.deltas| && Stops(c, c.deltas[..n])
    ensures n > 0
  {
  }

  lemma StoppingDelivery(c: Script, n: nat)
    requires c.gate != Shut && n <= |c.deltas| && Stops(c, c.deltas[..n]) && forall i :: 0 <= i < n ==> !Stops(c, c.deltas[..i])
    ensures Run(c, Delivering(n)) == Some(ServerLeft(c, n))
  {
    hide Run, Enabled, Take, Stops, Delivered, ServerLeft;
    StopsAreNotEmpty(c, n);
    DeliveringDelivers(c, n - 1);
    LastDelivery(c, n - 1);
    OneMore(c, Delivering(n - 1), Wrap(TakesDelta));
    OneMore(c, Delivering(n - 1) + [Wrap(TakesDelta)], Wrap(PassesDelta));
  }

  lemma AbandonedIsReached(c: Script, n: nat) returns (steps: seq<Step>)
    requires c.gate != Shut && n < |c.deltas| && Stops(c, c.deltas[..n]) && forall i :: 0 <= i < n ==> !Stops(c, c.deltas[..i])
    ensures Run(c, steps) == Some(Abandoned(c, n))
  {
    hide Run, Enabled, Take, Stops, ServerLeft, Abandoned;
    StoppingDelivery(c, n);
    TakeLate(c, n);
    OneMore(c, Delivering(n), Wrap(TakesDelta));
    steps := Delivering(n) + [Wrap(TakesDelta)];
  }

  /** The wrapper takes one more delta from the provider, though the server has left. */
  lemma TakeLate(c: Script, n: nat)
    requires c.gate != Shut && n < |c.deltas|
    ensures Enabled(c, ServerLeft(c, n), Wrap(TakesDelta))
    ensures Take(c, ServerLeft(c, n), Wrap(TakesDelta)) == Abandoned(c, n)
  {
  }

  lemma UpMoves(c: Script, steps: seq<Step>, s: State, step: UpstreamStep)
    requires Run(c, steps) == Some(s) && CanStep(s.up, step, Cancelled(s))
    ensures Run(c, steps + [Up(step)]) == Some(s.(up := StepUpstream(s.up, step)))
  {
    OneMore(c, steps, Up(step));
  }

  /** The upstream winds up once the request is over, and leaves the wrapper as it is. */
  lemma WindUp(c: Script, n: nat, before: seq<Step>) returns (steps: seq<Step>)
    requires c.gate != Shut && n < |c.deltas| && Run(c, before) == Some(Abandoned(c, n))
    ensures Run(c, steps).Some? && Final(c, Run(c, steps).value)
    ensures Run(c, steps).value.wrapper == Abandoned(c, n).wrapper && !Run(c, steps).value.disconnected
  {
    hide Run;
    var s := Abandoned(c, n);
    var first := if s.up.unsent == [] then ProviderReturns else ProviderGivesUp;
    UpMoves(c, before, s, first);
    steps, s := before + [Up(first)], s.(up := StepUpstream(s.up, first));
    UpMoves(c, steps, s, ProviderClosesErrors);
    steps, s := steps + [Up(ProviderClosesErrors)], s.(up := StepUpstream(s.up, ProviderClosesErrors));
    UpMoves(c, steps, s, ProviderClosesDeltas);
    steps, s := steps + [Up(ProviderClosesDeltas)], s.(up := StepUpstream(s.up, ProviderClosesDeltas));
    if c.gate == Allowed {
      UpMoves(c, steps, s, BreakerReads);
      steps, s := steps + [Up(BreakerReads)], s.(up := StepUpstream(s.up, BreakerReads));
      UpMoves(c, steps, s, BreakerJudges);
      steps, s := steps + [Up(BreakerJudges)], s.(up := StepUpstream(s.up, BreakerJudges));
      UpMoves(c, steps, s, BreakerForwards);
      steps, s := steps + [Up(BreakerForwards)], s.(up := StepUpstream(s.up, BreakerForwards));
      UpMoves(c, steps, s, BreakerCloses);
      steps, s := steps + [Up(BreakerCloses)], s.(up := StepUpstream(s.up, BreakerCloses));
    }
  }

  lemma FirstStop(c: Script, i: nat) returns (n: nat)
    requires i < |c.deltas| && Stops(c, c.deltas[..i])
    ensures n <= i && Stops(c, c.deltas[..n]) && forall k :: 0 <= k < n ==> !Stops(c, c.deltas[..k])
  {
    n := 0;
    while !Stops(c, c.deltas[..n])
      invariant n <= i && forall k :: 0 <= k < n ==> !Stops(c, c.deltas[..k])
      decreases i - n
    {
      n := n + 1;
    }
  }

  /** Exactly when the wrapper's goroutine can stay behind for good, blocked on a delta that nobody reads,
      though no client disconnected: when the stream goes on after the server stops. */
  lemma WrapperCanStayExactlyWhen(c: Script)
    ensures (exists steps :: Run(c, steps).Some? && Final(c, Run(c, steps).value)
                             && !Run(c, steps).value.disconnected && Run(c, steps).value.wrapper.stage != Returned)
            <==>
            (exists i :: 0 <= i < |Offered(c)| && Stops(c, Offered(c)[..i]))
  {
    if steps :| Run(c, steps).Some? && Final(c, Run(c, steps).value)
                && !Run(c, steps).value.disconnected && Run(c, steps).value.wrapper.stage != Returned {
      var s := Run(c, steps).value;
      OnlyAnAbandonedWrapperStays(c, steps);
      EveryStateIsSound(c, steps);
      hide Run, Final, Stops, Sound;
      var i := |s.server.received|;
      assert Offered(c)[..i] == s.server.received;
    }
    if i :| 0 <= i < |Offered(c)| && Stops(c, Offered(c)[..i]) {
      var n := FirstStop(c, i);
      var before := AbandonedIsReached(c, n);
      var steps := WindUp(c, n, before);
      hide Run, Final, Stops;
      assert Run(c, steps).Some? && Final(c, Run(c, steps).value)
             && !Run(c, steps).value.disconnected && Run(c, steps).value.wrapper.stage != Returned;
    }
  }

  // ----- what the breaker is told through the wrapper

  /** Every run can be brought to an end without the client's help; what a provider that has stopped
      sending left unsent stays unsent. */
  lemma {:induction false} EveryRunCanFinish(c: Script, steps: seq<Step>) returns (all: seq<Step>)
    requires Run(c, steps).Some?
    ensures steps <= all && Run(c, all).Some? && Final(c, Run(c, all).value)
    ensures Run(c, all).value.disconnected == Run(c, steps).value.disconnected
    ensures Run(c, steps).value.up.stage != Sending ==> Run(c, all).value.up.unsent == Run(c, steps).value.up.unsent
    decreases Work(Run(c, steps).value)
  {
    var s := Run(c, steps).value;
    if step :| step != ClientDisconnects && Enabled(c, s, step) {
      OneMore(c, steps, step);
      StepUsesWork(c, s, step);
      NoSendingAgain(c, s, step);
      hide Run, Enabled, Take, Work;
      all := EveryRunCanFinish(c, steps + [step]);
    } else {
      all := steps;
    }
  }

  lemma NoSendingAgain(c: Script, s: State, step: Step)
    requires Enabled(c, s, step) && step != ClientDisconnects
    ensures Take(c, s, step).disconnected == s.disconnected
    ensures s.up.stage != Sending ==> Take(c, s, step).up.stage != Sending && Take(c, s, step).up.unsent == s.up.unsent
  {
    hide Stops;
  }

  /** What is unsent at the end, from where the server stops. */
  lemma UnsentAtTheEnd(c: Script, s: State)
    requires Sound(c, s) && Away(s.server) && !s.disconnected && c.gate == Allowed
    requires s.wrapper.stage != Returned ==> Stops(c, s.server.received) && |s.server.received| < |Offered(c)|
    requires s.wrapper.stage == Returned <==> s.wrapper.holding.None?
    ensures ReadsAll(c) ==> s.up.unsent == []
    ensures (exists i :: 0 <= i < |c.deltas| - 1 && Stops(c, c.deltas[..i])) ==> s.up.unsent != []
  {
    hide Stops, UpstreamSound;
    var n := |s.server.received|;
    assert s.server.received == c.deltas[..n];
    forall i | 0 <= i < n ensures !Stops(c, c.deltas[..i]) {
      assert s.server.received[..i] == c.deltas[..i];
    }
    if s.up.unsent == [] && s.wrapper.holding.None? {
      assert s.server.received == c.deltas;
    }
  }

  /** The verdict through the wrapper, from the script alone and with the client there to the end: success
      iff the stream ends without error, when no proper prefix stops the server; failure when one that
      lacks two deltas or more does. */
  lemma DoneTellsTheScript(c: Script, steps: seq<Step>)
    requires Run(c, steps).Some? && Final(c, Run(c, steps).value)
    requires c.gate == Allowed && !Run(c, steps).value.disconnected
    ensures ReadsAll(c) ==> Run(c, steps).value.up.verdicts == [c.ending == Ended]
    ensures (exists i :: 0 <= i < |c.deltas| - 1 && Stops(c, c.deltas[..i])) ==> Run(c, steps).value.up.verdicts == [false]
  {
    OnlyAnAbandonedWrapperStays(c, steps);
    EveryStateIsSound(c, steps);
    UnsentAtTheEnd(c, Run(c, steps).value);
    hide Run, Final, Sound, ReadsAll, Stops;
  }

  /** When the server stops one delta before the end of a faultless stream, the schedule decides: the wrapper
      takes the last delta and the breaker hears of a success, or the provider gives up on it first and
      the breaker hears of a failure. */
  lemma TheScheduleDecides(c: Script) returns (good: seq<Step>, bad: seq<Step>)
    requires c.gate == Allowed && c.ending == Ended && c.deltas != []
    requires var n := |c.deltas| - 1; Stops(c, c.deltas[..n]) && forall i :: 0 <= i < n ==> !Stops(c, c.deltas[..i])
    ensures Run(c, good).Some? && Final(c, Run(c, good).value) && !Run(c, good).value.disconnected
    ensures Run(c, bad).Some? && Final(c, Run(c, bad).value) && !Run(c, bad).value.disconnected
    ensures Run(c, good).value.up.verdicts == [true] && Run(c, bad).value.up.verdicts == [false]
  {
    var n := |c.deltas| - 1;
    good := TakenLast(c, n);
    bad := GivenUpLast(c, n);
  }

  lemma TakenLast(c: Script, n: nat) returns (steps: seq<Step>)
    requires c.gate == Allowed && c.ending == Ended && |c.deltas| == n + 1
    requires Stops(c, c.deltas[..n]) && forall i :: 0 <= i < n ==> !Stops(c, c.deltas[..i])
    ensures Run(c, steps).Some? && Final(c, Run(c, steps).value) && !Run(c, steps).value.disconnected
    ensures Run(c, steps).value.up.verdicts == [true]
  {
    hide Run, Final, Stops, UpstreamSound;
    var taken := AbandonedIsReached(c, n);
    steps := EveryRunCanFinish(c, taken);
    OnlyAnAbandonedWrapperStays(c, steps);
    NoneUnsentLater(c, taken, steps);
  }

  /** A hand-over is never undone. */
  lemma {:induction false} NoneUnsentLater(c: Script, some: seq<Step>, all: seq<Step>)
    requires some <= all && Run(c, all).Some? && Run(c, some).Some? && Run(c, some).value.up.unsent == []
    ensures Run(c, all).value.up.unsent == []
  {
    if |some| < |all| {
      var m := |all| - 1;
      assert some <= all[..m];
      RunOfPrefix(c, all, m);
      NoneUnsentLater(c, some, all[..m]);
      NoMoreUnsent(c, Run(c, all[..m]).value, all[m]);
      hide Enabled, Take;
    } else {
      assert some == all;
    }
  }

  lemma RunOfPrefix(c: Script, all: seq<Step>, m: nat)
    requires |all| == m + 1 && Run(c, all).Some?
    ensures Run(c, all[..m]).Some? && Enabled(c, Run(c, all[..m]).value, all[m])
    ensures Run(c, all).value == Take(c, Run(c, all[..m]).value, all[m])
  {
  }

  lemma NoMoreUnsent(c: Script, s: State, step: Step)
    requires Enabled(c, s, step) && s.up.unsent == []
    ensures Take(c, s, step).up.unsent == []
  {
    hide Stops;
  }

  lemma GivenUpLast(c: Script, n: nat) returns (steps: seq<Step>)
    requires c.gate == Allowed && c.ending == Ended && |c.deltas| == n + 1
    requires Stops(c, c.deltas[..n]) && forall i :: 0 <= i < n ==> !Stops(c, c.deltas[..i])
    ensures Run(c, steps).Some? && Final(c, Run(c, steps).value) && !Run(c, steps).value.disconnected
    ensures Run(c, steps).value.up.verdicts == [false]
  {
    StoppingDelivery(c, n);
    hide Run, Final, Stops;
    UpMoves(c, Delivering(n), ServerLeft(c, n), ProviderGivesUp);
    steps := EveryRunCanFinish(c, Delivering(n) + [Up(ProviderGivesUp)]);
    OnlyAnAbandonedWrapperStays(c, steps);
  }

  /** So a faultless stream is sure to be told as a success exactly when no proper prefix stops the server. */
  lemma SuccessIsSureExactlyWhen(c: Script)
    requires c.gate == Allowed && c.ending == Ended
    ensures (forall steps :: Run(c, steps).Some? && Final(c, Run(c, steps).value) && !Run(c, steps).value.disconnected ==>
               Run(c, steps).value.up.verdicts == [true])
            <==> ReadsAll(c)
  {
    if ReadsAll(c) {
      forall steps | Run(c, steps).Some? && Final(c, Run(c, steps).value) && !Run(c, steps).value.disconnected
        ensures Run(c, steps).value.up.verdicts == [true]
      {
        DoneTellsTheScript(c, steps);
      }
    } else {
      var i :| 0 <= i < |c.deltas| && Stops(c, c.deltas[..i]);
      var n := FirstStop(c, i);
      if n == |c.deltas| - 1 {
        var good, bad := TheScheduleDecides(c);
      } else {
        assert Run(c, []) == Some(Initial(c));
        var steps := EveryRunCanFinish(c, []);
        DoneTellsTheScript(c, steps);
      }
    }
    hide Run, Final, ReadsAll, Stops;
  }
}

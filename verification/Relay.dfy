/** The server's receive loop directly over the provider and its circuit breaker, as a state machine
    whose steps interleave freely. */
module Relay {
  import opened Api
  import opened StreamSpec
  import opened Requests
  import opened Channels

  datatype Step =
    | Up(step: UpstreamStep)
    | HandOver
    | ServerSeesClose
    | ServerDrains
    | ServerReadsError
    | ClientDisconnects
    | ServerSeesCancel

  datatype State = State(up: Upstream, server: Server, disconnected: bool)

  function Initial(c: Script): State {
    State(Start(c), LISTENING, false)
  }

  /** The request context ends when the handler returns or the client goes. */
  predicate Cancelled(s: State) {
    s.disconnected || Away(s.server)
  }

  predicate Enabled(c: Script, s: State, step: Step) {
    match step
    case Up(us) => CanStep(s.up, us, Cancelled(s))
    case HandOver => s.up.stage == Sending && s.up.unsent != [] && s.server.stage == Reading
    case ServerSeesClose => s.server.stage == Reading && s.up.stage == Finished
    case ServerDrains => s.server.stage == Draining && Readable(Out(c, s.up))
    case ServerReadsError => s.server.stage == Reading && Readable(Out(c, s.up))
    case ClientDisconnects => !s.disconnected
    case ServerSeesCancel => s.disconnected && s.server.stage == Reading
  }

  function Take(c: Script, s: State, step: Step): State
    requires Enabled(c, s, step)
  {
    match step
    case Up(us) => s.(up := StepUpstream(s.up, us))
    case HandOver => s.(up := Sent(s.up), server := Receive(c, s.server, s.up.unsent[0]))
    case ServerSeesClose => s.(server := s.server.(stage := Draining))
    case ServerDrains => s.(up := OutRead(c, s.up), server := HearError(s.server, Out(c, s.up).pending))
    case ServerReadsError => s.(up := OutRead(c, s.up), server := HearError(s.server, Out(c, s.up).pending))
    case ClientDisconnects => s.(disconnected := true)
    case ServerSeesCancel => s.(server := s.server.(stage := Gone))
  }

  /** Where the schedule `steps` leads, if each of its steps can be taken. */
  function Run(c: Script, steps: seq<Step>): Option<State> {
    if steps == [] then Some(Initial(c))
    else
      var before := Run(c, steps[..|steps| - 1]);
      if before.Some? && Enabled(c, before.value, steps[|steps| - 1])
      then Some(Take(c, before.value, steps[|steps| - 1]))
      else None
  }

  ghost predicate Conserved(c: Script, s: State) {
    s.server.received + s.up.unsent == Offered(c)
  }

  ghost predicate Sound(c: Script, s: State) {
    && Conserved(c, s)
    && StopsInTime(c, s.server)
    && UpstreamSound(c, s.up, Cancelled(s), s.server.heard)
    && (s.server.heard ==> s.up.stage != Sending && Spoken(c, s.up))
    && (s.server.stage == Draining ==> s.up.stage == Finished)
    && (s.server.stage == Gone ==> s.disconnected)
    && (s.server.heard && !s.disconnected ==> s.up.unsent == [] && s.server.ending == OfferedEnding(c))
  }

  lemma ReadingIsSound(c: Script, s: State)
    requires Sound(c, s) && (s.server.stage == Reading || s.server.stage == Draining) && Readable(Out(c, s.up))
    ensures Sound(c, State(OutRead(c, s.up), HearError(s.server, Out(c, s.up).pending), s.disconnected))
  {
  }

  lemma HandingOverConserves(c: Script, s: State)
    requires Conserved(c, s) && Enabled(c, s, HandOver)
    ensures Conserved(c, Take(c, s, HandOver))
  {
    hide Stops, Offered, Out;
    assert s.up.unsent == [s.up.unsent[0]] + s.up.unsent[1..];
  }

  lemma HandingOverIsSound(c: Script, s: State)
    requires Sound(c, s) && Enabled(c, s, HandOver)
    ensures Sound(c, Take(c, s, HandOver))
  {
    HandingOverConserves(c, s);
    ReceiveIsInTime(c, s.server, s.up.unsent[0]);
    SendingIsSound(c, s.up, Cancelled(s), Cancelled(Take(c, s, HandOver)));
    hide StopsInTime, Stops, UpstreamSound, Conserved;
  }

  lemma StepIsSound(c: Script, s: State, step: Step)
    requires Sound(c, s) && Enabled(c, s, step)
    ensures Sound(c, Take(c, s, step))
  {
    match step
    case Up(us) => UpstreamStepIsSound(c, s.up, us, Cancelled(s), s.server.heard);
    case HandOver => HandingOverIsSound(c, s);
    case ServerDrains => ReadingIsSound(c, s);
    case ServerReadsError => ReadingIsSound(c, s);
    case ServerSeesClose =>
    case ClientDisconnects =>
    case ServerSeesCancel =>
  }

  lemma {:induction false} EveryStateIsSound(c: Script, steps: seq<Step>)
    requires Run(c, steps).Some?
    ensures Sound(c, Run(c, steps).value)
    ensures Run(c, steps).value.server.received + Run(c, steps).value.up.unsent == Offered(c)
  {
    hide Sound, Enabled, Take;
    if steps == [] {
      InitialIsSound(c);
    } else {
      var n := |steps| - 1;
      EveryStateIsSound(c, steps[..n]);
      StepIsSound(c, Run(c, steps[..n]).value, steps[n]);
    }
    SoundIsConserved(c, Run(c, steps).value);
  }

  lemma SoundIsConserved(c: Script, s: State)
    requires Sound(c, s)
    ensures s.server.received + s.up.unsent == Offered(c)
  {
  }

  lemma InitialIsSound(c: Script)
    ensures Sound(c, Initial(c))
  {
  }

  lemma ErrorsWait(c: Script, s: State)
    requires Sound(c, s) && c.gate != Shut
    ensures s.up.unsent != [] && !Cancelled(s) ==> !Readable(s.up.errors) && !Readable(Out(c, s.up))
  {
    hide StopsInTime, Offered;
  }

  /** The error channel is readable only after the last hand-over: while a delta is unsent and the
      request lives, neither the provider's error channel nor the reader's has anything to read. */
  lemma ErrorsComeLast(c: Script, steps: seq<Step>)
    requires Run(c, steps).Some? && c.gate != Shut
    ensures var s := Run(c, steps).value;
            s.up.unsent != [] && !Cancelled(s) ==> !Readable(s.up.errors) && !Readable(Out(c, s.up))
  {
    EveryStateIsSound(c, steps);
    hide Run;
    ErrorsWait(c, Run(c, steps).value);
  }

  /** The relay loses nothing: whatever the schedule, a receive loop that was left without a disconnect
      has received the offered deltas up to where it stops, ends with the provider's error unless it
      stopped first, and concludes as the whole offered stream does. */
  lemma RelayLosesNothing(c: Script, steps: seq<Step>)
    requires Run(c, steps).Some?
    ensures var s := Run(c, steps).value;
            s.server.stage == Left && !s.disconnected ==>
              && s.server.received <= Offered(c)
              && (forall i :: 0 <= i < |s.server.received| ==> !Stops(c, s.server.received[..i]))
              && (if Stops(c, s.server.received) then s.server.ending == Ended
                  else s.server.received == Offered(c) && s.server.ending == OfferedEnding(c))
              && Concludes(c, s.server.received, s.server.ending)
  {
    EveryStateIsSound(c, steps);
    var s := Run(c, steps).value;
    if s.server.stage == Left && !s.disconnected && Stops(c, s.server.received) {
      StoppedEarlyConcludes(c, s.server.received);
    }
  }

  function Work(s: State): nat {
    UpstreamWork(s.up) + ServerWork(s.server) + if s.disconnected then 0 else 1
  }

  /** Every step uses up work, so every schedule is finite. */
  lemma {:induction false} SchedulesAreBounded(c: Script, steps: seq<Step>)
    requires Run(c, steps).Some?
    ensures |steps| + Work(Run(c, steps).value) <= |c.deltas| + 10
  {
    hide Enabled, Take;
    if steps != [] {
      var n := |steps| - 1;
      SchedulesAreBounded(c, steps[..n]);
      StepUsesWork(c, Run(c, steps[..n]).value, steps[n]);
      hide Work;
    }
  }

  lemma StepUsesWork(c: Script, s: State, step: Step)
    requires Enabled(c, s, step)
    ensures Work(Take(c, s, step)) < Work(s)
  {
    hide Stops;
    match step
    case Up(us) => UpstreamStepUsesWork(s.up, us, Cancelled(s));
    case _ =>
  }

  predicate Settled(s: State) {
    Away(s.server) && s.up.stage == Finished && s.up.breaker == Exited
  }

  /** Nothing can move any more, but for a disconnect. */
  ghost predicate Final(c: Script, s: State) {
    forall step :: step != ClientDisconnects ==> !Enabled(c, s, step)
  }

  /** A run that cannot go on (but for a disconnect) has no goroutine left behind, and the breaker was
      told the outcome of an admitted stream exactly once: success iff every delta was handed over and
      the provider then reported no error.  So a stream that the server or the client abandons counts
      as a failure of the provider. */
  lemma DoneIsCalledOnce(c: Script, steps: seq<Step>)
    requires Run(c, steps).Some? && Final(c, Run(c, steps).value)
    ensures var s := Run(c, steps).value;
            && Settled(s)
            && s.up.verdicts == if c.gate == Allowed then [s.up.unsent == [] && c.ending == Ended] else []
  {
    EveryStateIsSound(c, steps);
    var s := Run(c, steps).value;
    NothingLeftToDo(c, s);
    hide Run, Enabled, StopsInTime;
  }

  lemma NothingLeftToDo(c: Script, s: State)
    requires Sound(c, s) && Final(c, s)
    ensures Settled(s)
  {
    hide StopsInTime, Stops, Offered;
    assert !Enabled(c, s, HandOver) && !Enabled(c, s, ServerSeesClose);
    assert !Enabled(c, s, ServerDrains) && !Enabled(c, s, ServerReadsError);
    assert !Enabled(c, s, Up(ProviderReturns)) && !Enabled(c, s, Up(ProviderGivesUp));
    assert !Enabled(c, s, Up(ProviderClosesErrors)) && !Enabled(c, s, Up(ProviderClosesDeltas));
    assert !Enabled(c, s, Up(BreakerReads)) && !Enabled(c, s, Up(BreakerJudges));
    assert !Enabled(c, s, Up(BreakerForwards)) && !Enabled(c, s, Up(BreakerCloses));
  }

  lemma OneMore(c: Script, steps: seq<Step>, step: Step)
    requires Run(c, steps).Some? && Enabled(c, Run(c, steps).value, step)
    ensures Run(c, steps + [step]) == Some(Take(c, Run(c, steps).value, step))
  {
    assert (steps + [step])[..|steps|] == steps;
  }

  /** Every run can be brought to an end without the client's help. */
  lemma {:induction false} EveryRunCanFinish(c: Script, steps: seq<Step>) returns (all: seq<Step>)
    requires Run(c, steps).Some?
    ensures steps <= all && Run(c, all).Some? && Final(c, Run(c, all).value)
    ensures Run(c, all).value.disconnected == Run(c, steps).value.disconnected
    decreases Work(Run(c, steps).value)
  {
    var s := Run(c, steps).value;
    if step :| step != ClientDisconnects && Enabled(c, s, step) {
      OneMore(c, steps, step);
      StepUsesWork(c, s, step);
      assert Take(c, s, step).disconnected == s.disconnected;
      hide Run, Enabled, Take, Work;
      all := EveryRunCanFinish(c, steps + [step]);
    } else {
      all := steps;
    }
  }

  lemma SettledReadsAll(c: Script, s: State)
    ensures Sound(c, s) && Settled(s) && !s.disconnected && c.gate == Allowed ==> (s.up.unsent == [] <==> ReadsAll(c))
  {
    hide Stops;
    if Sound(c, s) && Settled(s) && !s.disconnected && c.gate == Allowed {
      if s.up.unsent != [] {
        assert s.server.received == c.deltas[..|s.server.received|];
      } else {
        assert s.server.received == c.deltas;
      }
    }
  }

  /** What the breaker is told, from the script alone: with the client there to the end, `done` reports
      success iff the stream ends without error and no proper prefix of it stops the server. */
  lemma DoneTellsTheScript(c: Script, steps: seq<Step>)
    requires Run(c, steps).Some? && Final(c, Run(c, steps).value)
    requires c.gate == Allowed && !Run(c, steps).value.disconnected
    ensures Run(c, steps).value.up.verdicts == [c.ending == Ended && ReadsAll(c)]
  {
    DoneIsCalledOnce(c, steps);
    EveryStateIsSound(c, steps);
    SettledReadsAll(c, Run(c, steps).value);
    hide Run, Final, Sound, ReadsAll;
  }

  /** The failure: whenever the server stops before the end of a faultless stream, by an early `done` or a
      refused call, a run that goes on to its end tells the breaker that the provider failed. */
  lemma AnEarlyStopCountsAsFailure(c: Script) returns (steps: seq<Step>)
    requires c.gate == Allowed && c.ending == Ended && !ReadsAll(c)
    ensures Run(c, steps).Some? && Final(c, Run(c, steps).value) && !Run(c, steps).value.disconnected
    ensures Run(c, steps).value.up.verdicts == [false]
  {
    assert Run(c, []) == Some(Initial(c));
    steps := EveryRunCanFinish(c, []);
    DoneTellsTheScript(c, steps);
    hide Run, Final, ReadsAll;
  }

  /** One such stream: `done`, and a delta after it. */
  lemma DoneThenMoreIsAFailure(request: Request, firstId: Id, last: Delta, more: Delta) returns (steps: seq<Step>)
    requires last.done
    ensures var c := Script(request, firstId, [last, more], Ended, Allowed);
            && Run(c, steps).Some? && Final(c, Run(c, steps).value) && !Run(c, steps).value.disconnected
            && Run(c, steps).value.up.verdicts == [false]
  {
    var c := Script(request, firstId, [last, more], Ended, Allowed);
    assert c.deltas[..1] == [last] && [last][..0] == [];
    assert Stops(c, c.deltas[..1]);
    hide Run, Final, Stops;
    steps := AnEarlyStopCountsAsFailure(c);
  }
}

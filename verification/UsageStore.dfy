/** The usage store: recorders fill a bounded buffer, one goroutine gathers batches and hands them to
    `insertBatch` (internal/usage/store.go:39-129).  Recorders, the ticker, `Close` and the goroutine
    interleave freely; a channel operation is one step. */
module UsageStore {
  import opened Api

  const BATCH_SIZE := 100

  /** `Looping`: in the select loop; `Draining`: `done` was seen; `Returned`: the goroutine has ended. */
  datatype Stage = Looping | Draining | Returned

  /** `inserted` logs the calls of `insertBatch`, `accepted` the events that `Record` did not drop. */
  datatype State<T> =
    State(capacity: nat, buffer: seq<T>, batch: seq<T>, inserted: seq<seq<T>>, accepted: seq<T>,
          closed: bool, stage: Stage)

  datatype Step<T> = Record(event: T) | Close | Receive | Tick | SeeDone | Drain | Finish

  /** NewStore: a size that is not positive means 1000. */
  function Initial<T>(bufferSize: int): State<T> {
    State(if bufferSize <= 0 then 1000 else bufferSize, [], [], [], [], false, Looping)
  }

  function Flush<T>(s: State<T>): State<T> {
    if s.batch == [] then s else s.(inserted := s.inserted + [s.batch], batch := [])
  }

  function Gather<T>(s: State<T>): State<T>
    requires s.buffer != []
  {
    s.(buffer := s.buffer[1..], batch := s.batch + [s.buffer[0]])
  }

  predicate Enabled<T>(s: State<T>, step: Step<T>) {
    match step
    case Record(_) => true
    case Close => !s.closed
    case Receive => s.stage == Looping && s.buffer != []
    case Tick => s.stage == Looping
    case SeeDone => s.stage == Looping && s.closed
    case Drain => s.stage == Draining && s.buffer != []
    case Finish => s.stage == Draining && s.buffer == []
  }

  function Take<T>(s: State<T>, step: Step<T>): State<T>
    requires Enabled(s, step)
  {
    match step
    case Record(e) =>
      if |s.buffer| < s.capacity then s.(buffer := s.buffer + [e], accepted := s.accepted + [e]) else s
    case Close => s.(closed := true)
    case Receive => if |s.batch| + 1 >= BATCH_SIZE then Flush(Gather(s)) else Gather(s)
    case Tick => Flush(s)
    case SeeDone => s.(stage := Draining)
    case Drain => Gather(s)
    case Finish => Flush(s).(stage := Returned)
  }

  /** Where the schedule `steps` leads, if each of its steps can be taken. */
  function Run<T>(bufferSize: int, steps: seq<Step<T>>): Option<State<T>> {
    if steps == [] then Some(Initial(bufferSize))
    else
      var before := Run(bufferSize, steps[..|steps| - 1]);
      if before.Some? && Enabled(before.value, steps[|steps| - 1])
      then Some(Take(before.value, steps[|steps| - 1]))
      else None
  }

  function Flat<T>(batches: seq<seq<T>>): seq<T> {
    if batches == [] then [] else Flat(batches[..|batches| - 1]) + batches[|batches| - 1]
  }

  lemma FlatMore<T>(batches: seq<seq<T>>, b: seq<T>)
    ensures Flat(batches + [b]) == Flat(batches) + b
  {
    assert (batches + [b])[..|batches|] == batches;
  }

  /** Accepted events, in order, are those handed over, then those in the batch, then the buffered ones. */
  ghost predicate Conserved<T>(s: State<T>) {
    s.accepted == Flat(s.inserted) + s.batch + s.buffer
  }

  /** Only the goroutine's last batch may exceed the batch size. */
  ghost predicate Sized<T>(s: State<T>) {
    && |s.buffer| <= s.capacity
    && (s.stage == Looping ==> |s.batch| < 100)
    && (s.stage == Returned ==> s.batch == [])
    && (s.stage != Looping ==> s.closed)
    && forall i :: 0 <= i < |s.inserted| ==>
         |s.inserted[i]| > 0 && (|s.inserted[i]| <= 100 || (s.stage == Returned && i == |s.inserted| - 1))
  }

  lemma FlushConserves<T>(s: State<T>)
    requires Conserved(s)
    ensures Conserved(Flush(s))
  {
    FlatMore(s.inserted, s.batch);
  }

  lemma StepConserves<T>(s: State<T>, step: Step<T>)
    requires Conserved(s) && Enabled(s, step)
    ensures Conserved(Take(s, step))
  {
    match step
    case Record(e) =>
      assert s.accepted + [e] == Flat(s.inserted) + s.batch + (s.buffer + [e]);
    case Receive =>
      GatherConserves(s);
      FlushConserves(Gather(s));
    case Drain => GatherConserves(s);
    case Tick => FlushConserves(s);
    case Finish => FlushConserves(s);
    case _ =>
  }

  lemma GatherConserves<T>(s: State<T>)
    requires Conserved(s) && s.buffer != []
    ensures Conserved(Gather(s))
  {
    assert s.buffer == [s.buffer[0]] + s.buffer[1..];
  }

  lemma StepKeepsSizes<T>(s: State<T>, step: Step<T>)
    requires Sized(s) && Enabled(s, step)
    ensures Sized(Take(s, step))
  {
  }

  /** Whatever the schedule: accepted events are conserved in FIFO order, and only the batch of the
      final drain may hold more than a hundred. */
  lemma {:induction false} NothingIsLost<T>(bufferSize: int, steps: seq<Step<T>>)
    requires Run(bufferSize, steps).Some?
    ensures Conserved(Run(bufferSize, steps).value) && Sized(Run(bufferSize, steps).value)
  {
    hide Conserved, Sized, Enabled, Take;
    if steps == [] {
      InitialIsSound<T>(bufferSize);
    } else {
      var n := |steps| - 1;
      NothingIsLost(bufferSize, steps[..n]);
      StepConserves(Run(bufferSize, steps[..n]).value, steps[n]);
      StepKeepsSizes(Run(bufferSize, steps[..n]).value, steps[n]);
    }
  }

  lemma InitialIsSound<T>(bufferSize: int)
    ensures Conserved(Initial<T>(bufferSize)) && Sized(Initial<T>(bufferSize))
  {
  }

  lemma QuietStep<T>(s: State<T>, step: Step<T>)
    requires Enabled(s, step) && !step.Record? && (s.stage == Returned ==> s.buffer == [])
    ensures Take(s, step).stage == Returned ==> Take(s, step).buffer == []
  {
  }

  lemma {:induction false} QuietFinishEmptiesBuffer<T>(bufferSize: int, steps: seq<Step<T>>, closing: nat)
    requires Run(bufferSize, steps).Some? && closing <= |steps|
    requires Run(bufferSize, steps[..closing]).Some? && Run(bufferSize, steps[..closing]).value.stage != Returned
    requires forall i :: closing <= i < |steps| ==> !steps[i].Record?
    ensures Run(bufferSize, steps).value.stage == Returned ==> Run(bufferSize, steps).value.buffer == []
    decreases |steps|
  {
    if closing < |steps| {
      var n := |steps| - 1;
      assert steps[..n][..closing] == steps[..closing];
      hide Enabled, Take;
      QuietFinishEmptiesBuffer(bufferSize, steps[..n], closing);
      QuietStep(Run(bufferSize, steps[..n]).value, steps[n]);
    } else {
      assert steps[..closing] == steps;
    }
  }

  lemma {:induction false} ReturnsOnlyClosed<T>(bufferSize: int, steps: seq<Step<T>>, closing: nat)
    requires Run(bufferSize, steps).Some? && closing < |steps| && steps[closing] == Close
    ensures Run(bufferSize, steps[..closing]).Some? && !Run(bufferSize, steps[..closing]).value.closed
    decreases |steps|
  {
    var n := |steps| - 1;
    if closing < n {
      assert steps[..n][..closing] == steps[..closing];
      ReturnsOnlyClosed(bufferSize, steps[..n], closing);
    }
  }

  /** When `Close` has returned and no `Record` ran beside it, every accepted event has been handed to
      `insertBatch` exactly once, in order. */
  lemma CloseHandsOverEverything<T>(bufferSize: int, steps: seq<Step<T>>, closing: nat)
    requires Run(bufferSize, steps).Some? && Run(bufferSize, steps).value.stage == Returned
    requires closing < |steps| && steps[closing] == Close
    requires forall i :: closing < i < |steps| ==> !steps[i].Record?
    ensures Flat(Run(bufferSize, steps).value.inserted) == Run(bufferSize, steps).value.accepted
  {
    var s := Run(bufferSize, steps).value;
    ReturnsOnlyClosed(bufferSize, steps, closing);
    NothingIsLost(bufferSize, steps[..closing]);
    QuietFinishEmptiesBuffer(bufferSize, steps, closing);
    NothingIsLost(bufferSize, steps);
    hide Run;
    assert Flat(s.inserted) + [] + [] == Flat(s.inserted);
  }

  /** Nothing is handed over after the goroutine has returned: what is then in the buffer stays there. */
  lemma LateRecordsAreLost<T>(bufferSize: int, steps: seq<Step<T>>)
    requires Run(bufferSize, steps).Some? && Run(bufferSize, steps).value.stage == Returned
    ensures var s := Run(bufferSize, steps).value;
            && s.accepted == Flat(s.inserted) + s.buffer
            && (forall step :: Enabled(s, step) ==> Take(s, step).inserted == s.inserted)
  {
    NothingIsLost(bufferSize, steps);
    var s := Run(bufferSize, steps).value;
    hide Run;
    assert Flat(s.inserted) + [] == Flat(s.inserted);
  }

  /** A loss, for every store and event: `Close` returns, and a `Record` beside it is accepted into a buffer
      that nobody reads. */
  lemma ARecordCanBeLost<T>(bufferSize: int, e: T)
    ensures var s := Run(bufferSize, [Close, SeeDone, Finish, Record(e)]);
            s.Some? && s.value.stage == Returned && s.value.accepted == [e] && s.value.inserted == []
  {
    var a: seq<Step<T>> := [];
    OneMore(bufferSize, a, Close);
    a := a + [Close];
    OneMore(bufferSize, a, SeeDone);
    a := a + [SeeDone];
    OneMore(bufferSize, a, Finish);
    a := a + [Finish];
    OneMore(bufferSize, a, Record(e));
    assert a + [Record(e)] == [Close, SeeDone, Finish, Record(e)];
  }

  lemma OneMore<T>(bufferSize: int, steps: seq<Step<T>>, step: Step<T>)
    requires Run(bufferSize, steps).Some? && Enabled(Run(bufferSize, steps).value, step)
    ensures Run(bufferSize, steps + [step]) == Some(Take(Run(bufferSize, steps).value, step))
  {
    assert (steps + [step])[..|steps|] == steps;
  }

  /** After the final flush at step `f`, the buffer is empty until the first late `Record`, and holds
      something from then on. */
  lemma {:induction false} AfterFinish<T>(bufferSize: int, steps: seq<Step<T>>, f: nat)
    requires Run(bufferSize, steps).Some? && f < |steps| && steps[f].Finish?
    ensures var s := Run(bufferSize, steps).value;
            && s.stage == Returned && s.capacity > 0
            && (s.buffer == [] <==> forall i :: f < i < |steps| ==> !steps[i].Record?)
    decreases |steps|
  {
    var n := |steps| - 1;
    CapacityIsPositive(bufferSize, steps);
    if f < n {
      hide Enabled, Take;
      AfterFinish(bufferSize, steps[..n], f);
      LateStep(Run(bufferSize, steps[..n]).value, steps[n]);
      hide Run;
      assert forall i :: f < i < n ==> steps[..n][i] == steps[i];
      assert (forall i :: f < i < |steps| ==> !steps[i].Record?) <==>
             (forall i :: f < i < n ==> !steps[..n][i].Record?) && !steps[n].Record?;
    }
  }

  lemma LateStep<T>(s: State<T>, step: Step<T>)
    requires Enabled(s, step) && s.stage == Returned && s.capacity > 0
    ensures Take(s, step).stage == Returned
    ensures Take(s, step).buffer == [] <==> s.buffer == [] && !step.Record?
  {
  }

  lemma {:induction false} CapacityIsPositive<T>(bufferSize: int, steps: seq<Step<T>>)
    requires Run(bufferSize, steps).Some?
    ensures Run(bufferSize, steps).value.capacity > 0
  {
    if steps != [] {
      CapacityIsPositive(bufferSize, steps[..|steps| - 1]);
    }
  }

  /** Exactly when every accepted event is handed over: when no `Record` comes after the goroutine's final
      flush.  Records between `Close` and that flush are still drained. */
  lemma AllHandedOverExactlyWhen<T>(bufferSize: int, steps: seq<Step<T>>, f: nat)
    requires Run(bufferSize, steps).Some? && f < |steps| && steps[f].Finish?
    ensures var s := Run(bufferSize, steps).value;
            Flat(s.inserted) == s.accepted <==> forall i :: f < i < |steps| ==> !steps[i].Record?
  {
    AfterFinish(bufferSize, steps, f);
    LateRecordsAreLost(bufferSize, steps);
    hide Run;
    var s := Run(bufferSize, steps).value;
    assert |s.accepted| == |Flat(s.inserted)| + |s.buffer|;
    assert s.buffer == [] ==> Flat(s.inserted) + [] == Flat(s.inserted);
  }

  /** An event is accepted exactly when fewer events than the buffer holds (1000 when no size is given) have
      been accepted and not yet received. */
  lemma AcceptedExactlyWhen<T>(bufferSize: int, steps: seq<Step<T>>, e: T)
    requires Run(bufferSize, steps).Some?
    ensures var s, after := Run(bufferSize, steps).value, Run(bufferSize, steps + [Record(e)]);
            && after.Some?
            && after.value.accepted ==
               if |s.accepted| - |Flat(s.inserted)| - |s.batch| < (if bufferSize <= 0 then 1000 else bufferSize)
               then s.accepted + [e] else s.accepted
  {
    NothingIsLost(bufferSize, steps);
    CapacityIsGiven(bufferSize, steps);
    OneMore(bufferSize, steps, Record(e));
    hide Run;
    var s := Run(bufferSize, steps).value;
    assert |s.accepted| == |Flat(s.inserted)| + |s.batch| + |s.buffer|;
  }

  lemma {:induction false} CapacityIsGiven<T>(bufferSize: int, steps: seq<Step<T>>)
    requires Run(bufferSize, steps).Some?
    ensures Run(bufferSize, steps).value.capacity == if bufferSize <= 0 then 1000 else bufferSize
  {
    if steps != [] {
      CapacityIsGiven(bufferSize, steps[..|steps| - 1]);
    }
  }

  lemma TickFlushes<T>(s: State<T>)
    requires Conserved(s) && s.stage == Looping
    ensures var t := Take(s, Tick);
            t.batch == [] && Flat(t.inserted) == Flat(s.inserted) + s.batch && t.accepted == Flat(t.inserted) + s.buffer
  {
    FlatMore(s.inserted, s.batch);
    assert Flat(s.inserted) + [] == Flat(s.inserted);
    hide Flat;
  }

  /** A tick hands over whatever has been received. */
  lemma TickHandsOver<T>(bufferSize: int, steps: seq<Step<T>>)
    requires Run(bufferSize, steps).Some? && Run(bufferSize, steps).value.stage == Looping
    ensures var s, after := Run(bufferSize, steps).value, Run(bufferSize, steps + [Tick]);
            && after.Some? && after.value.batch == []
            && Flat(after.value.inserted) == Flat(s.inserted) + s.batch
            && after.value.accepted == Flat(after.value.inserted) + s.buffer
  {
    hide Run, Flat, Conserved, Sized;
    NothingIsLost(bufferSize, steps);
    OneMore(bufferSize, steps, Tick);
    TickFlushes(Run(bufferSize, steps).value);
  }

  /** The store as its goroutines share it. */
  class Store<T> {
    const bufferSize: int
    var buffer: seq<T>
    var batch: seq<T>
    var inserted: seq<seq<T>>
    var done: bool
    var stage: Stage
    ghost var accepted: seq<T>

    constructor (bufferSize: int)
      ensures this.bufferSize == bufferSize && Value() == Initial(bufferSize)
    {
      this.bufferSize := bufferSize;
      buffer, batch, inserted, done, stage, accepted := [], [], [], false, Looping, [];
    }

    function Capacity(): (n: nat)
      ensures n == if bufferSize <= 0 then 1000 else bufferSize
    {
      if bufferSize <= 0 then 1000 else bufferSize
    }

    ghost function Value(): State<T>
      reads this
    {
      State(Capacity(), buffer, batch, inserted, accepted, done, stage)
    }

    method Record(event: T)
      modifies this
      ensures Value() == Take(old(Value()), Step.Record(event))
    {
      if |buffer| < Capacity() {
        buffer := buffer + [event];
        accepted := accepted + [event];
      }
    }

    method Insert()
      modifies this`batch, this`inserted
      ensures Value() == Flush(old(Value()))
    {
      if |batch| > 0 {
        inserted := inserted + [batch];
        batch := [];
      }
    }

    method OnEvent()
      requires Enabled(Value(), Receive)
      modifies this
      ensures Value() == Take(old(Value()), Receive)
    {
      batch := batch + [buffer[0]];
      buffer := buffer[1..];
      if |batch| >= BATCH_SIZE {
        Insert();
      }
    }

    method OnTick()
      requires Enabled(Value(), Tick)
      modifies this
      ensures Value() == Take(old(Value()), Tick)
    {
      Insert();
    }

    /** One turn of the loop after `done` is seen, whatever recorders did before it. */
    method DrainOne() returns (more: bool)
      requires stage == Draining
      modifies this
      ensures more <==> old(buffer) != []
      ensures Value() == Take(old(Value()), if more then Drain else Finish)
    {
      if |buffer| > 0 {
        batch := batch + [buffer[0]];
        buffer := buffer[1..];
        return true;
      }
      Insert();
      stage := Returned;
      return false;
    }

    method RecordAll(events: seq<T>)
      requires Conserved(Value())
      modifies this
      ensures Conserved(Value()) && old(accepted) <= accepted
      ensures stage == old(stage) && inserted == old(inserted)
    {
      for i := 0 to |events|
        invariant Conserved(Value()) && old(accepted) <= accepted
        invariant stage == old(stage) && inserted == old(inserted)
      {
        ghost var before := Value();
        Record(events[i]);
        StepConserves(before, Step.Record(events[i]));
      }
    }

    /** The same loop beside recorders: before its i-th turn the events of `arrivals[i]` come in.  All that
        was accepted until the loop ends is handed over. */
    method DrainBesideRecorders(arrivals: seq<seq<T>>)
      requires stage == Draining && Conserved(Value())
      modifies this
      ensures stage == Returned && buffer == [] && batch == []
      ensures Flat(inserted) == accepted && old(accepted) <= accepted
    {
      var more, i := true, 0;
      while more
        invariant i <= |arrivals| && Conserved(Value()) && old(accepted) <= accepted
        invariant if more then stage == Draining else stage == Returned && buffer == [] && batch == []
        decreases |arrivals| - i, |buffer|, more
      {
        if i < |arrivals| {
          RecordAll(arrivals[i]);
          i := i + 1;
        }
        ghost var before := Value();
        more := DrainOne();
        StepConserves(before, if more then Drain else Finish);
      }
      assert Flat(inserted) + [] + [] == Flat(inserted);
    }

    /** The loop after `done` is seen, with no recorder beside it. */
    method DrainAll()
      requires stage == Draining
      modifies this
      ensures buffer == [] && batch == [] && stage == Returned
      ensures accepted == old(accepted)
      ensures Flat(inserted) == Flat(old(inserted)) + old(batch) + old(buffer)
    {
      var more := true;
      while more
        invariant accepted == old(accepted)
        invariant more ==> stage == Draining && Flat(inserted) + batch + buffer == Flat(old(inserted)) + old(batch) + old(buffer)
        invariant !more ==> buffer == [] && batch == [] && stage == Returned
        invariant !more ==> Flat(inserted) == Flat(old(inserted)) + old(batch) + old(buffer)
        decreases |buffer|, more
      {
        ghost var held, flushed := batch, Flat(inserted);
        assert buffer != [] ==> buffer == [buffer[0]] + buffer[1..];
        FlatMore(inserted, batch);
        assert buffer == [] ==> flushed + held + buffer == flushed + held;
        assert held == [] ==> flushed + held == flushed;
        more := DrainOne();
      }
    }
  }
}

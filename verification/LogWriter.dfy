/** The batched call-log writer. Between two awaits a coroutine runs undisturbed, so each
    stretch between awaits is one step, and steps of different coroutines interleave freely. */
module LogWriter {

  datatype Entry = CallEntry(id: int) | AttemptEntry(id: int)

  /** A flush under way: what it took from the two buffers and has not yet dealt with. */
  datatype Flight = Flight(logs: seq<Entry>, attempts: seq<Entry>)

  const LANDED := Flight([], [])

  datatype State = State(
    buffer: seq<Entry>,
    attempts: seq<Entry>,
    flights: seq<Flight>,
    written: seq<Entry>,
    dropped: seq<Entry>)

  const EMPTY := State([], [], [], [], [])

  datatype Step =
    | Log(entry: Entry)
    | LogAttempt(entry: Entry)
    | BeginFlush
    | WriteLog(flight: nat, ok: bool)
    | WriteAttempts(flight: nat, ok: bool)
    | Cancel(flight: nat)

  /** The steps that a flush still has before it: its call entries one by one, then its
      attempt rows in one write. */
  predicate Possible(s: State, step: Step) {
    match step
    case WriteLog(i, _) => i < |s.flights| && s.flights[i].logs != []
    case WriteAttempts(i, _) => i < |s.flights| && s.flights[i].logs == [] && s.flights[i].attempts != []
    case Cancel(i) => i < |s.flights|
    case _ => true
  }

  function Apply(s: State, step: Step): State
    requires Possible(s, step)
  {
    match step
    case Log(e) => s.(buffer := s.buffer + [e])
    case LogAttempt(e) => s.(attempts := s.attempts + [e])
    case BeginFlush =>
      if s.buffer == [] && s.attempts == [] then s
      else s.(buffer := [], attempts := [], flights := s.flights + [Flight(s.buffer, s.attempts)])
    case WriteLog(i, ok) =>
      var f := s.flights[i];
      if ok then s.(flights := s.flights[i := f.(logs := f.logs[1..])], written := s.written + [f.logs[0]])
      else s.(flights := s.flights[i := f.(logs := [])], dropped := s.dropped + f.logs)
    case WriteAttempts(i, ok) =>
      var f := s.flights[i];
      var s' := s.(flights := s.flights[i := LANDED]);
      if ok then s'.(written := s.written + f.attempts) else s'.(dropped := s.dropped + f.attempts)
    case Cancel(i) =>
      var f := s.flights[i];
      s.(flights := s.flights[i := LANDED], dropped := s.dropped + (f.logs + f.attempts))
  }

  // ------------------------------------------------- the writer

  class CallLogWriter {
    const maxBuffer: int
    var buffer: seq<Entry>
    var attemptsBuffer: seq<Entry>
    var flights: seq<Flight>
    var written: seq<Entry>
    var dropped: seq<Entry>

    ghost function Contents(): State
      reads this
    {
      State(buffer, attemptsBuffer, flights, written, dropped)
    }

    constructor (maxBuffer: int)
      ensures this.maxBuffer == maxBuffer && Contents() == EMPTY
    {
      this.maxBuffer := maxBuffer;
      buffer, attemptsBuffer, flights, written, dropped := [], [], [], [], [];
    }

    /** log(), up to the release of the lock: whether the threshold is reached. */
    method LogEntry(e: Entry) returns (reached: bool)
      modifies this
      ensures Contents() == Apply(old(Contents()), Log(e))
      ensures reached <==> |old(buffer)| + 1 >= maxBuffer
    {
      buffer := buffer + [e];
      reached := |buffer| >= maxBuffer;
    }

    /** log_attempt(), up to the release of the lock. */
    method LogAttemptEntry(e: Entry) returns (reached: bool)
      modifies this
      ensures Contents() == Apply(old(Contents()), LogAttempt(e))
      ensures reached <==> |old(attemptsBuffer)| + 1 >= maxBuffer
    {
      attemptsBuffer := attemptsBuffer + [e];
      reached := |attemptsBuffer| >= maxBuffer;
    }

    /** The locked part of _flush_unlocked: copy and clear both buffers. */
    method TakeBatches() returns (flight: nat)
      modifies this
      ensures Contents() == Apply(old(Contents()), BeginFlush)
      ensures flight == |old(flights)|
    {
      flight := |flights|;
      if buffer == [] && attemptsBuffer == [] {
        return;
      }
      flights := flights + [Flight(buffer, attemptsBuffer)];
      buffer, attemptsBuffer := [], [];
    }

    /** create_call_log for the next entry; an exception gives up the rest of the batch. */
    method WriteNext(flight: nat, ok: bool)
      requires Possible(Contents(), WriteLog(flight, ok))
      modifies this
      ensures Contents() == Apply(old(Contents()), WriteLog(flight, ok))
    {
      var f := flights[flight];
      if ok {
        written := written + [f.logs[0]];
        flights := flights[flight := f.(logs := f.logs[1..])];
      } else {
        dropped := dropped + f.logs;
        flights := flights[flight := f.(logs := [])];
      }
    }

    /** create_call_attempts for the whole batch. */
    method WriteBatch(flight: nat, ok: bool)
      requires Possible(Contents(), WriteAttempts(flight, ok))
      modifies this
      ensures Contents() == Apply(old(Contents()), WriteAttempts(flight, ok))
    {
      var f := flights[flight];
      if ok {
        written := written + f.attempts;
      } else {
        dropped := dropped + f.attempts;
      }
      flights := flights[flight := LANDED];
    }

    /** The write loop of a flush that nothing interrupts: `rows` tells which create_call_log
        calls succeed. */
    method WriteAlone(flight: nat, rows: nat -> bool)
      requires flight < |flights|
      modifies this
      ensures var logs, n := old(flights)[flight].logs, FirstFailure(rows, 0, |old(flights)[flight].logs|);
              Contents() == old(Contents()).(flights := old(flights)[flight := old(flights)[flight].(logs := [])],
                                             written := old(written) + logs[..n], dropped := old(dropped) + logs[n..])
    {
      ghost var before, logs := Contents(), flights[flight].logs;
      ghost var n := FirstFailure(rows, 0, |logs|);
      var k: nat := 0;
      while flights[flight].logs != [] && rows(k)
        invariant k <= |logs| && FirstFailure(rows, k, |logs|) == n
        invariant Contents() == before.(flights := before.flights[flight := before.flights[flight].(logs := logs[k..])],
                                        written := before.written + logs[..k])
        decreases |logs| - k
      {
        WriteNext(flight, true);
        k := k + 1;
        assert logs[k - 1..][1..] == logs[k..] && logs[..k] == logs[..k - 1] + [logs[k - 1]];
      }
      if flights[flight].logs != [] {
        WriteNext(flight, false);
      }
      assert k == n && (k == |logs| ==> before.dropped + logs[n..] == before.dropped);
    }

    /** A flush that nothing interrupts, as in the final flush of stop(): it leaves nothing
        buffered, and what it took is written up to the first failure. */
    method FlushAlone(rows: nat -> bool, batch: bool)
      modifies this
      ensures buffer == [] && attemptsBuffer == []
      ensures flights == old(flights) || flights == old(flights) + [LANDED]
      ensures var n := FirstFailure(rows, 0, |old(buffer)|);
              && written == old(written) + old(buffer)[..n] + (if batch then old(attemptsBuffer) else [])
              && dropped == old(dropped) + old(buffer)[n..] + (if batch then [] else old(attemptsBuffer))
    {
      var flight := TakeBatches();
      if flight < |flights| {
        WriteAlone(flight, rows);
        if flights[flight].attempts != [] {
          WriteBatch(flight, batch);
        }
      }
    }
  }

  /** The first write from `k` on that fails, or `n`. */
  function FirstFailure(rows: nat -> bool, k: nat, n: nat): (r: nat)
    requires k <= n
    ensures k <= r <= n
    decreases n - k
  {
    if k == n || !rows(k) then k else FirstFailure(rows, k + 1, n)
  }

  // ------------------------------------------------- conservation

  /** Occurrences of an entry. */
  function Occurs(es: seq<Entry>, e: Entry): nat {
    if es == [] then 0 else (if es[0] == e then 1 else 0) + Occurs(es[1..], e)
  }

  function InFlight(flights: seq<Flight>, e: Entry): nat {
    if flights == [] then 0 else OnBoard(flights[0], e) + InFlight(flights[1..], e)
  }

  function OnBoard(f: Flight, e: Entry): nat {
    Occurs(f.logs, e) + Occurs(f.attempts, e)
  }

  /** Occurrences of an entry anywhere: buffered, in flight, written or dropped. */
  function Everywhere(s: State, e: Entry): nat {
    Occurs(s.buffer, e) + Occurs(s.attempts, e) + InFlight(s.flights, e) + Occurs(s.written, e) + Occurs(s.dropped, e)
  }

  function Submits(step: Step, e: Entry): nat {
    if step == Log(e) || step == LogAttempt(e) then 1 else 0
  }

  function Submitted(steps: seq<Step>, e: Entry): nat {
    if steps == [] then 0 else Submitted(steps[..|steps| - 1], e) + Submits(steps[|steps| - 1], e)
  }

  lemma {:induction false} OccursConcat(a: seq<Entry>, b: seq<Entry>, e: Entry)
    ensures Occurs(a + b, e) == Occurs(a, e) + Occurs(b, e)
  {
    if a == [] {
      assert a + b == b;
    } else {
      OccursConcat(a[1..], b, e);
      assert (a + b)[1..] == a[1..] + b;
    }
  }

  lemma OccursOne(x: Entry, e: Entry)
    ensures Occurs([x], e) == if x == e then 1 else 0
  {
    assert [x][1..] == [];
  }

  lemma {:induction false} InFlightUpdate(flights: seq<Flight>, i: nat, f: Flight, e: Entry)
    requires i < |flights|
    ensures InFlight(flights[i := f], e) == InFlight(flights, e) - OnBoard(flights[i], e) + OnBoard(f, e)
  {
    if i == 0 {
      assert flights[0 := f][1..] == flights[1..];
    } else {
      InFlightUpdate(flights[1..], i - 1, f, e);
      assert flights[i := f][1..] == flights[1..][i - 1 := f];
    }
  }

  lemma {:induction false} InFlightAppend(flights: seq<Flight>, f: Flight, e: Entry)
    ensures InFlight(flights + [f], e) == InFlight(flights, e) + OnBoard(f, e)
  {
    if flights == [] {
      assert (flights + [f])[1..] == [];
    } else {
      InFlightAppend(flights[1..], f, e);
      assert (flights + [f])[1..] == flights[1..] + [f];
    }
  }

  lemma WriteConserves(s: State, i: nat, ok: bool, e: Entry)
    requires Possible(s, WriteLog(i, ok))
    ensures Everywhere(Apply(s, WriteLog(i, ok)), e) == Everywhere(s, e)
  {
    var f := s.flights[i];
    OccursOne(f.logs[0], e);
    OccursConcat(s.written, [f.logs[0]], e);
    OccursConcat(s.dropped, f.logs, e);
    InFlightUpdate(s.flights, i, if ok then f.(logs := f.logs[1..]) else f.(logs := []), e);
  }

  lemma CancelConserves(s: State, i: nat, e: Entry)
    requires Possible(s, Cancel(i))
    ensures Everywhere(Apply(s, Cancel(i)), e) == Everywhere(s, e)
  {
    var f := s.flights[i];
    OccursConcat(f.logs, f.attempts, e);
    OccursConcat(s.dropped, f.logs + f.attempts, e);
    InFlightUpdate(s.flights, i, LANDED, e);
  }

  /** Each step moves entries or takes in a submitted one; none is lost or duplicated. */
  lemma StepConserves(s: State, step: Step, e: Entry)
    requires Possible(s, step)
    ensures Everywhere(Apply(s, step), e) == Everywhere(s, e) + Submits(step, e)
  {
    match step {
      case Log(x) =>
        OccursOne(x, e);
        OccursConcat(s.buffer, [x], e);
      case LogAttempt(x) =>
        OccursOne(x, e);
        OccursConcat(s.attempts, [x], e);
      case BeginFlush =>
        InFlightAppend(s.flights, Flight(s.buffer, s.attempts), e);
      case WriteLog(i, ok) =>
        WriteConserves(s, i, ok, e);
      case WriteAttempts(i, _) =>
        OccursConcat(s.written, s.flights[i].attempts, e);
        OccursConcat(s.dropped, s.flights[i].attempts, e);
        InFlightUpdate(s.flights, i, LANDED, e);
      case Cancel(i) =>
        CancelConserves(s, i, e);
    }
  }

  /** A run: any interleaving of possible steps from an empty writer. */
  predicate Run(steps: seq<Step>)
    decreases |steps|, 0
  {
    steps == [] || (Run(steps[..|steps| - 1]) && Possible(After(steps[..|steps| - 1]), steps[|steps| - 1]))
  }

  function After(steps: seq<Step>): State
    requires Run(steps)
    decreases |steps|, 1
  {
    if steps == [] then EMPTY else Apply(After(steps[..|steps| - 1]), steps[|steps| - 1])
  }

  /** At every moment, what was submitted is exactly what is buffered, in flight, written or
      dropped, with multiplicity. */
  lemma {:induction false} Conservation(steps: seq<Step>, e: Entry)
    requires Run(steps)
    ensures Everywhere(After(steps), e) == Submitted(steps, e)
  {
    if steps != [] {
      Conservation(steps[..|steps| - 1], e);
      StepConserves(After(steps[..|steps| - 1]), steps[|steps| - 1], e);
    }
  }

  lemma {:induction false} InFlightHolds(flights: seq<Flight>, i: nat, e: Entry)
    requires i < |flights|
    ensures InFlight(flights, e) >= OnBoard(flights[i], e)
  {
    if i > 0 {
      InFlightHolds(flights[1..], i - 1, e);
    }
  }

  lemma {:induction false} InFlightHoldsTwo(flights: seq<Flight>, i: nat, j: nat, e: Entry)
    requires i < j < |flights|
    ensures InFlight(flights, e) >= OnBoard(flights[i], e) + OnBoard(flights[j], e)
  {
    if i == 0 {
      InFlightHolds(flights[1..], j - 1, e);
    } else {
      InFlightHoldsTwo(flights[1..], i - 1, j - 1, e);
    }
  }

  /** An entry that was submitted once is never in two batches, nor twice in one, nor written
      more than once, nor written while still in a batch. */
  lemma NoEntryTwice(steps: seq<Step>, e: Entry, i: nat, j: nat)
    requires Run(steps) && Submitted(steps, e) <= 1 && i < |After(steps).flights|
    ensures var s := After(steps);
            && OnBoard(s.flights[i], e) + Occurs(s.written, e) <= 1
            && (i < j < |s.flights| ==> OnBoard(s.flights[i], e) + OnBoard(s.flights[j], e) <= 1)
  {
    var s := After(steps);
    Conservation(steps, e);
    InFlightHolds(s.flights, i, e);
    if i < j < |s.flights| {
      InFlightHoldsTwo(s.flights, i, j, e);
    }
  }

  /** The writes succeed and no flush is cancelled with something left to write. */
  predicate Undisturbed(steps: seq<Step>)
    requires Run(steps)
    decreases |steps|
  {
    steps == []
    || (Undisturbed(steps[..|steps| - 1])
        && match steps[|steps| - 1]
           case WriteLog(_, ok) => ok
           case WriteAttempts(_, ok) => ok
           case Cancel(i) => After(steps[..|steps| - 1]).flights[i] == LANDED
           case _ => true)
  }

  /** Entries are dropped if and only if a database write raises or a cancellation lands
      inside a flush. */
  lemma {:induction false} DroppedExactly(steps: seq<Step>)
    requires Run(steps)
    ensures After(steps).dropped == [] <==> Undisturbed(steps)
  {
    if steps != [] {
      DroppedExactly(steps[..|steps| - 1]);
    }
  }

  lemma {:induction false} NothingInFlight(flights: seq<Flight>, e: Entry)
    requires forall i :: 0 <= i < |flights| ==> flights[i] == LANDED
    ensures InFlight(flights, e) == 0
  {
    if flights != [] {
      NothingInFlight(flights[1..], e);
    }
  }

  /** Once the buffers are flushed and every flush is over, an undisturbed run has written
      exactly what was submitted. */
  lemma AllWritten(steps: seq<Step>, e: Entry)
    requires Run(steps) && Undisturbed(steps)
    requires var s := After(steps);
             s.buffer == [] && s.attempts == [] && forall i :: 0 <= i < |s.flights| ==> s.flights[i] == LANDED
    ensures Occurs(After(steps).written, e) == Submitted(steps, e)
  {
    Conservation(steps, e);
    DroppedExactly(steps);
    NothingInFlight(After(steps).flights, e);
  }

  lemma RunOn(steps: seq<Step>, step: Step)
    requires Run(steps) && Possible(After(steps), step)
    ensures Run(steps + [step]) && After(steps + [step]) == Apply(After(steps), step)
  {
    assert (steps + [step])[..|steps|] == steps;
  }

  /** A run that drops an entry: its write fails. */
  lemma EntryCanBeDropped(e: Entry)
    ensures var steps := [Log(e), BeginFlush, WriteLog(0, false)];
            Run(steps) && After(steps).dropped == [e] && After(steps).written == []
  {
    RunOn([], Log(e));
    assert [] + [Log(e)] == [Log(e)] && [] + [e] == [e];
    RunOn([Log(e)], BeginFlush);
    assert [Log(e)] + [BeginFlush] == [Log(e), BeginFlush];
    RunOn([Log(e), BeginFlush], WriteLog(0, false));
    assert [Log(e), BeginFlush] + [WriteLog(0, false)] == [Log(e), BeginFlush, WriteLog(0, false)];
  }
}

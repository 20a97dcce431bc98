// core/wrapper/chargetimer.go and chargerater.go as one automaton, and what the loadpoint's events
// make of it. The charge timer accumulates clock time, the charge rater with an energy meter
// accumulates meter readings; both do it in the same way.
module Progress {
  import opened Base
  import opened Api
  import opened Events

  // Accumulates the increments of a reading between start and stop.
  datatype Accumulator = Accumulator(charging: bool, start: real, total: real) {

    function StartCharge(reading: real, continued: bool): Accumulator {
      Accumulator(true, reading, if continued then total else 0.0)
    }

    function StopCharge(reading: real): Accumulator {
      Accumulator(false, start, total + (reading - start))
    }

    function Value(reading: real): real {
      if charging then total + (reading - start) else total
    }
  }

  // A new timer or rater
  const IDLE := Accumulator(false, 0.0, 0.0)

  // What the charge timer reads
  function ClockReading(t: Time): real { t as real }

  // The subscriptions of configureChargerType
  function On(acc: Accumulator, e: BusEvent, reading: real): Accumulator {
    match e
    case Connect => acc.StartCharge(reading, false)
    case Start => acc.StartCharge(reading, true)
    case Stop => acc.StopCharge(reading)
    case Disconnect => acc
  }

  // The accumulator after a trace of events, reading `x` at the time of each.
  function After(x: Time -> real, trace: Trace): Accumulator {
    if trace == [] then IDLE
    else
      var (at, e) := trace[|trace| - 1];
      On(After(x, trace[..|trace| - 1]), e, x(at))
  }

  // What should have been accumulated: the increments of `x` over the intervals that began in
  // status C, since the vehicle was last connected.
  function InStatusC(x: Time -> real, samples: Samples, until: Time): real {
    if samples == [] then 0.0
    else
      var before := samples[..|samples| - 1];
      var (at, status) := samples[|samples| - 1];
      (if StatusAfter(before).StatusA? && !status.StatusA? then 0.0 else InStatusC(x, before, at))
      + (if status.StatusC? then x(until) - x(at) else 0.0)
  }

  // When the vehicle was connected, if charging has neither started nor stopped since.
  function Waiting(trace: Trace): Option<Time> {
    if trace == [] then None
    else
      var (at, e) := trace[|trace| - 1];
      WaitOn(Waiting(trace[..|trace| - 1]), at, e)
  }

  // What is wrong with the value: it counts from connecting until charging first starts.
  function Excess(x: Time -> real, trace: Trace, until: Time): real {
    if Waiting(trace).Some? then x(until) - x(Waiting(trace).value) else 0.0
  }

  function WaitOn(waiting: Option<Time>, at: Time, e: BusEvent): Option<Time> {
    match e
    case Connect => Some(at)
    case Start => None
    case Stop => None
    case Disconnect => waiting
  }

  lemma AfterOne(x: Time -> real, trace: Trace, at: Time, e: BusEvent)
    ensures After(x, trace + [(at, e)]) == On(After(x, trace), e, x(at))
    ensures Waiting(trace + [(at, e)]) == WaitOn(Waiting(trace), at, e)
  {
    assert (trace + [(at, e)])[..|trace|] == trace;
  }

  lemma AfterTwo(x: Time -> real, trace: Trace, at: Time, e: BusEvent, f: BusEvent)
    ensures After(x, trace + Stamped(at, [e, f])) == On(On(After(x, trace), e, x(at)), f, x(at))
    ensures Waiting(trace + Stamped(at, [e, f])) == WaitOn(WaitOn(Waiting(trace), at, e), at, f)
  {
    AfterOne(x, trace, at, e);
    AfterOne(x, trace + [(at, e)], at, f);
    assert trace + Stamped(at, [e, f]) == trace + [(at, e)] + [(at, f)];
  }

  lemma AfterSingle(x: Time -> real, trace: Trace, at: Time, e: BusEvent)
    ensures After(x, trace + Stamped(at, [e])) == On(After(x, trace), e, x(at))
    ensures Waiting(trace + Stamped(at, [e])) == WaitOn(Waiting(trace), at, e)
  {
    AfterOne(x, trace, at, e);
    assert trace + Stamped(at, [e]) == trace + [(at, e)];
  }

  // What one change of status makes of the accumulator.
  function Driven(acc: Accumulator, prev: ChargeStatus, next: ChargeStatus, reading: real): Accumulator {
    if prev == next then acc
    else if prev.StatusA? then Accumulator(true, reading, 0.0)
    else if next.StatusC? then acc.StartCharge(reading, true)
    else if prev.StatusC? then acc.StopCharge(reading)
    else acc
  }

  lemma AfterTransition(x: Time -> real, trace: Trace, at: Time, prev: ChargeStatus, next: ChargeStatus)
    ensures After(x, trace + Stamped(at, Transition(prev, next))) == Driven(After(x, trace), prev, next, x(at))
    ensures Waiting(trace + Stamped(at, Transition(prev, next))) ==
      if prev == next then Waiting(trace)
      else if next.StatusC? || prev.StatusC? then None
      else if prev.StatusA? then Some(at)
      else Waiting(trace)
  {
    if prev == next || !(prev.StatusA? || prev.StatusC? || next.StatusA? || next.StatusC?) {
      assert Transition(prev, next) == [];
      assert trace + Stamped(at, []) == trace;
    } else if prev.StatusA? && next.StatusC? {
      assert Transition(prev, next) == [Connect, Start];
      AfterTwo(x, trace, at, Connect, Start);
    } else if prev.StatusC? && next.StatusA? {
      assert Transition(prev, next) == [Stop, Disconnect];
      AfterTwo(x, trace, at, Stop, Disconnect);
    } else {
      AfterSingleTransition(x, trace, at, prev, next);
    }
  }

  lemma SingleIs(x: Time -> real, trace: Trace, at: Time, prev: ChargeStatus, next: ChargeStatus, e: BusEvent)
    requires |Transition(prev, next)| == 1 && Transition(prev, next)[0] == e
    ensures After(x, trace + Stamped(at, Transition(prev, next))) == On(After(x, trace), e, x(at))
    ensures Waiting(trace + Stamped(at, Transition(prev, next))) == WaitOn(Waiting(trace), at, e)
  {
    assert Transition(prev, next) == [e];
    AfterSingle(x, trace, at, e);
  }

  lemma AfterSingleTransition(x: Time -> real, trace: Trace, at: Time, prev: ChargeStatus, next: ChargeStatus)
    requires prev != next && (prev.StatusA? || prev.StatusC? || next.StatusA? || next.StatusC?)
    requires !(prev.StatusA? && next.StatusC?) && !(prev.StatusC? && next.StatusA?)
    ensures After(x, trace + Stamped(at, Transition(prev, next))) == Driven(After(x, trace), prev, next, x(at))
    ensures Waiting(trace + Stamped(at, Transition(prev, next))) ==
      if next.StatusC? || prev.StatusC? then None
      else if prev.StatusA? then Some(at)
      else Waiting(trace)
  {
    if prev.StatusA? {
      SingleIs(x, trace, at, prev, next, Connect);
    } else if next.StatusC? {
      SingleIs(x, trace, at, prev, next, Start);
    } else if prev.StatusC? {
      SingleIs(x, trace, at, prev, next, Stop);
    } else {
      SingleIs(x, trace, at, prev, next, Disconnect);
    }
  }

  // Driven by the events of any sequence of statuses, the accumulated value is the increment over
  // status C since the last connect, plus what has run up since connecting if charging has not
  // started yet.
  lemma {:induction false} ValueIsInStatusC(x: Time -> real, samples: Samples, until: Time)
    ensures After(x, EventTrace(samples)).Value(x(until)) ==
      InStatusC(x, samples, until) + Excess(x, EventTrace(samples), until)
    ensures After(x, EventTrace(samples)).charging <==>
      StatusAfter(samples).StatusC? || Waiting(EventTrace(samples)).Some?
    ensures StatusAfter(samples).StatusC? ==> Waiting(EventTrace(samples)).None?
    ensures Waiting(EventTrace(samples)).Some? ==>
      After(x, EventTrace(samples)).start == x(Waiting(EventTrace(samples)).value)
  {
    if samples != [] {
      var before := samples[..|samples| - 1];
      var (at, status) := samples[|samples| - 1];
      ValueIsInStatusC(x, before, at);
      AfterTransition(x, EventTrace(before), at, StatusAfter(before), status);
    }
  }

  // So the value is right exactly when charging has started or stopped since the last connect, or
  // nothing ran up meanwhile.
  lemma ValueIsRightExactly(x: Time -> real, samples: Samples, until: Time)
    ensures After(x, EventTrace(samples)).Value(x(until)) == InStatusC(x, samples, until) <==>
      Waiting(EventTrace(samples)).None? || x(until) == x(Waiting(EventTrace(samples)).value)
  {
    ValueIsInStatusC(x, samples, until);
  }

  // An accumulator driven update by update is the accumulator of the whole trace.
  lemma DrivenBySample(x: Time -> real, samples: Samples, at: Time, status: ChargeStatus)
    ensures After(x, EventTrace(samples + [(at, status)])) ==
      Driven(After(x, EventTrace(samples)), StatusAfter(samples), status, x(at))
  {
    var all := samples + [(at, status)];
    assert all[..|all| - 1] == samples;
    AfterTransition(x, EventTrace(samples), at, StatusAfter(samples), status);
  }
}

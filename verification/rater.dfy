// core/wrapper: the charge timer, the charge rater and the replacement charge meter as objects, and
// the charge rater driven by the loadpoint.
module Wrapper {
  import opened Base
  import opened Api
  import opened Events
  import opened Progress

  // ---------------------------------------------------------------- charge rater as a value

  // `metered`: the charge meter implements api.MeterEnergy. Energies are in kWh.
  datatype Rater = Rater(metered: bool, charging: bool, start: Time, startEnergy: real, chargedEnergy: real) {

    // `total` is the meter's answer to TotalEnergy; None is an error.
    function StartCharge(continued: bool, now: Time, total: Option<real>): Rater {
      Rater(metered, true, now, if metered && total.Some? then total.value else startEnergy,
            if continued then chargedEnergy else 0.0)
    }

    function StopCharge(total: Option<real>): Rater {
      Rater(metered, false, start, startEnergy,
            if metered && total.Some? then chargedEnergy + (total.value - startEnergy) else chargedEnergy)
    }

    function SetChargePower(power: real, now: Time): Rater {
      if !charging || metered then this
      else Rater(metered, charging, now, startEnergy, chargedEnergy + Energy(power, start, now))
    }

    function ChargedEnergy(total: Option<real>): Option<real> {
      if !charging || !metered then Some(chargedEnergy)
      else if total.Some? then Some(chargedEnergy + total.value - startEnergy)
      else None
    }
  }

  // The energy in kWh of a power in W held from one instant to another.
  function Energy(power: real, from: Time, to: Time): real {
    power / 1000.0 * (to - from) as real / HOUR as real
  }

  // A kilowatt for an hour, of 3600 seconds of 10^9 nanoseconds, is a kilowatt hour.
  lemma EnergyExactly(power: real, from: Time, to: Time)
    ensures Energy(power, from, to) * 3_600_000_000_000_000.0 == power * (to - from) as real
  {
    var d := (to - from) as real;
    assert power / 1000.0 * d == (power * d) / 1000.0 by { Thousandth(power, d); }
    assert HOUR as real == 3_600_000_000_000.0;
  }

  lemma Thousandth(power: real, d: real)
    ensures power / 1000.0 * d == (power * d) / 1000.0
  {
  }

  function RaterOn(r: Rater, e: BusEvent, now: Time, total: Option<real>): Rater {
    match e
    case Connect => r.StartCharge(false, now, total)
    case Start => r.StartCharge(true, now, total)
    case Stop => r.StopCharge(total)
    case Disconnect => r
  }

  // When the energy meter fails, starting goes on from the reading it had, stopping adds nothing, and
  // asking is an error while charging. Power counts for nothing with an energy meter or while idle.
  lemma MeterErrorsSkip(r: Rater, continued: bool, power: real, now: Time)
    ensures r.StartCharge(continued, now, None) ==
      r.(charging := true, start := now, chargedEnergy := if continued then r.chargedEnergy else 0.0)
    ensures r.StopCharge(None) == r.(charging := false)
    ensures r.ChargedEnergy(None).None? <==> r.charging && r.metered
    ensures r.metered || !r.charging ==> r.SetChargePower(power, now) == r
  {
  }

  // ---------------------------------------------------------------- with an energy meter

  function MeteredAfter(x: Time -> real, trace: Trace): Rater {
    if trace == [] then Rater(true, false, 0, 0.0, 0.0)
    else
      var (at, e) := trace[|trace| - 1];
      RaterOn(MeteredAfter(x, trace[..|trace| - 1]), e, at, Some(x(at)))
  }

  lemma {:induction false} MeteredIsAccumulator(x: Time -> real, trace: Trace)
    ensures var r := MeteredAfter(x, trace);
      r.metered && After(x, trace) == Accumulator(r.charging, r.startEnergy, r.chargedEnergy)
  {
    if trace != [] { MeteredIsAccumulator(x, trace[..|trace| - 1]); }
  }

  lemma MeteredValue(x: Time -> real, trace: Trace, until: Time)
    ensures MeteredAfter(x, trace).ChargedEnergy(Some(x(until))) == Some(After(x, trace).Value(x(until)))
  {
    MeteredIsAccumulator(x, trace);
  }

  // With a reliable energy meter `x`, whatever power is reported in between, the charged energy is
  // the sum of the meter's increments over status C since the last connect, exactly when charging
  // has started since then or the meter has not moved.
  lemma ChargedEnergyExactly(x: Time -> real, samples: Samples, until: Time)
    ensures var trace := EventTrace(samples);
      MeteredAfter(x, trace).ChargedEnergy(Some(x(until))) == Some(InStatusC(x, samples, until)) <==>
        Waiting(trace).None? || x(until) == x(Waiting(trace).value)
  {
    MeteredValue(x, EventTrace(samples), until);
    ValueIsRightExactly(x, samples, until);
  }

  // ---------------------------------------------------------------- without one

  // What an update brings: the time, the charge power and then the status.
  type PowerSamples = seq<(Time, real, ChargeStatus)>

  function Last(samples: PowerSamples): ChargeStatus {
    if samples == [] then StatusNone else samples[|samples| - 1].2
  }

  function Publish(r: Rater, events: seq<BusEvent>, now: Time): Rater
    decreases |events|
  {
    if events == [] then r else Publish(RaterOn(r, events[0], now, None), events[1..], now)
  }

  function UnmeteredAfter(samples: PowerSamples): Rater {
    if samples == [] then Rater(false, false, 0, 0.0, 0.0)
    else
      var before := samples[..|samples| - 1];
      var (at, power, status) := samples[|samples| - 1];
      Publish(UnmeteredAfter(before).SetChargePower(power, at), Transition(Last(before), status), at)
  }

  // Whether energy counts after these samples: in status C, or connected and not yet charging.
  predicate Counting(samples: PowerSamples) {
    if samples == [] then false
    else
      var before := samples[..|samples| - 1];
      var status := samples[|samples| - 1].2;
      if Last(before) == status then Counting(before)
      else if status.StatusC? || Last(before).StatusA? then true
      else if Last(before).StatusC? then false
      else Counting(before)
  }

  // The integral of the reported power over the counting intervals since the last connect; each
  // interval between two updates is weighed once, with the power reported at its end.
  function Integral(samples: PowerSamples): real {
    if |samples| < 2 then 0.0
    else
      var before := samples[..|samples| - 1];
      var (at, power, status) := samples[|samples| - 1];
      if Last(before).StatusA? && !status.StatusA? then 0.0
      else Integral(before) + if Counting(before) then Energy(power, before[|before| - 1].0, at) else 0.0
  }

  lemma PublishTransition(r: Rater, prev: ChargeStatus, next: ChargeStatus, now: Time)
    requires !r.metered
    ensures Publish(r, Transition(prev, next), now) ==
      if prev == next then r
      else if prev.StatusA? then r.(charging := true, start := now, chargedEnergy := 0.0)
      else if next.StatusC? then r.(charging := true, start := now)
      else if prev.StatusC? then r.(charging := false)
      else r
  {
    var events := Transition(prev, next);
    if events != [] {
      assert |events| == 1 ==> events[1..] == [];
      if |events| > 1 {
        assert |events| == 2 && events[1..] == [events[1]] && [events[1]][1..] == [];
        var r1 := RaterOn(r, events[0], now, None);
        assert Publish(r1, [events[1]], now) == RaterOn(r1, events[1], now, None);
        assert Publish(r, events, now) == RaterOn(r1, events[1], now, None);
      }
    }
  }

  lemma {:induction false} UnmeteredIsIntegral(samples: PowerSamples)
    ensures var r := UnmeteredAfter(samples);
      && !r.metered
      && (r.charging <==> Counting(samples))
      && (r.charging ==> samples != [] && r.start == samples[|samples| - 1].0)
      && r.chargedEnergy == Integral(samples)
  {
    if samples != [] {
      var before := samples[..|samples| - 1];
      var (at, power, status) := samples[|samples| - 1];
      UnmeteredIsIntegral(before);
      PublishTransition(UnmeteredAfter(before).SetChargePower(power, at), Last(before), status, at);
    }
  }

  predicate Bounded(samples: PowerSamples, limit: real) {
    && (forall i :: 0 <= i < |samples| ==> 0.0 <= samples[i].1 <= limit)
    && (forall i, j :: 0 <= i < j < |samples| ==> samples[i].0 <= samples[j].0)
  }

  // When counting last began from zero: at the last connect, or at the first update of all.
  function Since(samples: PowerSamples): Time
    requires samples != []
  {
    var before := samples[..|samples| - 1];
    var (at, _, status) := samples[|samples| - 1];
    if before == [] || (Last(before).StatusA? && !status.StatusA?) then at else Since(before)
  }

  lemma EnergyGrows(power: real, limit: real, from: Time, mid: Time, to: Time)
    requires 0.0 <= power <= limit && from <= mid <= to
    ensures 0.0 <= Energy(power, mid, to) <= Energy(limit, mid, to)
    ensures Energy(limit, from, mid) + Energy(limit, mid, to) == Energy(limit, from, to)
    ensures Energy(limit, from, mid) <= Energy(limit, from, to)
  {
    var d := (to - mid) as real;
    assert 0.0 <= power * d <= limit * d;
  }

  // With power between 0 and `limit`, the charged energy is between 0 and `limit` times the time
  // since the last connect.
  lemma {:induction false} IntegralBounded(samples: PowerSamples, limit: real)
    requires samples != [] && Bounded(samples, limit)
    ensures Since(samples) <= samples[|samples| - 1].0
    ensures 0.0 <= Integral(samples) <= Energy(limit, Since(samples), samples[|samples| - 1].0)
  {
    var before := samples[..|samples| - 1];
    var (at, power, status) := samples[|samples| - 1];
    if before != [] {
      IntegralBounded(before, limit);
      EnergyGrows(power, limit, Since(before), before[|before| - 1].0, at);
    }
  }

  // ... as the rater tells it.
  lemma ChargedEnergyBounded(samples: PowerSamples, limit: real)
    requires samples != [] && Bounded(samples, limit)
    ensures var charged := UnmeteredAfter(samples).ChargedEnergy(None);
      charged.Some? && 0.0 <= charged.value <= Energy(limit, Since(samples), samples[|samples| - 1].0)
  {
    UnmeteredIsIntegral(samples);
    IntegralBounded(samples, limit);
  }

  // ---------------------------------------------------------------- the objects

  class ChargeMeter {
    var power: real

    constructor ()
      ensures power == 0.0
    {
      power := 0.0;
    }

    method SetPower(power: real)
      modifies this
      ensures this.power == power
    {
      this.power := power;
    }

    method CurrentPower() returns (p: real)
      ensures p == power
    {
      p := power;
    }
  }

  class ChargeTimer {
    var charging: bool
    var start: Time
    var duration: Time

    ghost function View(): Accumulator
      reads this
    {
      Accumulator(charging, start as real, duration as real)
    }

    constructor ()
      ensures View() == IDLE
    {
      charging, start, duration := false, 0, 0;
    }

    method StartCharge(continued: bool, now: Time)
      modifies this
      ensures View() == old(View()).StartCharge(now as real, continued)
    {
      charging := true;
      start := now;
      if !continued {
        duration := 0;
      }
    }

    method StopCharge(now: Time)
      modifies this
      ensures View() == old(View()).StopCharge(now as real)
    {
      charging := false;
      duration := duration + (now - start);
    }

    method ChargingTime(now: Time) returns (d: Time)
      ensures d as real == View().Value(now as real)
    {
      if charging {
        return duration + (now - start);
      }
      return duration;
    }
  }

  class ChargeRater {
    const metered: bool
    var charging: bool
    var start: Time
    var startEnergy: real
    var chargedEnergy: real

    ghost function View(): Rater
      reads this
    {
      Rater(metered, charging, start, startEnergy, chargedEnergy)
    }

    constructor (metered: bool)
      ensures View() == Rater(metered, false, 0, 0.0, 0.0)
    {
      this.metered := metered;
      charging, start, startEnergy, chargedEnergy := false, 0, 0.0, 0.0;
    }

    method StartCharge(continued: bool, now: Time, total: Option<real>)
      modifies this
      ensures View() == old(View()).StartCharge(continued, now, total)
    {
      charging := true;
      start := now;
      if metered && total.Some? {
        startEnergy := total.value;
      }
      if !continued {
        chargedEnergy := 0.0;
      }
    }

    method StopCharge(total: Option<real>)
      modifies this
      ensures View() == old(View()).StopCharge(total)
    {
      charging := false;
      if metered && total.Some? {
        chargedEnergy := chargedEnergy + (total.value - startEnergy);
      }
    }

    method SetChargePower(power: real, now: Time)
      modifies this
      ensures View() == old(View()).SetChargePower(power, now)
    {
      if !charging {
        return;
      }
      if !metered {
        chargedEnergy := chargedEnergy + power / 1000.0 * (now - start) as real / HOUR as real;
        start := now;
      }
    }

    method ChargedEnergy(total: Option<real>) returns (e: Option<real>)
      ensures e == View().ChargedEnergy(total)
    {
      if !charging {
        return Some(chargedEnergy);
      }
      if metered {
        if total.Some? {
          return Some(chargedEnergy + total.value - startEnergy);
        }
        return None;
      }
      return Some(chargedEnergy);
    }
  }

  // Stopping twice counts the last interval twice: the timer relies on the events alternating.
  lemma StopTwiceCountsTwice(acc: Accumulator, reading: real)
    ensures acc.StopCharge(reading).StopCharge(reading).total - acc.StopCharge(reading).total == reading - acc.start
  {
  }
}

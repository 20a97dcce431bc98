// core/soc/estimator.go: an adaptive linear estimate of the vehicle's state of charge.
module Estimation {
  import opened Base

  // What a charger or a vehicle answers when asked for the SoC. A charger without api.Battery
  // is one that never has it available.
  datatype Answer = Reading(soc: real) | NotAvailable | MustRetry | Failure

  // Energies are in Wh, states of charge in percent.
  datatype Estimate = Estimate(
    estimate: bool,
    capacity: real,
    virtualCapacity: real,
    vehicleSoc: real,
    prevSoC: real,
    prevChargedEnergy: real,
    energyPerSocStep: real)

  const CHARGE_EFFICIENCY := 0.9

  // The SoC to go by, or None for an error. The charger has precedence if it could provide one; a
  // temporary error repeats the SoC that is stored for the estimate, unless that is 0.
  function Fetch(prevSoC: real, charger: Answer, vehicle: Answer): Option<real> {
    match charger
    case Reading(soc) => Some(soc)
    case NotAvailable =>
      (match vehicle
       case Reading(soc) => Some(soc)
       case MustRetry => None
       case _ => if prevSoC == 0.0 then None else Some(prevSoC))
    case _ => if prevSoC == 0.0 then None else Some(prevSoC)
  }

  function Renewed(e: Estimate, capacity: real): Estimate {
    var virtual := capacity * 1000.0 / CHARGE_EFFICIENCY;
    e.(prevSoC := 0.0, prevChargedEnergy := 0.0, capacity := capacity * 1000.0, virtualCapacity := virtual,
       energyPerSocStep := virtual / 100.0)
  }

  // The gradient after a new SoC was seen
  function Learn(e: Estimate, socDelta: real, energyDelta: real): Estimate {
    if socDelta > 2.0 && energyDelta > 0.0 && e.prevSoC > 0.0 then
      e.(energyPerSocStep := energyDelta / socDelta, virtualCapacity := energyDelta / socDelta * 100.0)
    else e
  }

  function Polled(e: Estimate, chargedEnergy: real, soc: real): Estimate
    requires e.energyPerSocStep > 0.0
  {
    var fetched := e.(vehicleSoc := soc);
    if !e.estimate then fetched
    else
      var socDelta := soc - e.prevSoC;
      var energyDelta := Max(chargedEnergy, 0.0) - e.prevChargedEnergy;
      if socDelta != 0.0 || energyDelta < 0.0 then
        Learn(fetched, socDelta, energyDelta).(prevChargedEnergy := Max(chargedEnergy, 0.0), prevSoC := soc)
      else fetched.(vehicleSoc := Min(soc + energyDelta / e.energyPerSocStep, 100.0))
  }

  function WhRemaining(e: Estimate, targetSoC: int): real {
    (targetSoC as real - e.vehicleSoc) / 100.0 * e.virtualCapacity
  }

  // In kWh
  function RemainingChargeEnergy(e: Estimate, targetSoC: int): real {
    if targetSoC as real - e.vehicleSoc <= 0.0 then 0.0 else WhRemaining(e, targetSoC) / 1000.0
  }

  // Converting a float to an integer cuts its fraction off.
  function Cut(x: real): int { if x >= 0.0 then x.Floor else -((-x).Floor) }

  // time.Duration.Round(time.Second): halves move away from zero
  function RoundToSecond(d: Time): Time {
    if d < 0 then -RoundUp(-d) else RoundUp(d)
  }

  function RoundUp(d: nat): Time {
    if d % SECOND + d % SECOND < SECOND then d - d % SECOND else d + (SECOND - d % SECOND)
  }

  // The part of the time until the vehicle is full in which it reaches the target
  function Share(timeLeft: Time, soc: real, targetSoC: int): real
    requires soc != 100.0
  {
    timeLeft as real * (targetSoC as real - soc) / (100.0 - soc)
  }

  // `timeLeft` is the time until the vehicle's own finish time, if it tells one. None stands for a
  // division by zero, whose conversion to a duration Go leaves open.
  function RemainingChargeDuration(e: Estimate, chargePower: real, targetSoC: int, timeLeft: Option<Time>): Option<Time> {
    if chargePower <= 0.0 then Some(-1)
    else if targetSoC as real - e.vehicleSoc <= 0.0 then Some(0)
    else if timeLeft.None? then Some(RoundToSecond(Cut(HOUR as real * WhRemaining(e, targetSoC) / chargePower)))
    else if e.vehicleSoc == 100.0 then None
    else Some(Cut(Share(timeLeft.value, e.vehicleSoc, targetSoC)))
  }

  lemma NotNegative(a: real, b: real)
    requires a >= 0.0 && b > 0.0
    ensures (a / b).Floor >= 0
  {
    assert a / b >= 0.0;
  }

  // The energy in Wh of a power in W over a duration
  function Delivered(power: real, d: Time): real { power * d as real / HOUR as real }

  lemma RoundError(x: real)
    requires x >= 0.0
    ensures x.Floor >= 0
    ensures var d := RoundUp(x.Floor) as real;
      d - SECOND as real / 2.0 <= x < d + SECOND as real / 2.0 + 1.0
  {
    var n := x.Floor;
    var r := n % SECOND;
    assert n as real <= x < n as real + 1.0;
    assert r + r < SECOND ==> RoundUp(n) == n - r;
    assert r + r >= SECOND ==> RoundUp(n) == n + (SECOND - r);
  }

  // Charging at this power for the remaining duration delivers the remaining energy, give or take
  // what flows in half a second and a nanosecond.
  lemma DurationDeliversRemainder(e: Estimate, chargePower: real, targetSoC: int)
    requires Consistent(e) && chargePower > 0.0 && e.vehicleSoc < targetSoC as real
    ensures var d := RemainingChargeDuration(e, chargePower, targetSoC, None);
      var wh := 1000.0 * RemainingChargeEnergy(e, targetSoC);
      d.Some? && Delivered(chargePower, d.value - SECOND / 2) <= wh <= Delivered(chargePower, d.value + SECOND / 2 + 1)
  {
    var wh := WhRemaining(e, targetSoC);
    NotNegative(HOUR as real * wh, chargePower);
    var x := HOUR as real * wh / chargePower;
    assert x >= 0.0;
    RoundError(x);
    var d := RoundUp(x.Floor);
    assert x * chargePower == HOUR as real * wh;
    DeliveredWithin(chargePower, d - SECOND / 2, x, wh);
    DeliveredWithin(chargePower, d + SECOND / 2 + 1, x, wh);
  }

  // What flows by a moment compares with what flows by another as the moments do.
  lemma DeliveredWithin(power: real, d: Time, x: real, wh: real)
    requires power > 0.0 && x * power == HOUR as real * wh
    ensures d as real <= x ==> Delivered(power, d) <= wh
    ensures d as real >= x ==> Delivered(power, d) >= wh
  {
    assert power * d as real - HOUR as real * wh == power * (d as real - x);
  }

  // Without power there is no telling, and at the target nothing remains.
  lemma NoDuration(e: Estimate, chargePower: real, targetSoC: int, timeLeft: Option<Time>)
    ensures chargePower <= 0.0 ==> RemainingChargeDuration(e, chargePower, targetSoC, timeLeft) == Some(-1)
    ensures chargePower > 0.0 && e.vehicleSoc >= targetSoC as real ==>
      RemainingChargeDuration(e, chargePower, targetSoC, timeLeft) == Some(0)
  {
  }

  // A vehicle that tells when it will be full is asked for no more than the rest of that time, and
  // for all of it if it is to be full.
  lemma FinishTimeIsShared(e: Estimate, chargePower: real, targetSoC: int, timeLeft: nat)
    requires Consistent(e) && chargePower > 0.0 && e.vehicleSoc < 100.0
    ensures var d := RemainingChargeDuration(e, chargePower, targetSoC, Some(timeLeft));
      targetSoC <= 100 ==> d.Some? && 0 <= d.value <= timeLeft && (targetSoC == 100 ==> d.value == timeLeft)
  {
    if e.vehicleSoc < targetSoC as real && targetSoC <= 100 {
      ShareBounds(timeLeft, e.vehicleSoc, targetSoC);
    }
  }

  lemma ShareBounds(timeLeft: nat, soc: real, targetSoC: int)
    requires soc < targetSoC as real <= 100.0
    ensures 0.0 <= Share(timeLeft, soc, targetSoC) <= timeLeft as real
    ensures targetSoC == 100 ==> Share(timeLeft, soc, targetSoC) == timeLeft as real
  {
    var t, part, whole := timeLeft as real, targetSoC as real - soc, 100.0 - soc;
    var q := Share(timeLeft, soc, targetSoC);
    assert q * whole == t * part;
    assert (t - q) * whole == t * (whole - part);
    AtLeastZero(t, part, whole, q);
    AtLeastZero(t, whole - part, whole, t - q);
  }

  lemma AtLeastZero(t: real, part: real, whole: real, q: real)
    requires t >= 0.0 && part >= 0.0 && whole > 0.0 && q * whole == t * part
    ensures q >= 0.0 && (part == 0.0 ==> q == 0.0)
  {
  }

  // The gradient is positive and the virtual capacity is what it extrapolates to.
  predicate Consistent(e: Estimate) {
    && e.energyPerSocStep > 0.0
    && e.virtualCapacity == 100.0 * e.energyPerSocStep
    && e.prevChargedEnergy >= 0.0
  }

  // The estimate is the last reading plus what was charged since, and was not cut at 100 %.
  predicate Linear(e: Estimate, chargedEnergy: real)
    requires e.energyPerSocStep > 0.0
  {
    && chargedEnergy >= e.prevChargedEnergy >= 0.0
    && e.vehicleSoc == e.prevSoC + (chargedEnergy - e.prevChargedEnergy) / e.energyPerSocStep
  }

  lemma ResetIsConsistent(e: Estimate, capacity: real)
    requires capacity > 0.0
    ensures Consistent(Renewed(e, capacity))
  {
    assert capacity * 1000.0 / CHARGE_EFFICIENCY > 0.0;
  }

  lemma PositiveQuotient(a: real, b: real)
    requires a > 0.0 && b > 0.0
    ensures a / b > 0.0
  {
  }

  lemma SoCKeepsConsistent(e: Estimate, chargedEnergy: real, soc: real)
    requires Consistent(e)
    ensures Consistent(Polled(e, chargedEnergy, soc))
  {
    var socDelta := soc - e.prevSoC;
    var energyDelta := Max(chargedEnergy, 0.0) - e.prevChargedEnergy;
    if socDelta > 2.0 && energyDelta > 0.0 { PositiveQuotient(energyDelta, socDelta); }
  }

  // What happens to an estimator: polls that succeed, and resets on connecting a vehicle. A poll
  // that fails changes nothing.
  datatype Occurrence = Poll(chargedEnergy: real, charger: Answer, vehicle: Answer) | Renew(capacity: real)

  predicate Sensible(o: Occurrence) { o.Renew? ==> o.capacity > 0.0 }

  lemma {:induction false} RunIsConsistent(e: Estimate, capacity: real, history: seq<Occurrence>)
    requires capacity > 0.0 && forall i :: 0 <= i < |history| ==> Sensible(history[i])
    ensures Consistent(RunEstimator(e, capacity, history))
  {
    if history == [] {
      ResetIsConsistent(e, capacity);
    } else {
      var before := history[..|history| - 1];
      RunIsConsistent(e, capacity, before);
      var e1 := RunEstimator(e, capacity, before);
      match history[|history| - 1]
      case Renew(c) => ResetIsConsistent(e1, c);
      case Poll(chargedEnergy, charger, vehicle) =>
        if Fetch(e1.prevSoC, charger, vehicle).Some? {
          SoCKeepsConsistent(e1, chargedEnergy, Fetch(e1.prevSoC, charger, vehicle).value);
        }
    }
  }

  // An estimator created for a vehicle of this capacity (in kWh), after these occurrences
  function RunEstimator(e: Estimate, capacity: real, history: seq<Occurrence>): Estimate {
    if history == [] then Renewed(e, capacity)
    else
      var e1 := RunEstimator(e, capacity, history[..|history| - 1]);
      match history[|history| - 1]
      case Renew(c) => Renewed(e1, c)
      case Poll(chargedEnergy, charger, vehicle) =>
        var soc := Fetch(e1.prevSoC, charger, vehicle);
        if soc.Some? && e1.energyPerSocStep > 0.0 then Polled(e1, chargedEnergy, soc.value) else e1
  }

  // Every estimate is linear in the charged energy, or cut at 100 %.
  lemma EstimateIsLinear(e: Estimate, chargedEnergy: real, soc: real)
    requires Consistent(e) && e.estimate && chargedEnergy >= 0.0
    ensures var e1 := Polled(e, chargedEnergy, soc);
      && e1.energyPerSocStep > 0.0
      && (Linear(e1, chargedEnergy) ||
          (e1.vehicleSoc == 100.0 < e1.prevSoC + (chargedEnergy - e1.prevChargedEnergy) / e1.energyPerSocStep))
  {
    SoCKeepsConsistent(e, chargedEnergy, soc);
  }

  // Closure: after any poll whose estimate was not cut, charging just the remaining energy while
  // the reading stays the same brings the estimate just to the target, and nothing remains, exactly
  // for targets up to 100 %.
  lemma RemainderReachesTarget(e: Estimate, chargedEnergy: real, soc: real, targetSoC: int)
    requires Consistent(e) && e.estimate && chargedEnergy >= 0.0
    requires Polled(e, chargedEnergy, soc).vehicleSoc < 100.0
    requires Polled(e, chargedEnergy, soc).vehicleSoc < targetSoC as real
    ensures var e1 := Polled(e, chargedEnergy, soc);
      && Consistent(e1)
      && (var e2 := Polled(e1, chargedEnergy + 1000.0 * RemainingChargeEnergy(e1, targetSoC), soc);
          && (e2.vehicleSoc == targetSoC as real <==> targetSoC <= 100)
          && (RemainingChargeEnergy(e2, targetSoC) == 0.0 <==> targetSoC <= 100))
  {
    SoCKeepsConsistent(e, chargedEnergy, soc);
    ChargingRemainderReachesTarget(Polled(e, chargedEnergy, soc), chargedEnergy, targetSoC);
  }

  lemma ChargingRemainderReachesTarget(e: Estimate, chargedEnergy: real, targetSoC: int)
    requires Consistent(e) && e.estimate && Linear(e, chargedEnergy) && e.vehicleSoc < targetSoC as real
    ensures var remaining := 1000.0 * RemainingChargeEnergy(e, targetSoC);
      var e1 := Polled(e, chargedEnergy + remaining, e.prevSoC);
      && (e1.vehicleSoc == targetSoC as real <==> targetSoC <= 100)
      && (RemainingChargeEnergy(e1, targetSoC) == 0.0 <==> targetSoC <= 100)
  {
    RemainderInSteps(e, targetSoC);
    ChargedToTarget(e, chargedEnergy, 1000.0 * RemainingChargeEnergy(e, targetSoC), targetSoC as real);
    if targetSoC > 100 { RemainderInSteps(e.(vehicleSoc := 100.0), targetSoC); }
  }

  lemma ChargedToTarget(e: Estimate, chargedEnergy: real, more: real, target: real)
    requires Consistent(e) && e.estimate && Linear(e, chargedEnergy)
    requires more >= 0.0 && more / e.energyPerSocStep == target - e.vehicleSoc
    ensures Polled(e, chargedEnergy + more, e.prevSoC) == e.(vehicleSoc := Min(target, 100.0))
  {
    FurtherCharge(e, chargedEnergy, more);
  }

  // While the reading stays, what is charged further moves the estimate in proportion.
  lemma FurtherCharge(e: Estimate, chargedEnergy: real, more: real)
    requires Consistent(e) && e.estimate && Linear(e, chargedEnergy) && more >= 0.0
    ensures Polled(e, chargedEnergy + more, e.prevSoC) ==
      e.(vehicleSoc := Min(e.vehicleSoc + more / e.energyPerSocStep, 100.0))
  {
    var before := chargedEnergy - e.prevChargedEnergy;
    AddDivision(before, more, e.energyPerSocStep);
    assert Max(chargedEnergy + more, 0.0) - e.prevChargedEnergy == before + more;
  }

  lemma CancelStep(d: real, step: real)
    requires step > 0.0
    ensures d * step / step == d
  {
  }

  // The remaining energy in Wh is so many steps of the gradient.
  lemma RemainderInSteps(e: Estimate, targetSoC: int)
    requires Consistent(e) && e.vehicleSoc < targetSoC as real
    ensures RemainingChargeEnergy(e, targetSoC) > 0.0
    ensures 1000.0 * RemainingChargeEnergy(e, targetSoC) / e.energyPerSocStep == targetSoC as real - e.vehicleSoc
  {
    var d := targetSoC as real - e.vehicleSoc;
    HundredthOf(d, e.energyPerSocStep);
    Positive(d, e.energyPerSocStep);
    CancelStep(d, e.energyPerSocStep);
    assert WhRemaining(e, targetSoC) == d * e.energyPerSocStep;
  }

  lemma HundredthOf(d: real, step: real)
    ensures d / 100.0 * (100.0 * step) == d * step
  {
  }

  lemma Positive(a: real, b: real)
    requires a > 0.0 && b > 0.0
    ensures a * b > 0.0
  {
  }

  lemma AddDivision(a: real, c: real, b: real)
    requires b > 0.0
    ensures (a + c) / b == a / b + c / b
  {
  }

  // A gradient that is learnt explains the reading it was learnt from: the old estimate, had it
  // used the new gradient, would have been right.
  lemma GradientExplainsReading(e: Estimate, chargedEnergy: real, soc: real)
    requires Consistent(e) && e.estimate && e.prevSoC > 0.0
    requires soc - e.prevSoC > 2.0 && Max(chargedEnergy, 0.0) > e.prevChargedEnergy
    ensures var e1 := Polled(e, chargedEnergy, soc);
      && e1.energyPerSocStep > 0.0
      && e.prevSoC + (Max(chargedEnergy, 0.0) - e.prevChargedEnergy) / e1.energyPerSocStep == soc
  {
    var a := Max(chargedEnergy, 0.0) - e.prevChargedEnergy;
    var b := soc - e.prevSoC;
    PositiveQuotient(a, b);
    QuotientOfQuotient(a, b);
  }

  lemma QuotientOfQuotient(a: real, b: real)
    requires a > 0.0 && b > 0.0
    ensures a / b > 0.0 && a / (a / b) == b
  {
    var q := a / b;
    assert q * b == a;
    assert a / q == b * q / q;
  }

  // The SoC that a charger or a vehicle read, if any
  function ReadBy(charger: Answer, vehicle: Answer): Option<real> {
    if charger.Reading? then Some(charger.soc)
    else if charger.NotAvailable? && vehicle.Reading? then Some(vehicle.soc)
    else None
  }

  // The last SoC that was read since the last reset
  function LastRead(history: seq<Occurrence>): Option<real> {
    if history == [] then None
    else
      match history[|history| - 1]
      case Renew(_) => None
      case Poll(_, charger, vehicle) =>
        if ReadBy(charger, vehicle).Some? then ReadBy(charger, vehicle) else LastRead(history[..|history| - 1])
  }

  // The SoC that is stored is the last one that was read, with estimation on, and always 0 with
  // estimation off.
  lemma {:induction false} StoredIsLastRead(e: Estimate, capacity: real, history: seq<Occurrence>)
    requires capacity > 0.0 && forall i :: 0 <= i < |history| ==> Sensible(history[i])
    ensures var e1 := RunEstimator(e, capacity, history);
      && e1.estimate == e.estimate
      && e1.prevSoC == if e.estimate && LastRead(history).Some? then LastRead(history).value else 0.0
  {
    if history != [] {
      var before := history[..|history| - 1];
      StoredIsLastRead(e, capacity, before);
      RunIsConsistent(e, capacity, before);
    }
  }

  // A poll that reads an SoC: the charger's if it has one, else the vehicle's. With estimation off it
  // is returned as read; with estimation on it is if it is not the one read before, and else it
  // grows with the energy charged since, up to 100 %.
  lemma ReadingIsReturned(e: Estimate, capacity: real, history: seq<Occurrence>, energy: real, charger: Answer, vehicle: Answer)
    requires capacity > 0.0 && forall i :: 0 <= i < |history| ==> Sensible(history[i])
    requires charger.Reading? || (charger.NotAvailable? && vehicle.Reading?)
    ensures var before := RunEstimator(e, capacity, history);
      var after := RunEstimator(e, capacity, history + [Poll(energy, charger, vehicle)]);
      var read := if charger.Reading? then charger.soc else vehicle.soc;
      && (!e.estimate ==> after.vehicleSoc == read)
      && (e.estimate && LastRead(history) != Some(read) && read != 0.0 ==> after.vehicleSoc == read)
      && (e.estimate && LastRead(history) == Some(read) && energy >= before.prevChargedEnergy && before.energyPerSocStep > 0.0 ==>
            var grown := read + (energy - before.prevChargedEnergy) / before.energyPerSocStep;
            after.vehicleSoc == if grown > 100.0 then 100.0 else grown)
  {
    StoredIsLastRead(e, capacity, history);
    RunIsConsistent(e, capacity, history);
    assert (history + [Poll(energy, charger, vehicle)])[..|history|] == history;
  }

  // A vehicle that must be asked again is an error in any state, and an error changes nothing.
  lemma ErrorChangesNothing(e: Estimate, capacity: real, history: seq<Occurrence>, energy: real, charger: Answer, vehicle: Answer)
    requires capacity > 0.0 && forall i :: 0 <= i < |history| ==> Sensible(history[i])
    requires Fetch(RunEstimator(e, capacity, history).prevSoC, charger, vehicle).None?
    ensures RunEstimator(e, capacity, history + [Poll(energy, charger, vehicle)]) == RunEstimator(e, capacity, history)
    ensures charger.NotAvailable? && vehicle.MustRetry? ==> Fetch(e.prevSoC, charger, vehicle).None?
  {
    assert (history + [Poll(energy, charger, vehicle)])[..|history|] == history;
  }

  // A new estimator takes a tenth of the energy to be lost: 9 kWh of capacity need 10 kWh.
  lemma NewEstimator(e: Estimate)
    requires e.vehicleSoc == 0.0
    ensures RemainingChargeEnergy(Renewed(e, 9.0), 100) == 10.0
  {
  }

  // The gradient is learnt only from a rise of more than two percent by charging since a reading.
  lemma GradientKept(e: Estimate, chargedEnergy: real, soc: real)
    requires e.energyPerSocStep > 0.0
    requires !e.estimate || e.prevSoC <= 0.0 || soc - e.prevSoC <= 2.0 || Max(chargedEnergy, 0.0) <= e.prevChargedEnergy
    ensures var e1 := Polled(e, chargedEnergy, soc);
      e1.energyPerSocStep == e.energyPerSocStep && e1.virtualCapacity == e.virtualCapacity
  {
  }

  // An error that the estimator is to recover from: anything but a vehicle that must be asked again.
  predicate Temporary(charger: Answer, vehicle: Answer) {
    ReadBy(charger, vehicle).None? && !(charger.NotAvailable? && vehicle.MustRetry?)
  }

  // After any history a temporary error is recovered from if and only if estimation is on and the
  // last SoC read since the last reset was not 0. Then it is as if that SoC were read again.
  lemma TemporaryErrorExactly(e: Estimate, capacity: real, history: seq<Occurrence>, charger: Answer, vehicle: Answer)
    requires capacity > 0.0 && forall i :: 0 <= i < |history| ==> Sensible(history[i])
    requires Temporary(charger, vehicle)
    ensures var fetched := Fetch(RunEstimator(e, capacity, history).prevSoC, charger, vehicle);
      && (fetched.Some? <==> e.estimate && LastRead(history).Some? && LastRead(history).value != 0.0)
      && (fetched.Some? ==> fetched == LastRead(history))
  {
    StoredIsLastRead(e, capacity, history);
  }

  // So over runs: a history with the error goes on as one with the reading, or as one without either.
  lemma TemporaryErrorIgnored(e: Estimate, capacity: real, history: seq<Occurrence>, chargedEnergy: real,
                              charger: Answer, vehicle: Answer)
    requires capacity > 0.0 && forall i :: 0 <= i < |history| ==> Sensible(history[i])
    requires Temporary(charger, vehicle)
    ensures RunEstimator(e, capacity, history + [Poll(chargedEnergy, charger, vehicle)]) ==
      if e.estimate && LastRead(history).Some? && LastRead(history).value != 0.0
      then RunEstimator(e, capacity, history + [Poll(chargedEnergy, Reading(LastRead(history).value), vehicle)])
      else RunEstimator(e, capacity, history)
  {
    TemporaryErrorExactly(e, capacity, history, charger, vehicle);
    assert (history + [Poll(chargedEnergy, charger, vehicle)])[..|history|] == history;
    if LastRead(history).Some? {
      assert (history + [Poll(chargedEnergy, Reading(LastRead(history).value), vehicle)])[..|history|] == history;
    }
  }

  class Estimator {
    const estimate: bool
    var capacity: real
    var virtualCapacity: real
    var vehicleSoc: real
    var prevSoC: real
    var prevChargedEnergy: real
    var energyPerSocStep: real

    ghost function View(): Estimate
      reads this
    {
      Estimate(estimate, capacity, virtualCapacity, vehicleSoc, prevSoC, prevChargedEnergy, energyPerSocStep)
    }

    constructor (estimate: bool, vehicleCapacity: int)
      requires vehicleCapacity > 0
      ensures this.estimate == estimate && Consistent(View())
    {
      this.estimate := estimate;
      vehicleSoc := 0.0;
      new;
      Reset(vehicleCapacity);
      ResetIsConsistent(View(), vehicleCapacity as real);
    }

    method Reset(vehicleCapacity: int)
      modifies this
      ensures View() == Renewed(old(View()), vehicleCapacity as real)
    {
      prevSoC := 0.0;
      prevChargedEnergy := 0.0;
      capacity := vehicleCapacity as real * 1000.0;
      virtualCapacity := capacity / CHARGE_EFFICIENCY;
      energyPerSocStep := virtualCapacity / 100.0;
    }

    method RemainingDuration(chargePower: real, targetSoC: int, timeLeft: Option<Time>) returns (d: Option<Time>)
      ensures d == RemainingChargeDuration(View(), chargePower, targetSoC, timeLeft)
    {
      if chargePower > 0.0 {
        var percentRemaining := targetSoC as real - vehicleSoc;
        if percentRemaining <= 0.0 {
          return Some(0);
        }
        if timeLeft.Some? {
          if vehicleSoc == 100.0 {
            return None;
          }
          return Some(Cut(Share(timeLeft.value, vehicleSoc, targetSoC)));
        }
        var whRemaining := percentRemaining / 100.0 * virtualCapacity;
        assert whRemaining == WhRemaining(View(), targetSoC);
        return Some(RoundToSecond(Cut(HOUR as real * whRemaining / chargePower)));
      }
      return Some(-1);
    }

    method RemainingEnergy(targetSoC: int) returns (kwh: real)
      ensures kwh == RemainingChargeEnergy(View(), targetSoC)
    {
      var percentRemaining := targetSoC as real - vehicleSoc;
      if percentRemaining <= 0.0 {
        return 0.0;
      }
      return percentRemaining / 100.0 * virtualCapacity / 1000.0;
    }

    method SoC(chargedEnergy: real, charger: Answer, vehicle: Answer) returns (soc: Option<real>)
      requires Consistent(View())
      modifies this
      ensures var fetched := Fetch(old(prevSoC), charger, vehicle);
        && View() == (if fetched.Some? then Polled(old(View()), chargedEnergy, fetched.value) else old(View()))
        && soc == if fetched.Some? then Some(vehicleSoc) else None
      ensures Consistent(View())
    {
      var fetched := None;
      if charger != NotAvailable {
        if charger.Reading? {
          fetched := Some(charger.soc);
        } else {
          if prevSoC == 0.0 {
            return None;
          }
          fetched := Some(prevSoC);
        }
      }
      if fetched.None? {
        if vehicle.Reading? {
          fetched := Some(vehicle.soc);
        } else {
          if vehicle == MustRetry || prevSoC == 0.0 {
            return None;
          }
          fetched := Some(prevSoC);
        }
      }
      SoCKeepsConsistent(View(), chargedEnergy, fetched.value);
      vehicleSoc := fetched.value;
      if estimate {
        var socDelta := vehicleSoc - prevSoC;
        var energyDelta := Max(chargedEnergy, 0.0) - prevChargedEnergy;
        if socDelta != 0.0 || energyDelta < 0.0 {
          if socDelta > 2.0 && energyDelta > 0.0 && prevSoC > 0.0 {
            energyPerSocStep := energyDelta / socDelta;
            virtualCapacity := energyPerSocStep * 100.0;
          }
          prevChargedEnergy := Max(chargedEnergy, 0.0);
          prevSoC := vehicleSoc;
        } else {
          vehicleSoc := Min(fetched.value + energyDelta / energyPerSocStep, 100.0);
        }
      }
      return Some(vehicleSoc);
    }
  }
}

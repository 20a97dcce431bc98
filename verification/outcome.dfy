// What an update achieves when the charger cooperates: the precedence of the charging strategies
// and the two ways of being held back.
module Outcomes {
  import opened Base
  import opened Api
  import opened History
  import opened Control
  import opened Runs

  predicate Willing(inp: Inputs) {
    inp.limit == Reply(true, true) && inp.scale == ScaleReply(Reply(true, true), true)
  }

  // The charger is on and at most one ampere below the maximum.
  predicate AtFullPower(s: State) {
    s.enabled && s.maxCurrent - 1.0 < s.chargeCurrent <= s.maxCurrent
  }

  lemma TruncLoss(x: real)
    requires x >= 0.0
    ensures x - 1.0 < Trunc(x) <= x
  {
  }

  // A forced, acknowledged setLimit with an admissible current.
  lemma ForcedLimit(cfg: Config, s: State, current: real)
    requires Sane(cfg, s.minCurrent, s.maxCurrent)
    requires current == 0.0 || s.minCurrent <= current <= s.maxCurrent
    ensures var (s1, ok) := SetLimit(cfg, s, current, true, Reply(true, true));
      && ok
      && (s1.enabled <==> current != 0.0)
      && (current != 0.0 ==> current - 1.0 < s1.chargeCurrent <= current)
      && (current != 0.0 && (cfg.ex || Trunc(current) == current) ==> s1.chargeCurrent == current)
  {
    if current != 0.0 {
      TruncLoss(current);
      SentInRange(cfg, s, current);
    }
  }

  lemma FullPower(cfg: Config, s: State, inp: Inputs)
    requires Sane(cfg, s.minCurrent, s.maxCurrent) && Willing(inp)
    ensures var s1 := ChargeFull(cfg, s, inp);
      AtFullPower(s1) && (cfg.switchable ==> s1.phases == 3)
  {
    SetLimitFrame(cfg, s, 0.0, true, inp.scale.limit);
    ForcedLimit(cfg, s, 0.0);
    ScaleFrame(cfg, s, 3, false, inp.scale);
    var s1 := ScalePhases(cfg, s, 3, false, inp.scale).0;
    ForcedLimit(cfg, s1, s1.maxCurrent);
    SetLimitFrame(cfg, s1, s1.maxCurrent, true, inp.limit);
  }

  // Plugged in, with a cooperating charger: a reached target SoC decides alone, by climate and even
  // against a hard disable or mode Off; then a hard disable or mode Off; then a minimum SoC that is
  // not reached or mode Now; a soft disable and the cheap tariff count in the PV modes only, in this
  // order.
  lemma Precedence(cfg: Config, s: State, mode: ChargeMode, inp: Inputs)
    requires Sane(cfg, s.minCurrent, s.maxCurrent) && Willing(inp) && (s.status.StatusB? || s.status.StatusC?)
    ensures var s1 := Strategy(cfg, s, mode, inp);
      var full := s.vehicle.Some? && 0 < s.targetSoC < 100 && s.vehicleSoc >= s.targetSoC as real;
      var low := s.vehicle.Some? && s.minSoC > 0 && s.vehicleSoc < s.minSoC as real;
      if full then
        && (s1.enabled <==> inp.climate)
        && (inp.climate ==> s1.chargeCurrent == s.minCurrent)
      else if s.remoteDemand.RemoteHardDisable? || mode.ModeOff? then !s1.enabled
      else if low || mode.ModeNow? then
        && s1.enabled && s.maxCurrent - 1.0 < s1.chargeCurrent <= s.maxCurrent
        && (cfg.switchable ==> s1.phases == 3)
        && (low ==> PvMayDisable(cfg, s1))
      else if mode.ModeMinPV? || mode.ModePV? then
        && (s.remoteDemand.RemoteSoftDisable? ==> !s1.enabled)
        && (!s.remoteDemand.RemoteSoftDisable? && inp.cheap ==>
              s1.enabled && s.maxCurrent - 1.0 < s1.chargeCurrent <= s.maxCurrent)
      else s1 == s
  {
    if TargetSocReached(s) {
      ForcedLimit(cfg, s, if inp.climate then s.minCurrent else 0.0);
    } else if s.remoteDemand.RemoteHardDisable? || mode.ModeOff? {
      ForcedLimit(cfg, s, 0.0);
    } else if MinSocNotReached(s) || mode.ModeNow? {
      FullPower(cfg, s, inp);
      ElapsedLiftsGuard(cfg, ChargeFull(cfg, s, inp));
      FullKeepsMaximum(cfg, s, inp);
    } else if mode.ModeMinPV? || mode.ModePV? {
      PvPrecedence(cfg, s, mode, inp);
      PvKeepsMaximum(cfg, s, mode, inp);
    }
  }

  lemma FullKeepsMaximum(cfg: Config, s: State, inp: Inputs)
    ensures ChargeFull(cfg, s, inp).maxCurrent == s.maxCurrent
  {
    ScaleFrame(cfg, s, 3, false, inp.scale);
    var s1 := ScalePhases(cfg, s, 3, false, inp.scale).0;
    SetLimitFrame(cfg, s1, s1.maxCurrent, true, inp.limit);
  }

  lemma PvKeepsMaximum(cfg: Config, s: State, mode: ChargeMode, inp: Inputs)
    requires mode.ModeMinPV? || mode.ModePV?
    ensures ChargePV(cfg, s, mode, inp).maxCurrent == s.maxCurrent
  {
    PvFrame(cfg, s, mode, inp.sitePower, inp.scale);
    var (s1, pv) := PvMaxCurrent(cfg, s, mode, inp.sitePower, inp.scale);
    var climate := pv == 0.0 && s1.vehicle.Some? && inp.climate;
    var soft := s1.remoteDemand.RemoteSoftDisable?;
    SetLimitFrame(cfg, s1, if soft then 0.0 else if climate || inp.cheap then s1.maxCurrent else pv,
                  climate || inp.cheap || soft, inp.limit);
  }

  // Without a vehicle the charger is switched off as soon as the guard allows, whatever the mode.
  lemma DisconnectedIsOff(cfg: Config, s: State, mode: ChargeMode, inp: Inputs)
    requires Sane(cfg, s.minCurrent, s.maxCurrent) && Willing(inp) && !(s.status.StatusB? || s.status.StatusC?)
    ensures Strategy(cfg, s, mode, inp).enabled <==> s.enabled && GuardRemaining(cfg, s) > 0
  {
    UnforcedLimit(cfg, s, 0.0);
  }

  lemma PvPrecedence(cfg: Config, s: State, mode: ChargeMode, inp: Inputs)
    requires Sane(cfg, s.minCurrent, s.maxCurrent) && Willing(inp) && (mode.ModeMinPV? || mode.ModePV?)
    ensures var s1 := ChargePV(cfg, s, mode, inp);
      && (s.remoteDemand.RemoteSoftDisable? ==> !s1.enabled)
      && (!s.remoteDemand.RemoteSoftDisable? && inp.cheap ==> AtFullPower(s1))
  {
    PvFrame(cfg, s, mode, inp.sitePower, inp.scale);
    var s1 := PvMaxCurrent(cfg, s, mode, inp.sitePower, inp.scale).0;
    if s.remoteDemand.RemoteSoftDisable? {
      ForcedLimit(cfg, s1, 0.0);
    } else if inp.cheap {
      ForcedLimit(cfg, s1, s1.maxCurrent);
      SetLimitFrame(cfg, s1, s1.maxCurrent, true, inp.limit);
    }
  }

  // Otherwise PV control decides: off becomes full power if the vehicle is climatised, and only
  // then is the charger forced. Else the guard may hold back the switch but not the current.
  lemma PvFollowed(cfg: Config, s: State, mode: ChargeMode, inp: Inputs)
    requires Sane(cfg, s.minCurrent, s.maxCurrent) && Willing(inp) && (mode.ModeMinPV? || mode.ModePV?)
    requires !s.remoteDemand.RemoteSoftDisable? && !inp.cheap
    ensures var (s1, pv) := PvMaxCurrent(cfg, s, mode, inp.sitePower, inp.scale);
      var s2 := ChargePV(cfg, s, mode, inp);
      if pv == 0.0 && s.vehicle.Some? && inp.climate then AtFullPower(s2)
      else
        && (s2.enabled <==> if GuardRemaining(cfg, s1) > 0 then s1.enabled else pv != 0.0)
        && (pv != 0.0 ==> pv - 1.0 < s2.chargeCurrent <= pv)
  {
    PvFrame(cfg, s, mode, inp.sitePower, inp.scale);
    PvIsAdmissible(cfg, s, mode, inp.sitePower, inp.scale);
    var (s1, pv) := PvMaxCurrent(cfg, s, mode, inp.sitePower, inp.scale);
    if pv == 0.0 && s.vehicle.Some? && inp.climate {
      ForcedLimit(cfg, s1, s1.maxCurrent);
      SetLimitFrame(cfg, s1, s1.maxCurrent, true, inp.limit);
    } else {
      UnforcedLimit(cfg, s1, pv);
    }
  }

  // A phase switch by PV control is to keep the charger off for this cycle. It stays off if and
  // only if nothing overrides PV control: climate control and the cheap tariff switch it on again.
  lemma SwitchCycleExactly(cfg: Config, s: State, mode: ChargeMode, inp: Inputs)
    requires Inv(cfg, s) && Sane(cfg, s.minCurrent, s.maxCurrent) && Willing(inp) && (mode.ModeMinPV? || mode.ModePV?)
    requires PvPhases(cfg, s, inp.sitePower, inp.scale).1
    ensures ChargePV(cfg, s, mode, inp).enabled <==>
      !s.remoteDemand.RemoteSoftDisable? && (inp.cheap || (s.vehicle.Some? && inp.climate))
  {
    PvPrecedence(cfg, s, mode, inp);
    if !s.remoteDemand.RemoteSoftDisable? && !inp.cheap {
      PvFollowed(cfg, s, mode, inp);
      PvScalePhasesKeeps(cfg, s, Available(s, inp.sitePower), inp.scale);
    }
  }

  // An unforced setLimit that the charger acknowledges
  lemma UnforcedLimit(cfg: Config, s: State, current: real)
    requires Sane(cfg, s.minCurrent, s.maxCurrent)
    requires current == 0.0 || s.minCurrent <= current <= s.maxCurrent
    ensures var s1 := SetLimit(cfg, s, current, false, Reply(true, true)).0;
      && (s1.enabled <==> if GuardRemaining(cfg, s) > 0 then s.enabled else current != 0.0)
      && (current != 0.0 ==> current - 1.0 < s1.chargeCurrent <= current)
  {
    if current != 0.0 {
      TruncLoss(current);
      SentInRange(cfg, s, current);
    }
    SendLimitFrame(cfg, s, current, Reply(true, true));
  }

  lemma PvIsAdmissible(cfg: Config, s: State, mode: ChargeMode, sitePower: real, reply: ScaleReply)
    requires mode.ModeMinPV? || mode.ModePV?
    requires 0.0 < s.minCurrent <= s.maxCurrent
    ensures var pv := PvMaxCurrent(cfg, s, mode, sitePower, reply).1;
      pv == 0.0 || s.minCurrent <= pv <= s.maxCurrent
  {
    PvFrame(cfg, s, mode, sitePower, reply);
  }

  // Unforced, a change of the enabled state goes through exactly when more than the guard time
  // less one second has passed since the last one.
  lemma GuardDecides(cfg: Config, s: State, current: real)
    requires Sane(cfg, s.minCurrent, s.maxCurrent)
    requires current == 0.0 || s.minCurrent <= current <= s.maxCurrent
    requires s.enabled != (current != 0.0)
    ensures SetLimit(cfg, s, current, false, Reply(true, true)).0.enabled == (current != 0.0) <==>
      s.guardUpdated.None? || s.now - s.guardUpdated.value > cfg.guard - SECOND
  {
    if current != 0.0 { SentInRange(cfg, s, current); }
    if s.guardUpdated.Some? { GuardExact(cfg.guard - (s.now - s.guardUpdated.value)); }
  }

  lemma GuardExact(d: Time)
    ensures TruncateToSecond(d) > 0 <==> d >= SECOND
  {
  }

  // Connecting a vehicle or changing the mode lifts the guard and lets PV mode disable at once.
  lemma ElapsedLiftsGuard(cfg: Config, s: State)
    ensures PvMayDisable(cfg, ElapsePVTimer(cfg, s))
  {
  }

  predicate PvMayDisable(cfg: Config, s: State) {
    GuardRemaining(cfg, s) <= 0 && s.pvTimer.Some? && s.now - s.pvTimer.value >= cfg.disable.delay
  }

  // ---------------------------------------------------------------- one timer for two delays

  // PV mode is left alone: nothing overrides it, and no phase switch falls due.
  predicate PvAlone(cfg: Config, s: State, inp: Inputs) {
    && !s.remoteDemand.RemoteSoftDisable? && !inp.cheap && !(s.vehicle.Some? && inp.climate)
    && (cfg.switchable ==> !Judge(cfg, s, Available(s, inp.sitePower)).2)
  }

  // Then the charger follows the PV decision as soon as the guard allows.
  lemma PvAloneDecides(cfg: Config, s: State, inp: Inputs)
    requires Sane(cfg, s.minCurrent, s.maxCurrent) && Willing(inp) && PvAlone(cfg, s, inp)
    ensures ChargePV(cfg, s, ModePV, inp).enabled <==>
      if GuardRemaining(cfg, s) > 0 then s.enabled
      else PvDecide(cfg, s, ModePV, TargetCurrent(cfg, s, inp.sitePower), inp.sitePower).1 != 0.0
  {
    PvFollowed(cfg, s, ModePV, inp);
    NotDueDecides(cfg, s, inp.sitePower, inp.scale);
  }

  lemma NotDueDecides(cfg: Config, s: State, sitePower: real, reply: ScaleReply)
    requires cfg.switchable ==> !Judge(cfg, s, Available(s, sitePower)).2
    ensures var (s1, pv) := PvMaxCurrent(cfg, s, ModePV, sitePower, reply);
      && s1.enabled == s.enabled && s1.guardUpdated == s.guardUpdated && s1.now == s.now
      && pv == PvDecide(cfg, s, ModePV, TargetCurrent(cfg, s, sitePower), sitePower).1
  {
    var s1 := if cfg.switchable then Judge(cfg, s, Available(s, sitePower)).0 else s;
    var target := TargetCurrent(cfg, s, sitePower);
    assert PvMaxCurrent(cfg, s, ModePV, sitePower, reply) == PvDecide(cfg, s1, ModePV, target, sitePower);
  }

  // In PV mode the first deficit switches the charger off if and only if the timer had already run
  // for Disable.Delay, whatever it was started for, and the guard is over.
  lemma DisableAtOnceExactly(cfg: Config, s: State, inp: Inputs)
    requires Sane(cfg, s.minCurrent, s.maxCurrent) && Willing(inp) && PvAlone(cfg, s, inp)
    requires s.enabled && cfg.disable.delay > 0
    requires TargetCurrent(cfg, s, inp.sitePower) < s.minCurrent && inp.sitePower >= cfg.disable.threshold
    ensures !ChargePV(cfg, s, ModePV, inp).enabled <==> PvMayDisable(cfg, s)
  {
    PvAloneDecides(cfg, s, inp);
  }

  // Once the timer is elapsed, power for charging switches the charger on at once if and only if
  // Enable.Delay is no longer than Disable.Delay.
  lemma EnableAtOnceExactly(cfg: Config, s: State, inp: Inputs)
    requires Sane(cfg, s.minCurrent, s.maxCurrent) && Willing(inp) && PvAlone(cfg, s, inp)
    requires !s.enabled
    requires if cfg.enable.threshold == 0.0 then TargetCurrent(cfg, s, inp.sitePower) >= s.minCurrent
      else inp.sitePower <= cfg.enable.threshold
    ensures ChargePV(cfg, ElapsePVTimer(cfg, s), ModePV, inp).enabled <==> cfg.enable.delay <= cfg.disable.delay
  {
    PvAloneDecides(cfg, ElapsePVTimer(cfg, s), inp);
  }

  // ---------------------------------------------------------------- a run

  // A milliampere charger on one phase, with thresholds of 0 W.
  predicate Simple(cfg: Config) {
    && cfg.ex && !cfg.switchable && !cfg.wrapped && !cfg.currents && |cfg.vehicles| != 1
    && cfg.voltage == 230.0 && cfg.phases == 1
    && cfg.enable.threshold == 0.0 == cfg.disable.threshold
  }

  predicate Ready(s: State) {
    && s.mode.ModePV? && s.remoteDemand.RemoteEnable? && s.vehicle.None?
    && s.minCurrent == 6.0 && s.maxCurrent == 16.0 && s.activePhases == 1
    && (s.status.StatusNone? || s.status.StatusB?)
  }

  // An update at this site power and status; the charger acknowledges everything.
  function Offered(sitePower: real, status: ChargeStatus): Inputs {
    Inputs(sitePower, false, None, None, Some(status), None, None, None, None, None, true, false,
           ScaleReply(Reply(true, true), true), Reply(true, true))
  }

  lemma SimpleUpdate(cfg: Config, s: State, sitePower: real, status: ChargeStatus)
    requires Simple(cfg) && Ready(s) && (status.StatusB? || status.StatusC?)
    ensures var inp := Offered(sitePower, status);
      var s1 := SyncCharger(UpdateVehicle(cfg, UpdateChargerStatus(cfg, ReadMeters(cfg, s, inp), status), inp), None, true);
      && s1 == s.(chargeCurrents := None, status := status, history := s1.history)
      && Update(cfg, s, inp) == ChargePV(cfg, s1, ModePV, inp)
  {
    var inp := Offered(sitePower, status);
    SimpleMeters(cfg, s, inp);
    var m := ReadMeters(cfg, s, inp);
    assert UpdateChargerStatus(cfg, m, status) == m.(status := status, history := UpdateChargerStatus(cfg, m, status).history);
  }

  lemma SimpleMeters(cfg: Config, s: State, inp: Inputs)
    requires Simple(cfg) && Ready(s) && inp.power.None? && inp.currents.None?
    ensures ReadMeters(cfg, s, inp) == s.(chargeCurrents := None)
  {
  }

  // Power for 10 A, and the timer starts or goes on.
  lemma SurplusUpdate(cfg: Config, s: State)
    requires Simple(cfg) && Ready(s) && !s.enabled && s.guardUpdated.None? && s.chargeCurrent == 0.0
    ensures var s1 := Update(cfg, s, Offered(-2300.0, StatusB));
      var started := if s.pvTimer.None? then s.now else s.pvTimer.value;
      && Ready(s1) && s1.status.StatusB? && s1.now == s.now && s1.pvTimer == Some(started)
      && (s.now - started < cfg.enable.delay ==> !s1.enabled && s1.guardUpdated.None? && s1.chargeCurrent == 0.0)
      && (s.now - started >= cfg.enable.delay ==>
            s1.enabled && s1.guardUpdated == Some(s.now) && s1.chargeCurrent == 6.0)
  {
    SimpleUpdate(cfg, s, -2300.0, StatusB);
  }

  // A deficit, when charging has just begun.
  lemma DeficitUpdate(cfg: Config, s: State)
    requires Simple(cfg) && Ready(s) && s.enabled && s.chargeCurrent == 6.0 && PvMayDisable(cfg, s)
    ensures var s1 := Update(cfg, s, Offered(2300.0, StatusC)); !s1.enabled && s1.now == s.now
  {
    SimpleUpdate(cfg, s, 2300.0, StatusC);
  }

  // The PV timer is not cleared when it has enabled the charger. So from start-up, with power for
  // charging at first and a deficit `wait` after switching on, that deficit, the first there was,
  // switches the charger off again though `wait` is shorter than Disable.Delay.
  lemma DisableWithoutDelay(cfg: Config, s: State, wait: nat)
    requires Simple(cfg) && Fresh(cfg, s) && s.mode.ModePV? && s.remoteDemand.RemoteEnable?
    requires s.minCurrent == 6.0 && s.maxCurrent == 16.0
    requires cfg.enable.delay > 0 && cfg.guard <= wait < cfg.disable.delay <= cfg.enable.delay + wait
    ensures var s0 := Prepare(cfg, s, Some(false), Reply(true, true));
      var surplus, deficit := DoUpdate(Offered(-2300.0, StatusB)), DoUpdate(Offered(2300.0, StatusC));
      var steps := [Step(0, surplus), Step(cfg.enable.delay, surplus), Step(wait, deficit)];
      && !Run(cfg, s0, steps[..1]).enabled
      && Run(cfg, s0, steps[..2]).enabled
      && !Run(cfg, s0, steps).enabled
      && Run(cfg, s0, steps).now == Run(cfg, s0, steps[..2]).now + wait
  {
    var s0 := Prepare(cfg, s, Some(false), Reply(true, true));
    var surplus, deficit := DoUpdate(Offered(-2300.0, StatusB)), DoUpdate(Offered(2300.0, StatusC));
    var a, b, c := Step(0, surplus), Step(cfg.enable.delay, surplus), Step(wait, deficit);
    ThreeSteps(cfg, s0, a, b, c);
    StartsReady(cfg, s);
    SurplusUpdate(cfg, Wait(s0, 0));
    var s1 := StepOnce(cfg, s0, a);
    SwitchedOnAndOff(cfg, s1, wait);
  }

  lemma StartsReady(cfg: Config, s: State)
    requires Simple(cfg) && Fresh(cfg, s) && s.mode.ModePV? && s.remoteDemand.RemoteEnable?
    requires s.minCurrent == 6.0 && s.maxCurrent == 16.0
    ensures var s0 := Prepare(cfg, s, Some(false), Reply(true, true));
      && Ready(s0) && !s0.enabled && s0.guardUpdated.None? && s0.chargeCurrent == 0.0
      && s0.pvTimer.None? && s0.now == s.now
  {
  }

  // The last two of the three updates
  lemma SwitchedOnAndOff(cfg: Config, s: State, wait: nat)
    requires Simple(cfg) && Ready(s) && !s.enabled && s.guardUpdated.None? && s.chargeCurrent == 0.0
    requires s.pvTimer == Some(s.now) && cfg.enable.delay > 0
    requires cfg.guard <= wait && cfg.disable.delay <= cfg.enable.delay + wait
    ensures var s2 := Update(cfg, Wait(s, cfg.enable.delay), Offered(-2300.0, StatusB));
      var s3 := Update(cfg, Wait(s2, wait), Offered(2300.0, StatusC));
      s2.enabled && !s3.enabled && s3.now == s2.now + wait
  {
    SurplusUpdate(cfg, Wait(s, cfg.enable.delay));
    SwitchedOff(cfg, Update(cfg, Wait(s, cfg.enable.delay), Offered(-2300.0, StatusB)), wait);
  }

  lemma SwitchedOff(cfg: Config, s: State, wait: nat)
    requires Simple(cfg) && Ready(s) && s.enabled && s.chargeCurrent == 6.0 && s.guardUpdated == Some(s.now)
    requires s.pvTimer == Some(s.now - cfg.enable.delay)
    requires cfg.guard <= wait && cfg.disable.delay <= cfg.enable.delay + wait
    ensures var s1 := Update(cfg, Wait(s, wait), Offered(2300.0, StatusC));
      !s1.enabled && s1.now == s.now + wait
  {
    assert TruncateToSecond(cfg.guard - wait) <= 0;
    DeficitUpdate(cfg, Wait(s, wait));
  }

  lemma ThreeSteps(cfg: Config, s: State, a: Step, b: Step, c: Step)
    ensures var s1 := StepOnce(cfg, s, a);
      var s2 := StepOnce(cfg, s1, b);
      && Run(cfg, s, [a, b, c][..1]) == s1
      && Run(cfg, s, [a, b, c][..2]) == s2
      && Run(cfg, s, [a, b, c]) == StepOnce(cfg, s2, c)
  {
    assert [a, b, c][..1] == [a] && [a, b, c][..2] == [a, b] && [a][..0] == [] && [a, b][..1] == [a];
    assert Run(cfg, s, []) == s;
  }
}

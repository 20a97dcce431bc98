// What the operations of a loadpoint amount to, in terms of its variables, the inputs and the
// constants alone.
module Effects {
  import opened Base
  import opened Api
  import opened History
  import opened Control
  import opened Runs
  import opened Outcomes
  import opened Identification

  // ---------------------------------------------------------------- measuring

  lemma QuotientTimes(a: real, b: real)
    requires b != 0.0
    ensures a / b * b == a
  {
  }

  // The PV target changes the effective current by what the site power amounts to on the active
  // phases, as far as that leaves a current. What is effective is at most two amperes above the first
  // measured phase current, or without phase currents the limit while charging.
  lemma TargetExactly(cfg: Config, s: State, sitePower: real)
    ensures var target := TargetCurrent(cfg, s, sitePower);
      var effective :=
        if s.chargeCurrents.Some? then
          (if s.chargeCurrents.value.0 + 2.0 < s.chargeCurrent then s.chargeCurrents.value.0 + 2.0 else s.chargeCurrent)
        else if s.status.StatusC? then s.chargeCurrent
        else 0.0;
      var draw := (target - effective) * (s.activePhases as real * cfg.voltage);
      && target >= 0.0
      && (target > 0.0 ==> draw == -sitePower)
      && draw >= -sitePower
  {
    var k := s.activePhases as real * cfg.voltage;
    QuotientTimes(-sitePower, k);
    var target, delta := TargetCurrent(cfg, s, sitePower), -sitePower / k;
    assert PowerToCurrent(cfg, -sitePower, s.activePhases) == delta;
    Monotone(delta, target - EffectiveCurrent(s), k);
  }

  lemma Monotone(a: real, b: real, k: real)
    requires a <= b && k > 0.0
    ensures a * k <= b * k
  {
  }

  // The charge power is what the meter shows or, if reading it fails, what it was.
  lemma ChargePowerExactly(cfg: Config, s: State, inp: Inputs)
    ensures ReadMeters(cfg, s, inp).chargePower ==
      if cfg.wrapped then s.meterPower else if inp.power.Some? then inp.power.value else s.chargePower
  {
  }

  // While charging the active phases are those that carry an ampere, if any does; without phase
  // currents the number that comes nearest to the power over the current, if it is from 1 to 3.
  lemma ActivePhasesExactly(cfg: Config, s: State, inp: Inputs)
    ensures var s1 := ReadMeters(cfg, s, inp);
      && (s.status != StatusC ==> s1.activePhases == s.activePhases)
      && (s.status == StatusC && !cfg.wrapped && cfg.currents && inp.currents.Some? ==>
            s1.activePhases == if |Carrying(inp.currents.value)| == 0 then s.activePhases else |Carrying(inp.currents.value)|)
      && (!cfg.wrapped && cfg.currents && inp.currents.None? ==> s1.activePhases == s.activePhases)
      && s1.chargeCurrents == (if !cfg.wrapped && cfg.currents then inp.currents else None)
  {
    if inp.currents.Some? { CountsCarrying(inp.currents.value); }
  }

  // The phases that carry at least an ampere
  function Carrying(i: (real, real, real)): set<int> {
    set k | 0 <= k < 3 && [i.0, i.1, i.2][k] >= 1.0
  }

  lemma CountsCarrying(i: (real, real, real))
    ensures CountActive(i) == |Carrying(i)|
  {
    var amps := [i.0, i.1, i.2];
    var a: set<int> := if amps[0] >= 1.0 then {0} else {};
    var b: set<int> := if amps[1] >= 1.0 then {1} else {};
    var c: set<int> := if amps[2] >= 1.0 then {2} else {};
    assert Carrying(i) == a + b + c;
    DisjointCard(a, b);
    DisjointCard(a + b, c);
  }

  lemma DisjointCard(a: set<int>, b: set<int>)
    requires a !! b
    ensures |a + b| == |a| + |b|
  {
  }

  lemma GuessExactly(cfg: Config, s: State, inp: Inputs)
    requires s.status == StatusC && !cfg.wrapped && !cfg.currents
    ensures var s1 := ReadMeters(cfg, s, inp);
      if s.chargeCurrent > 0.0 && 0.5 <= Ratio(cfg, s1) < 3.5
      then s1.activePhases as real - 0.5 <= Ratio(cfg, s1) < s1.activePhases as real + 0.5
      else s1.activePhases == s.activePhases
  {
  }

  // How many phases the power would need at the set current
  function Ratio(cfg: Config, s: State): real {
    if s.chargeCurrent > 0.0 then s.chargePower / cfg.voltage / s.chargeCurrent else 0.0
  }

  // ---------------------------------------------------------------- PV control

  // With no phase switch due, a Min+PV update charges with the target within the limits, and with a
  // target below the minimum at the minimum; only the guard may keep the charger off.
  lemma MinPvExactly(cfg: Config, s: State, inp: Inputs)
    requires Sane(cfg, s.minCurrent, s.maxCurrent) && Willing(inp) && PvAlone(cfg, s, inp)
    ensures var target := TargetCurrent(cfg, s, inp.sitePower);
      var within := if target < s.minCurrent then s.minCurrent else if target > s.maxCurrent then s.maxCurrent else target;
      var s1 := ChargePV(cfg, s, ModeMinPV, inp);
      && PvMaxCurrent(cfg, s, ModeMinPV, inp.sitePower, inp.scale).1 == within
      && within - 1.0 < s1.chargeCurrent <= within
      && (cfg.ex || within == s.minCurrent ==> s1.chargeCurrent == within)
      && (GuardRemaining(cfg, s) <= 0 ==> s1.enabled)
  {
    NotDue(cfg, s, ModeMinPV, inp.sitePower, inp.scale);
    var (s1, pv) := PvMaxCurrent(cfg, s, ModeMinPV, inp.sitePower, inp.scale);
    UnforcedExact(cfg, s1, pv);
  }

  // In PV mode an enabled charger follows the target while it reaches the minimum.
  lemma PvFollowsTarget(cfg: Config, s: State, inp: Inputs)
    requires Sane(cfg, s.minCurrent, s.maxCurrent) && Willing(inp) && PvAlone(cfg, s, inp)
    requires s.enabled && TargetCurrent(cfg, s, inp.sitePower) >= s.minCurrent
    ensures var target := TargetCurrent(cfg, s, inp.sitePower);
      var within := if target > s.maxCurrent then s.maxCurrent else target;
      var s1 := ChargePV(cfg, s, ModePV, inp);
      && s1.enabled && s1.pvTimer.None?
      && within - 1.0 < s1.chargeCurrent <= within
      && (cfg.ex ==> s1.chargeCurrent == within)
  {
    NotDue(cfg, s, ModePV, inp.sitePower, inp.scale);
    var (s1, pv) := PvMaxCurrent(cfg, s, ModePV, inp.sitePower, inp.scale);
    UnforcedExact(cfg, s1, pv);
    SetLimitFrame(cfg, s1, pv, false, inp.limit);
  }

  lemma NotDue(cfg: Config, s: State, mode: ChargeMode, sitePower: real, reply: ScaleReply)
    requires mode.ModeMinPV? || mode.ModePV?
    requires cfg.switchable ==> !Judge(cfg, s, Available(s, sitePower)).2
    ensures var s1 := PvPhases(cfg, s, sitePower, reply).0;
      && Untouched(s, s1) && s1.enabled == s.enabled && s1.guardUpdated == s.guardUpdated && s1.chargeCurrent == s.chargeCurrent
      && PvMaxCurrent(cfg, s, mode, sitePower, reply) == PvDecide(cfg, s1, mode, TargetCurrent(cfg, s, sitePower), sitePower)
  {
  }

  lemma UnforcedExact(cfg: Config, s: State, current: real)
    requires Sane(cfg, s.minCurrent, s.maxCurrent) && s.minCurrent <= current <= s.maxCurrent
    ensures var s1 := SetLimit(cfg, s, current, false, Reply(true, true)).0;
      && current - 1.0 < s1.chargeCurrent <= current
      && (cfg.ex || current == s.minCurrent ==> s1.chargeCurrent == current)
      && (s.enabled || GuardRemaining(cfg, s) <= 0 ==> s1.enabled)
  {
    UnforcedLimit(cfg, s, current);
    SentInRange(cfg, s, current);
    SendLimitFrame(cfg, s, current, Reply(true, true));
  }

  // ---------------------------------------------------------------- phases

  // What scalePhases answers, and when. A switch is done if the charger was off or could be switched
  // off and took the switch; then it is off and PV mode may change it at once.
  lemma ScaleExactly(cfg: Config, s: State, phases: int, pv: bool, reply: ScaleReply)
    requires s.minCurrent > 0.0
    ensures var (s1, outcome) := ScalePhases(cfg, s, phases, pv, reply);
      && (phases != 1 && phases != 3 ==> outcome == Failed && s1 == s)
      && ((phases == 1 || phases == 3) && !cfg.switchable ==> outcome == NotAvailable && s1 == s)
      && ((phases == 1 || phases == 3) && cfg.switchable && s.phases == phases ==> outcome == Done && s1 == s)
      && ((phases == 1 || phases == 3) && cfg.switchable && s.phases != phases ==>
            if (s.enabled ==> reply.limit.enableOk) && reply.phasesOk then
              outcome == Done && s1.phases == phases && !s1.enabled && s1.phaseTimer.None? && PvMayDisable(cfg, s1)
            else
              outcome == Failed && s1.phases == s.phases && s1.phaseTimer == s.phaseTimer
                && (s1.enabled <==> s.enabled && !reply.limit.enableOk))
  {
    SetLimitFrame(cfg, s, 0.0, true, reply.limit);
  }

  // Full power needs three phases if the charger can switch: one that fails to is left off, and one
  // that cannot be switched off for it is left as it was.
  lemma FullPowerExactly(cfg: Config, s: State, inp: Inputs)
    requires Sane(cfg, s.minCurrent, s.maxCurrent) && inp.limit == Reply(true, true)
    ensures var s1 := ChargeFull(cfg, s, inp);
      if !cfg.switchable || s.phases == 3 || ((s.enabled ==> inp.scale.limit.enableOk) && inp.scale.phasesOk)
      then s1.enabled && s1.maxCurrent - 1.0 < s1.chargeCurrent <= s1.maxCurrent && (cfg.switchable ==> s1.phases == 3)
      else s1.phases == s.phases && s1.chargeCurrent == s.chargeCurrent && (s1.enabled <==> s.enabled && !inp.scale.limit.enableOk)
  {
    ScaleExactly(cfg, s, 3, false, inp.scale);
    ScaleFrame(cfg, s, 3, false, inp.scale);
    OffKeepsCurrent(cfg, s, inp.scale);
    var (s1, outcome) := ScalePhases(cfg, s, 3, false, inp.scale);
    if outcome != Failed {
      ForcedLimit(cfg, s1, s1.maxCurrent);
      SetLimitFrame(cfg, s1, s1.maxCurrent, true, inp.limit);
    }
  }

  lemma OffKeepsCurrent(cfg: Config, s: State, reply: ScaleReply)
    requires s.minCurrent > 0.0
    ensures ScalePhases(cfg, s, 3, false, reply).0.chargeCurrent == s.chargeCurrent
  {
  }

  // ---------------------------------------------------------------- modes, actions and start-up

  // A change of mode lifts the guard and lets PV mode act; setting the same mode does nothing.
  lemma ModeExactly(cfg: Config, s: State, mode: ChargeMode)
    ensures var s1 := SetMode(cfg, s, mode);
      && s1.mode == mode
      && (if s.mode == mode then s1 == s else PvMayDisable(cfg, s1))
  {
  }

  // A minimum SoC that is set while a vehicle is active, and above what it has, makes a cooperating
  // charger charge it at full power; without a vehicle setting it does nothing. The like of a target
  // SoC: one that is set at or below what the vehicle has stops it.
  lemma SoCLimitsTakeEffect(cfg: Config, s: State, soc: int, inp: Inputs)
    requires Sane(cfg, s.minCurrent, s.maxCurrent) && Willing(inp) && (s.status.StatusB? || s.status.StatusC?)
    requires s.remoteDemand.RemoteEnable? && !inp.climate
    ensures s.vehicle.None? ==> SetMinSoC(s, soc) == s == SetTargetSoC(s, soc)
    ensures s.vehicle.Some? && 0 < soc && s.vehicleSoc < soc as real && s.targetSoC == 0 ==>
      var s1 := Strategy(cfg, SetMinSoC(s, soc), ModePV, inp);
      s1.enabled && s.maxCurrent - 1.0 < s1.chargeCurrent <= s.maxCurrent
    ensures s.vehicle.Some? && 0 < soc < 100 && s.vehicleSoc >= soc as real ==>
      !Strategy(cfg, SetTargetSoC(s, soc), ModeNow, inp).enabled
  {
    if s.vehicle.Some? {
      Precedence(cfg, SetMinSoC(s, soc), ModePV, inp);
      Precedence(cfg, SetTargetSoC(s, soc), ModeNow, inp);
    }
  }

  // An action sets a mode, unless none was ever set, and a target SoC, if there is a vehicle.
  predicate Acts(s: State, s1: State, action: Action, vehicle: bool) {
    && s1.mode == (if action.mode != ModeEmpty && s.mode != ModeEmpty then action.mode else s.mode)
    && s1.targetSoC == (if action.targetSoC != 0 && vehicle then action.targetSoC else s.targetSoC)
  }

  lemma ActionExactly(cfg: Config, s: State, action: Action)
    ensures var s1 := ApplyAction(cfg, s, action);
      && Acts(s, s1, action, s.vehicle.Some?)
      && (s1.mode != s.mode ==> PvMayDisable(cfg, s1))
  {
  }

  // What strategies leave alone besides
  lemma SettingsFrame(cfg: Config, s: State, mode: ChargeMode, inp: Inputs)
    ensures SameSoC(s, Strategy(cfg, s, mode, inp))
  {
    LimitSettings(cfg, s, 0.0, false, inp.limit);
    LimitSettings(cfg, s, 0.0, true, inp.limit);
    LimitSettings(cfg, s, s.minCurrent, true, inp.limit);
    ByModeSettings(cfg, s, mode, inp);
  }

  lemma ByModeSettings(cfg: Config, s: State, mode: ChargeMode, inp: Inputs)
    ensures SameSoC(s, ByMode(cfg, s, mode, inp))
  {
    if MinSocNotReached(s) || mode.ModeNow? {
      ScaleSettings(cfg, s, 3, false, inp.scale);
      var s1 := ScalePhases(cfg, s, 3, false, inp.scale).0;
      LimitSettings(cfg, s1, s1.maxCurrent, true, inp.limit);
    } else if mode.ModeMinPV? || mode.ModePV? {
      PvSettings(cfg, s, mode, inp);
    }
  }

  predicate SameSoC(s: State, s1: State) {
    s1.targetSoC == s.targetSoC && s1.minSoC == s.minSoC && s1.vehicleSoc == s.vehicleSoc
  }

  lemma LimitSettings(cfg: Config, s: State, current: real, force: bool, reply: Reply)
    ensures SameSoC(s, SetLimit(cfg, s, current, force, reply).0)
  {
    SetLimitFrame(cfg, s, current, force, reply);
  }

  lemma ScaleSettings(cfg: Config, s: State, phases: int, pv: bool, reply: ScaleReply)
    ensures SameSoC(s, ScalePhases(cfg, s, phases, pv, reply).0)
  {
    LimitSettings(cfg, s, 0.0, true, reply.limit);
  }

  lemma PhaseSettings(cfg: Config, s: State, sitePower: real, reply: ScaleReply)
    ensures SameSoC(s, PvPhases(cfg, s, sitePower, reply).0)
  {
    var (s1, wish, due) := Judge(cfg, s, Available(s, sitePower));
    ScaleSettings(cfg, s1, if wish.Down? then 1 else 3, true, reply);
  }

  lemma PvSettings(cfg: Config, s: State, mode: ChargeMode, inp: Inputs)
    requires mode.ModeMinPV? || mode.ModePV?
    ensures SameSoC(s, ChargePV(cfg, s, mode, inp))
  {
    PhaseSettings(cfg, s, inp.sitePower, inp.scale);
    var (s1, pv) := PvMaxCurrent(cfg, s, mode, inp.sitePower, inp.scale);
    var climate := pv == 0.0 && s1.vehicle.Some? && inp.climate;
    var soft := s1.remoteDemand.RemoteSoftDisable?;
    LimitSettings(cfg, s1, if soft then 0.0 else if climate || inp.cheap then s1.maxCurrent else pv,
                  climate || inp.cheap || soft, inp.limit);
  }

  // Unplugging runs the disconnect action. With several vehicles its target SoC is never set, since
  // the vehicle is let go before.
  lemma UnpluggingActs(cfg: Config, s: State, inp: Inputs)
    requires s.status != StatusA && inp.status == Some(StatusA)
    ensures Acts(s, Update(cfg, s, inp), cfg.onDisconnect, s.vehicle.Some? && |cfg.vehicles| <= 1)
  {
    var m := ReadMeters(cfg, s, inp);
    MetersSettings(cfg, s, inp);
    UnpluggedActs(cfg, m);
    StatusFrame(cfg, m, StatusA);
    DisconnectedKeeps(cfg, UpdateChargerStatus(cfg, m, StatusA), s.mode, inp);
  }

  lemma DisconnectedKeeps(cfg: Config, s: State, mode: ChargeMode, inp: Inputs)
    requires s.status == StatusA
    ensures var s1 := Strategy(cfg, SyncCharger(UpdateVehicle(cfg, s, inp), inp.enabled, inp.syncOk), mode, inp);
      s1.mode == s.mode && s1.targetSoC == s.targetSoC
  {
    var s1 := SyncCharger(UpdateVehicle(cfg, s, inp), inp.enabled, inp.syncOk);
    SettingsFrame(cfg, s1, mode, inp);
    StrategyFrame(cfg, s1, mode, inp);
  }

  lemma MetersSettings(cfg: Config, s: State, inp: Inputs)
    ensures var s1 := ReadMeters(cfg, s, inp);
      SameSoC(s, s1) && s1.mode == s.mode && s1.vehicle == s.vehicle && s1.status == s.status
  {
  }

  lemma UnpluggedActs(cfg: Config, s: State)
    requires s.status != StatusA
    ensures Acts(s, UpdateChargerStatus(cfg, s, StatusA), cfg.onDisconnect, s.vehicle.Some? && |cfg.vehicles| <= 1)
  {
    var s1 := Cycling(cfg, Arriving(cfg, ShowStatus(s, StatusA), s.status), s.status);
    assert s1.mode == s.mode && s1.targetSoC == s.targetSoC && s1.vehicle == s.vehicle;
    var s2 := Log(s1, Bus(Disconnect));
    ActionExactly(cfg, if |cfg.vehicles| > 1 then SeeVehicle(s2, None) else s2, cfg.onDisconnect);
  }

  // A new identity that is not empty runs its action, whether or not a vehicle has it.
  lemma IdentityActs(cfg: Config, s: State, inp: Inputs)
    requires inp.identity.Some? && inp.identity.value != s.vehicleID
    requires inp.identity.value != "" && inp.identity.value in cfg.onIdentify
    ensures Acts(s, IdentifyByCharger(cfg, s, inp), cfg.onIdentify[inp.identity.value], s.vehicle.Some? || inp.known.Some?)
  {
    var noted := NoteID(s, inp.identity.value);
    ActionExactly(cfg, if inp.known.Some? then SeeVehicle(noted, inp.known) else noted, cfg.onIdentify[inp.identity.value]);
  }

  // Plugging in lifts the guard and lets PV mode act, and the search for the vehicle begins.
  lemma PluggingInElapses(cfg: Config, s: State, status: ChargeStatus)
    requires s.status == StatusA && status != StatusA
    ensures var s1 := UpdateChargerStatus(cfg, s, status);
      && PvMayDisable(cfg, s1)
      && s1.vehicleConnected == Some(s.now)
  {
  }

  // With several vehicles one is sought by status for less than ten minutes after plugging in.
  lemma SearchExactly(cfg: Config, s: State, inp: Inputs)
    requires inp.pick.Some? && inp.pick != s.vehicle
    ensures VehicleByStatus(cfg, s, inp) == inp.pick <==>
      |cfg.vehicles| > 1 && s.vehicleConnected.Some? && s.now - s.vehicleConnected.value < 600_000_000_000
  {
  }

  // Polling takes over the SoC of the active vehicle, cut to whole percents.
  lemma PollExactly(cfg: Config, s: State, inp: Inputs)
    requires inp.status.Some?
    ensures var s1 := Update(cfg, s, inp);
      if s1.vehicle.Some? && inp.soc.Some? then
        (inp.soc.value >= 0.0 ==> s1.vehicleSoc == inp.soc.value.Floor as real)
      else s1.vehicleSoc == s.vehicleSoc
  {
    var m := ReadMeters(cfg, s, inp);
    MetersSettings(cfg, s, inp);
    var s1 := UpdateChargerStatus(cfg, m, inp.status.value);
    StatusKeepsSoC(cfg, m, inp.status.value);
    IdentifyKeepsSoC(cfg, s1, inp);
    var s2 := SyncCharger(UpdateVehicle(cfg, s1, inp), inp.enabled, inp.syncOk);
    SettingsFrame(cfg, s2, s.mode, inp);
    StrategyFrame(cfg, s2, s.mode, inp);
  }

  lemma StatusKeepsSoC(cfg: Config, s: State, status: ChargeStatus)
    ensures UpdateChargerStatus(cfg, s, status).vehicleSoc == s.vehicleSoc
  {
    if status != s.status {
      var s1 := Cycling(cfg, Arriving(cfg, ShowStatus(s, status), s.status), s.status);
      var s2 := Log(s1, Bus(Disconnect));
      ApplyActionFrame(cfg, SeeVehicle(s2, None), cfg.onDisconnect);
      ApplyActionFrame(cfg, s2, cfg.onDisconnect);
    }
  }

  lemma IdentifyKeepsSoC(cfg: Config, s: State, inp: Inputs)
    ensures Identify(cfg, s, inp).vehicleSoc == s.vehicleSoc
  {
    if Connected(s) && inp.identity.Some? && inp.identity.value in cfg.onIdentify {
      var noted := NoteID(s, inp.identity.value);
      var seen := if inp.known.Some? then SeeVehicle(noted, inp.known) else noted;
      ApplyActionFrame(cfg, seen, cfg.onIdentify[inp.identity.value]);
    }
  }

  // The mode at the beginning of an update governs it: one that an action sets meanwhile has to wait.
  // So in mode Off a connected charger ends off, unless the target SoC is reached and it is climatised.
  lemma OldModeGoverns(cfg: Config, s: State, inp: Inputs)
    requires s.mode == ModeOff && Sane(cfg, s.minCurrent, s.maxCurrent) && Willing(inp)
    requires inp.status == Some(StatusB) || inp.status == Some(StatusC)
    ensures var s1 := Update(cfg, s, inp);
      s1.enabled ==>
        inp.climate && s1.vehicle.Some? && 0 < s1.targetSoC < 100 && s1.vehicleSoc >= s1.targetSoC as real
  {
    MetersFrame(cfg, s, inp);
    MetersLimits(cfg, s, inp);
    var s1 := UpdateChargerStatus(cfg, ReadMeters(cfg, s, inp), inp.status.value);
    StatusFrame(cfg, ReadMeters(cfg, s, inp), inp.status.value);
    StatusLimits(cfg, ReadMeters(cfg, s, inp), inp.status.value);
    ChargerFrame(cfg, s1, inp);
    IdentifyLimits(cfg, s1, inp);
    var s2 := SyncCharger(UpdateVehicle(cfg, s1, inp), inp.enabled, inp.syncOk);
    Precedence(cfg, s2, ModeOff, inp);
    SettingsFrame(cfg, s2, ModeOff, inp);
    StrategyFrame(cfg, s2, ModeOff, inp);
  }

  predicate SameLimits(s: State, s1: State) {
    s1.minCurrent == s.minCurrent && s1.maxCurrent == s.maxCurrent
  }

  lemma MetersLimits(cfg: Config, s: State, inp: Inputs)
    ensures SameLimits(s, ReadMeters(cfg, s, inp))
  {
  }

  lemma StatusLimits(cfg: Config, s: State, status: ChargeStatus)
    ensures SameLimits(s, UpdateChargerStatus(cfg, s, status))
  {
    if status != s.status {
      var s1 := Cycling(cfg, Arriving(cfg, ShowStatus(s, status), s.status), s.status);
      var s2 := Log(s1, Bus(Disconnect));
      ApplyActionFrame(cfg, SeeVehicle(s2, None), cfg.onDisconnect);
      ApplyActionFrame(cfg, s2, cfg.onDisconnect);
    }
  }

  lemma IdentifyLimits(cfg: Config, s: State, inp: Inputs)
    ensures SameLimits(s, Identify(cfg, s, inp))
  {
    if Connected(s) && inp.identity.Some? && inp.identity.value in cfg.onIdentify {
      var noted := NoteID(s, inp.identity.value);
      var seen := if inp.known.Some? then SeeVehicle(noted, inp.known) else noted;
      ApplyActionFrame(cfg, seen, cfg.onIdentify[inp.identity.value]);
    }
  }

  // Start-up assumes all configured phases active and takes over what the charger reports. A charger
  // that is on is sent the minimum current and rests for the guard time.
  lemma StartExactly(cfg: Config, s: State, enabled: Option<bool>)
    requires Fresh(cfg, s) && Sane(cfg, s.minCurrent, s.maxCurrent)
    ensures var s1 := Prepare(cfg, s, enabled, Reply(true, true));
      && s1.activePhases == cfg.phases
      && (s1.enabled <==> enabled == Some(true))
      && (enabled == Some(true) ==> s1.chargeCurrent == s.minCurrent && s1.guardUpdated == Some(s.now))
      && (enabled != Some(true) ==> s1.chargeCurrent == 0.0 && s1.guardUpdated.None?)
      && s1.vehicle == (if |cfg.vehicles| == 1 then Some(cfg.vehicles[0]) else None)
      && s1.vehicleConnected == (if |cfg.vehicles| > 1 then Some(s.now) else None)
  {
    if enabled == Some(true) {
      var s1 := Adopt(AssumeAllPhases(cfg, s), true);
      SentInRange(cfg, s1, s.minCurrent);
      SetLimitFrame(cfg, s1, s.minCurrent, false, Reply(true, true));
      SendLimitFrame(cfg, s1, s.minCurrent, Reply(true, true));
    }
  }
}

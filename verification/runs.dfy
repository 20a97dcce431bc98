// Runs of a loadpoint: start-up, then any interleaving of updates and API calls at any times.
module Runs {
  import opened Base
  import opened Api
  import opened History
  import opened Control
  import opened Events

  datatype Call =
    | DoUpdate(inp: Inputs)
    | DoSetMode(mode: ChargeMode)
    | DoSetPhases(phases: int, reply: ScaleReply)
    | DoRemoteControl(demand: RemoteDemand)
    | DoSetMinCurrent(current: real)
    | DoSetMaxCurrent(current: real)
    | DoSetTargetSoC(soc: int)
    | DoSetMinSoC(soc: int)

  // A call and the time that passes before it.
  datatype Step = Step(wait: nat, call: Call)

  function Apply(cfg: Config, s: State, call: Call): State {
    match call
    case DoUpdate(inp) => Update(cfg, s, inp)
    case DoSetMode(mode) => SetMode(cfg, s, mode)
    case DoSetPhases(phases, reply) => ScalePhases(cfg, s, phases, false, reply).0
    case DoRemoteControl(demand) => s.(remoteDemand := demand)
    case DoSetMinCurrent(current) => s.(minCurrent := current)
    case DoSetMaxCurrent(current) => s.(maxCurrent := current)
    case DoSetTargetSoC(soc) => SetTargetSoC(s, soc)
    case DoSetMinSoC(soc) => SetMinSoC(s, soc)
  }

  function Wait(s: State, d: nat): State { s.(now := s.now + d) }

  function StepOnce(cfg: Config, s: State, step: Step): State {
    Apply(cfg, Wait(s, step.wait), step.call)
  }

  function Run(cfg: Config, s: State, steps: seq<Step>): State {
    if steps == [] then s
    else StepOnce(cfg, Run(cfg, s, steps[..|steps| - 1]), steps[|steps| - 1])
  }

  // A loadpoint as NewLoadPointFromConfig leaves it: settings are free, control state is not.
  predicate Fresh(cfg: Config, s: State) {
    && s.phases == cfg.phases
    && !s.enabled
    && s.chargeCurrent == 0.0
    && s.guardUpdated.None?
    && s.pvTimer.None?
    && s.phaseTimer.None?
    && s.status.StatusNone?
    && s.meterPower == 0.0
    && s.vehicle.None?
    && s.vehicleID == ""
    && s.vehicleConnected.None?
    && s.history.Empty?
  }

  // What ties a loadpoint's variables to its history: what was acknowledged, and the timers
  predicate Faithful(cfg: Config, s: State) {
    (s.history.Then? ==> s.history.at <= s.now) && AcksHeld(cfg, s) && TimersHeld(cfg, s)
  }

  predicate AcksHeld(cfg: Config, s: State) {
    && s.chargeCurrent == (if AckedLimit(s.history).Some? then AckedLimit(s.history).value else 0.0)
    && s.enabled == (AckedState(s.history) == Some(true))
    && s.phases == AckedPhases(cfg, s.history)
    && CommandHeld(s)
  }

  // A refused disable of setLimit leaves the loadpoint enabled; a repeated command is its own state.
  predicate CommandHeld(s: State) {
    match LastCommand(s.history)
    case None => true
    case Some(e) =>
      && (e.SyncSent? ==> e.on == s.enabled)
      && (e.EnableSent? && !e.on && !e.ok ==> s.enabled)
  }

  predicate TimersHeld(cfg: Config, s: State) {
    && s.guardUpdated == GuardSince(cfg, s.history)
    && s.pvTimer == PvSince(cfg, s.history)
    && WishTimer(cfg, s)
  }

  predicate WishTimer(cfg: Config, s: State) {
    match Wanted(cfg, s.history)
    case None => s.phaseTimer == None
    case Some((since, wish)) =>
      s.phaseTimer == Some(since) && wish == (if s.phases == 3 then Down else Up)
  }

  predicate StatusKnown(s: State) {
    && (s.status.StatusC? <==> Charging(s.history))
    && (s.status.StatusA? <==> Unplugged(s.history))
  }

  // The replacement charge meter shows what the control state implies.
  predicate MeterAgrees(cfg: Config, s: State) {
    cfg.wrapped ==> s.meterPower == MeterReading(cfg, s, s.chargeCurrent)
  }

  // All but the status-related part of the invariant, which updateChargerStatus suspends.
  predicate Core(cfg: Config, s: State) {
    Lawful(cfg, s.history) && Faithful(cfg, s)
  }

  predicate Inv(cfg: Config, s: State) {
    s.minCurrent > 0.0 && Core(cfg, s) && StatusKnown(s) && MeterAgrees(cfg, s)
  }

  // Nothing was published on the bus about the vehicle, and the status is as it was.
  predicate Quiet(s: State, s1: State) {
    s1.now == s.now && s1.status == s.status && BusTrace(s1.history) == BusTrace(s.history)
  }

  // The bus carried exactly the events of this change of status.
  predicate Announced(s: State, s1: State, status: ChargeStatus) {
    && s1.now == s.now
    && s1.status == status
    && BusTrace(s1.history) == BusTrace(s.history) + Stamped(s.now, Transition(s.status, status))
  }

  // With the replacement meter the loadpoint never comes to believe in more active phases.
  predicate NoNewPhases(cfg: Config, s: State, s1: State) {
    cfg.wrapped ==> s1.activePhases <= s.activePhases
  }

  predicate Keeps(cfg: Config, s: State, s1: State) {
    Inv(cfg, s1) && Quiet(s, s1) && NoNewPhases(cfg, s, s1)
  }

  // ---------------------------------------------------------------- each method keeps it

  // A current that the strategies pass to setLimit: off, or within the configured limits.
  predicate Admissible(s: State, current: real) {
    s.minCurrent <= s.maxCurrent ==> current == 0.0 || s.minCurrent <= current <= s.maxCurrent
  }

  // Truncating stays above a whole lower limit.
  lemma TruncBounds(lo: real, x: real)
    requires 0.0 < lo <= x && Trunc(lo) == lo
    ensures lo <= Trunc(x) <= x
  {
    assert lo.Floor <= x.Floor;
  }

  lemma SentInRange(cfg: Config, s: State, current: real)
    requires Admissible(s, current) && Sane(cfg, s.minCurrent, s.maxCurrent) && current >= s.minCurrent
    ensures s.minCurrent <= AsSent(cfg, current) <= s.maxCurrent
  {
    if !cfg.ex { TruncBounds(s.minCurrent, current); }
  }

  // Neither an event of another kind nor the replacement meter bears on a variable.
  predicate SameStatus(s: State, s1: State) {
    && s1.now == s.now && s1.status == s.status
    && BusTrace(s1.history) == BusTrace(s.history)
    && Charging(s1.history) == Charging(s.history)
    && Unplugged(s1.history) == Unplugged(s.history)
  }

  // What a current limit sent, acknowledged or not, makes of the state but for the meter
  function Limited(s: State, e: Event): State
    requires e.LimitSent?
  {
    if e.ok then Log(s, e).(chargeCurrent := e.current) else Log(s, e)
  }

  lemma LimitedAcks(cfg: Config, s: State, e: Event)
    requires e.LimitSent? && AcksHeld(cfg, s)
    ensures AcksHeld(cfg, Limited(s, e))
  {
  }

  lemma LimitedTimers(cfg: Config, s: State, e: Event)
    requires e.LimitSent? && TimersHeld(cfg, s)
    ensures TimersHeld(cfg, Limited(s, e))
  {
  }

  lemma LimitedKeepsCore(cfg: Config, s: State, e: Event)
    requires Core(cfg, s) && e.LimitSent? && Law(cfg, s.history, s.now, e)
    ensures Core(cfg, Limited(s, e))
  {
    LimitedAcks(cfg, s, e);
    LimitedTimers(cfg, s, e);
  }

  lemma LimitedSameStatus(s: State, e: Event)
    requires e.LimitSent?
    ensures SameStatus(s, Limited(s, e))
  {
  }

  function Shown(s: State, power: real): State { s.(meterPower := power) }

  lemma ShownKeepsCore(cfg: Config, s: State, power: real)
    requires Core(cfg, s)
    ensures Core(cfg, Shown(s, power))
  {
  }

  lemma PublishShows(cfg: Config, s: State, current: real)
    ensures PublishCurrent(cfg, s, current) == s || PublishCurrent(cfg, s, current) == Shown(s, MeterReading(cfg, s, current))
  {
  }

  lemma SendLimitKeepsCore(cfg: Config, s: State, current: real, reply: Reply)
    requires Core(cfg, s) && Admissible(s, current)
    ensures Core(cfg, SendLimit(cfg, s, current, reply).0) && SameStatus(s, SendLimit(cfg, s, current, reply).0)
  {
    if current != s.chargeCurrent && current >= s.minCurrent {
      if Sane(cfg, s.minCurrent, s.maxCurrent) { SentInRange(cfg, s, current); }
      var sent := AsSent(cfg, current);
      var e := LimitSent(sent, s.minCurrent, s.maxCurrent, reply.limitOk);
      LimitedKeepsCore(cfg, s, e);
      LimitedSameStatus(s, e);
      PublishShows(cfg, Limited(s, e), sent);
      ShownKeepsCore(cfg, Limited(s, e), MeterReading(cfg, Limited(s, e), sent));
    }
  }

  lemma SendLimitCurrent(cfg: Config, s: State, current: real, reply: Reply)
    requires Admissible(s, current)
    ensures var r := SendLimit(cfg, s, current, reply);
      && (r.2 ==> r.1 < s.minCurrent || r.1 == r.0.chargeCurrent)
      && (Sane(cfg, s.minCurrent, s.maxCurrent) ==> r.1 == 0.0 || s.minCurrent <= r.1 <= s.maxCurrent)
  {
    if Sane(cfg, s.minCurrent, s.maxCurrent) && current >= s.minCurrent { SentInRange(cfg, s, current); }
  }

  lemma SendLimitMeter(cfg: Config, s: State, current: real, reply: Reply)
    requires MeterAgrees(cfg, s)
    ensures MeterAgrees(cfg, SendLimit(cfg, s, current, reply).0)
  {
  }

  lemma SendLimitKeeps(cfg: Config, s: State, current: real, reply: Reply)
    requires Inv(cfg, s) && Admissible(s, current)
    ensures Keeps(cfg, s, SendLimit(cfg, s, current, reply).0)
  {
    SendLimitKeepsCore(cfg, s, current, reply);
    SendLimitMeter(cfg, s, current, reply);
  }

  lemma GuardRests(cfg: Config, s: State)
    requires s.guardUpdated.Some? && GuardRemaining(cfg, s) <= 0
    ensures s.now - s.guardUpdated.value > cfg.guard - SECOND
  {
  }

  lemma EnableIsLawful(cfg: Config, s: State, current: real, force: bool, ok: bool)
    requires Core(cfg, s) && (current >= s.minCurrent) != s.enabled && (GuardRemaining(cfg, s) <= 0 || force)
    requires current >= s.minCurrent ==> current == s.chargeCurrent
    requires Sane(cfg, s.minCurrent, s.maxCurrent) ==> current == 0.0 || s.minCurrent <= current <= s.maxCurrent
    ensures EnableLaw(cfg, s.history, s.now, EnableSent(current >= s.minCurrent, force, s.minCurrent, s.maxCurrent, ok))
  {
    if s.guardUpdated.Some? && GuardRemaining(cfg, s) <= 0 { GuardRests(cfg, s); }
  }

  // What the charger was told, and that it took it
  function Told(s: State, e: Event): State
    requires e.EnableSent?
  {
    if e.ok then Log(s, e).(enabled := e.on, guardUpdated := Some(s.now)) else Log(s, e)
  }

  lemma ToldAcks(cfg: Config, s: State, e: Event)
    requires e.EnableSent? && e.on != s.enabled && AcksHeld(cfg, s)
    ensures AcksHeld(cfg, Told(s, e))
  {
  }

  lemma ToldTimers(cfg: Config, s: State, e: Event)
    requires e.EnableSent? && TimersHeld(cfg, s)
    ensures TimersHeld(cfg, Told(s, e))
  {
  }

  lemma ToldKeepsCore(cfg: Config, s: State, e: Event)
    requires Core(cfg, s) && e.EnableSent? && EnableLaw(cfg, s.history, s.now, e)
    ensures Core(cfg, Told(s, e))
  {
    ToldAcks(cfg, s, e);
    ToldTimers(cfg, s, e);
  }

  lemma ToldSameStatus(s: State, e: Event)
    requires e.EnableSent?
    ensures SameStatus(s, Told(s, e))
  {
  }

  lemma SendEnableKeepsCore(cfg: Config, s: State, current: real, force: bool, ok: bool)
    requires Core(cfg, s)
    requires current >= s.minCurrent ==> current == s.chargeCurrent
    requires Sane(cfg, s.minCurrent, s.maxCurrent) ==> current == 0.0 || s.minCurrent <= current <= s.maxCurrent
    ensures Core(cfg, SendEnable(cfg, s, current, force, ok).0) && SameStatus(s, SendEnable(cfg, s, current, force, ok).0)
  {
    var on := current >= s.minCurrent;
    if on != s.enabled && (GuardRemaining(cfg, s) <= 0 || force) {
      var e := EnableSent(on, force, s.minCurrent, s.maxCurrent, ok);
      EnableIsLawful(cfg, s, current, force, ok);
      ToldKeepsCore(cfg, s, e);
      ToldSameStatus(s, e);
      PublishShows(cfg, Told(s, e), current);
      ShownKeepsCore(cfg, Told(s, e), MeterReading(cfg, Told(s, e), current));
    }
  }

  lemma SendEnableMeter(cfg: Config, s: State, current: real, force: bool, ok: bool)
    requires MeterAgrees(cfg, s)
    requires current >= s.minCurrent ==> current == s.chargeCurrent
    ensures MeterAgrees(cfg, SendEnable(cfg, s, current, force, ok).0)
  {
  }

  lemma SetLimitKeeps(cfg: Config, s: State, current: real, force: bool, reply: Reply)
    requires Inv(cfg, s) && Admissible(s, current)
    ensures Keeps(cfg, s, SetLimit(cfg, s, current, force, reply).0)
  {
    SendLimitKeeps(cfg, s, current, reply);
    SendLimitCurrent(cfg, s, current, reply);
    var (s1, sent, ok) := SendLimit(cfg, s, current, reply);
    if ok { SendEnableKeeps(cfg, s1, sent, force, reply.enableOk); }
  }

  lemma SendEnableKeeps(cfg: Config, s: State, current: real, force: bool, ok: bool)
    requires Inv(cfg, s)
    requires current >= s.minCurrent ==> current == s.chargeCurrent
    requires Sane(cfg, s.minCurrent, s.maxCurrent) ==> current == 0.0 || s.minCurrent <= current <= s.maxCurrent
    ensures Keeps(cfg, s, SendEnable(cfg, s, current, force, ok).0)
  {
    SendEnableKeepsCore(cfg, s, current, force, ok);
    SendEnableMeter(cfg, s, current, force, ok);
    SendEnableFrame(cfg, s, current, force, ok);
  }

  // A forced setLimit(0) without error leaves the charger off and the disable acknowledged.
  lemma ForcedOff(cfg: Config, s: State, reply: Reply)
    requires Inv(cfg, s)
    ensures var (s1, ok) := SetLimit(cfg, s, 0.0, true, reply);
      && (ok ==> !s1.enabled)
      && (!s.enabled ==> ok)
      && LastJudged(s1.history) == LastJudged(s.history)
      && (if s.enabled then ok ==> !DisablePending(s1.history) else s1 == s)
  {
  }

  lemma WaitKeeps(cfg: Config, s: State, d: nat)
    requires Inv(cfg, s)
    ensures Inv(cfg, Wait(s, d))
  {
  }

  // The invariant does not depend on what the vehicle reports or the limits and demands an API
  // call sets.
  lemma Irrelevant(cfg: Config, s: State, s1: State)
    requires Inv(cfg, s) && s1.minCurrent > 0.0
    requires s1 == s.(vehicle := s1.vehicle, vehicleID := s1.vehicleID, vehicleConnected := s1.vehicleConnected,
                      vehicleSoc := s1.vehicleSoc, targetSoC := s1.targetSoC,
                      minSoC := s1.minSoC, remoteDemand := s1.remoteDemand, minCurrent := s1.minCurrent,
                      maxCurrent := s1.maxCurrent)
    ensures Keeps(cfg, s, s1)
  {
  }

  lemma SendLimitFrame(cfg: Config, s: State, current: real, reply: Reply)
    ensures var s1 := SendLimit(cfg, s, current, reply).0;
      s1 == s.(chargeCurrent := s1.chargeCurrent, meterPower := s1.meterPower, history := s1.history)
  {
  }

  lemma SendEnableFrame(cfg: Config, s: State, current: real, force: bool, ok: bool)
    ensures var s1 := SendEnable(cfg, s, current, force, ok).0;
      s1 == s.(enabled := s1.enabled, guardUpdated := s1.guardUpdated, meterPower := s1.meterPower,
               history := s1.history)
  {
  }

  // setLimit touches nothing but the charger's state.
  lemma SetLimitFrame(cfg: Config, s: State, current: real, force: bool, reply: Reply)
    ensures var s1 := SetLimit(cfg, s, current, force, reply).0;
      s1 == s.(enabled := s1.enabled, chargeCurrent := s1.chargeCurrent, guardUpdated := s1.guardUpdated,
               meterPower := s1.meterPower, history := s1.history)
  {
    SendLimitFrame(cfg, s, current, reply);
    var (s1, sent, ok) := SendLimit(cfg, s, current, reply);
    if ok { SendEnableFrame(cfg, s1, sent, force, reply.enableOk); }
  }

  lemma ElapseKeepsCore(cfg: Config, s: State)
    requires Core(cfg, s)
    ensures Core(cfg, ElapsePVTimer(cfg, s)) && SameStatus(s, ElapsePVTimer(cfg, s))
  {
  }

  lemma ElapseKeeps(cfg: Config, s: State)
    requires Inv(cfg, s)
    ensures Keeps(cfg, s, ElapsePVTimer(cfg, s))
  {
  }

  lemma ThreeStates(a: Option<bool>)
    ensures a == None || a == Some(true) || a == Some(false)
  {
    if a.Some? {
      assert a == Some(a.value);
      assert if a.value then a == Some(true) else a == Some(false);
    }
  }

  // A disabled loadpoint has a disable pending only if syncCharger's was refused.
  lemma OnlySyncPends(cfg: Config, s: State)
    requires AcksHeld(cfg, s)
    ensures SyncRefused(s.history) ==> !s.enabled && DisablePending(s.history)
    ensures DisablePending(s.history) && !s.enabled ==> SyncRefused(s.history)
  {
  }

  lemma SwitchKeeps(cfg: Config, s: State, e: Event)
    requires Inv(cfg, s) && e.PhasesSent? && Law(cfg, s.history, s.now, e)
    ensures Keeps(cfg, s, Switched(s, e))
  {
  }

  lemma SwitchIsLawful(cfg: Config, s: State, phases: PhaseSetting, pv: bool, ok: bool)
    requires Inv(cfg, s) && s.phases != phases && !s.enabled
    requires pv ==> SwitchDue(cfg, s.history, s.now, phases)
    ensures Law(cfg, s.history, s.now, PhasesSent(phases, pv, ok))
  {
    OnlySyncPends(cfg, s);
  }

  lemma SwitchPhasesKeeps(cfg: Config, s: State, phases: PhaseSetting, pv: bool, ok: bool)
    requires Inv(cfg, s) && Law(cfg, s.history, s.now, PhasesSent(phases, pv, ok))
    ensures Keeps(cfg, s, SwitchPhases(cfg, s, phases, pv, ok).0)
  {
    var e := PhasesSent(phases, pv, ok);
    SwitchKeeps(cfg, s, e);
    if ok { ElapseKeeps(cfg, Switched(s, e)); }
  }

  lemma ScalePhasesKeeps(cfg: Config, s: State, phases: int, pv: bool, reply: ScaleReply)
    requires Inv(cfg, s) && (pv ==> SwitchDue(cfg, s.history, s.now, phases))
    ensures Keeps(cfg, s, ScalePhases(cfg, s, phases, pv, reply).0)
  {
    if (phases == 1 || phases == 3) && cfg.switchable && s.phases != phases {
      SetLimitKeeps(cfg, s, 0.0, true, reply.limit);
      ForcedOff(cfg, s, reply.limit);
      SetLimitFrame(cfg, s, 0.0, true, reply.limit);
      var (s1, ok) := SetLimit(cfg, s, 0.0, true, reply.limit);
      if ok {
        SwitchIsLawful(cfg, s1, phases, pv, reply.phasesOk);
        SwitchPhasesKeeps(cfg, s1, phases, pv, reply.phasesOk);
      }
    }
  }

  // What a completed phase switch leaves behind.
  lemma ScaledOff(cfg: Config, s: State, phases: int, pv: bool, reply: ScaleReply)
    requires Inv(cfg, s) && s.phases != phases
    ensures var (s1, outcome) := ScalePhases(cfg, s, phases, pv, reply);
      outcome == Done ==> s1.phases == phases && !s1.enabled
  {
    ForcedOff(cfg, s, reply.limit);
  }

  // Weighing the power starts, keeps or clears the phase timer as the history tells.
  lemma JudgeKeeps(cfg: Config, s: State, power: real)
    requires Inv(cfg, s)
    ensures var (s1, wish, due) := Judge(cfg, s, power);
      && Keeps(cfg, s, s1)
      && (due ==> !wish.Stay? && s1.phases == (if wish.Down? then 3 else 1))
      && (due ==> SwitchDue(cfg, s1.history, s1.now, if wish.Down? then 1 else 3))
      && s1.minCurrent == s.minCurrent && s1.maxCurrent == s.maxCurrent
  {
  }

  lemma AssumeOnePhaseKeeps(cfg: Config, s: State)
    requires Inv(cfg, s) && !s.enabled
    ensures Keeps(cfg, s, AssumeOnePhase(s))
  {
  }

  lemma PvScalePhasesKeeps(cfg: Config, s: State, power: real, reply: ScaleReply)
    requires Inv(cfg, s)
    ensures var (s1, switched) := PvScalePhases(cfg, s, power, reply);
      && Keeps(cfg, s, s1)
      && (switched ==> !s1.enabled)
      && s1.minCurrent == s.minCurrent && s1.maxCurrent == s.maxCurrent
  {
    JudgeKeeps(cfg, s, power);
    var (s1, wish, due) := Judge(cfg, s, power);
    if due {
      var phases := if wish.Down? then 1 else 3;
      ScalePhasesKeeps(cfg, s1, phases, true, reply);
      ScaledOff(cfg, s1, phases, true, reply);
      ScaleFrame(cfg, s1, phases, true, reply);
      var (s2, outcome) := ScalePhases(cfg, s1, phases, true, reply);
      if outcome == Done && wish.Down? { AssumeOnePhaseKeeps(cfg, s2); }
    }
  }

  // What controlling the charger leaves alone: the settings, the vehicle and the status
  predicate Untouched(s: State, s1: State) {
    && s1.now == s.now && s1.mode == s.mode && s1.status == s.status
    && s1.minCurrent == s.minCurrent && s1.maxCurrent == s.maxCurrent && s1.remoteDemand == s.remoteDemand
    && s1.vehicle == s.vehicle && s1.vehicleID == s.vehicleID && s1.vehicleConnected == s.vehicleConnected
  }

  lemma ScaleFrame(cfg: Config, s: State, phases: int, pv: bool, reply: ScaleReply)
    ensures Untouched(s, ScalePhases(cfg, s, phases, pv, reply).0)
  {
    SetLimitFrame(cfg, s, 0.0, true, reply.limit);
  }

  lemma PvScaleFrame(cfg: Config, s: State, power: real, reply: ScaleReply)
    ensures Untouched(s, PvScalePhases(cfg, s, power, reply).0)
  {
    var (s1, wish, due) := Judge(cfg, s, power);
    ScaleFrame(cfg, s1, if wish.Down? then 1 else 3, true, reply);
  }

  lemma PvPhasesFrame(cfg: Config, s: State, sitePower: real, reply: ScaleReply)
    ensures Untouched(s, PvPhases(cfg, s, sitePower, reply).0)
  {
    PvScaleFrame(cfg, s, Available(s, sitePower), reply);
  }

  lemma PvDecideFrame(cfg: Config, s: State, mode: ChargeMode, target: real, sitePower: real)
    requires mode.ModeMinPV? || mode.ModePV?
    ensures var (s1, result) := PvDecide(cfg, s, mode, target, sitePower);
      && Untouched(s, s1)
      && (0.0 < s.minCurrent <= s.maxCurrent ==> result == 0.0 || s.minCurrent <= result <= s.maxCurrent)
  {
  }

  lemma PvFrame(cfg: Config, s: State, mode: ChargeMode, sitePower: real, reply: ScaleReply)
    requires mode.ModeMinPV? || mode.ModePV?
    ensures var (s1, result) := PvMaxCurrent(cfg, s, mode, sitePower, reply);
      && Untouched(s, s1)
      && (0.0 < s.minCurrent <= s.maxCurrent ==> result == 0.0 || s.minCurrent <= result <= s.maxCurrent)
  {
    PvPhasesFrame(cfg, s, sitePower, reply);
    PvDecideFrame(cfg, PvPhases(cfg, s, sitePower, reply).0, mode, TargetCurrent(cfg, s, sitePower), sitePower);
  }

  lemma PvDecideKeeps(cfg: Config, s: State, mode: ChargeMode, target: real, sitePower: real)
    requires Inv(cfg, s) && (mode.ModeMinPV? || mode.ModePV?)
    ensures var (s1, result) := PvDecide(cfg, s, mode, target, sitePower);
      && Keeps(cfg, s, s1)
      && Admissible(s1, result)
  {
  }

  lemma PvPhasesKeeps(cfg: Config, s: State, sitePower: real, reply: ScaleReply)
    requires Inv(cfg, s)
    ensures Keeps(cfg, s, PvPhases(cfg, s, sitePower, reply).0)
  {
    PvScalePhasesKeeps(cfg, s, Available(s, sitePower), reply);
  }

  lemma PvMaxCurrentKeeps(cfg: Config, s: State, mode: ChargeMode, sitePower: real, reply: ScaleReply)
    requires Inv(cfg, s) && (mode.ModeMinPV? || mode.ModePV?)
    ensures var (s1, result) := PvMaxCurrent(cfg, s, mode, sitePower, reply);
      && Keeps(cfg, s, s1)
      && Admissible(s1, result)
  {
    PvPhasesKeeps(cfg, s, sitePower, reply);
    var (s1, switched) := PvPhases(cfg, s, sitePower, reply);
    if !switched { PvDecideKeeps(cfg, s1, mode, TargetCurrent(cfg, s, sitePower), sitePower); }
  }

  // With the replacement meter, guessing phases from its power finds the phases it was told.
  lemma GuessIsStable(cfg: Config, s: State)
    requires cfg.wrapped && MeterAgrees(cfg, s) && s.status.StatusC? && s.chargeCurrent > 0.0
    ensures GuessedPhases(cfg, s.meterPower, s.chargeCurrent) == (if s.enabled then s.activePhases else 0)
  {
    var n := s.activePhases as real;
    if s.enabled {
      assert s.meterPower == (s.chargeCurrent * n) * cfg.voltage;
      assert s.meterPower / cfg.voltage == s.chargeCurrent * n;
      assert s.meterPower / cfg.voltage / s.chargeCurrent == n;
    }
  }

  // Detection changes the active phases and nothing a history speaks of.
  lemma GuessKeeps(cfg: Config, s: State, currents: Option<(real, real, real)>)
    requires MeterAgrees(cfg, s) && (cfg.wrapped ==> s.chargePower == s.meterPower)
    ensures var s1 := UpdateChargeCurrents(cfg, s, currents);
      && s1 == s.(activePhases := s1.activePhases, chargeCurrents := s1.chargeCurrents)
      && (cfg.wrapped ==> s1.activePhases == s.activePhases)
  {
    if cfg.wrapped && s.status.StatusC? && s.chargeCurrent > 0.0 { GuessIsStable(cfg, s); }
  }

  lemma DetectKeeps(cfg: Config, s: State, inp: Inputs)
    requires Inv(cfg, s)
    ensures var s1 := UpdateChargeCurrents(cfg, UpdateChargePower(cfg, s, inp.power), inp.currents);
      && s1 == s.(chargePower := s1.chargePower, activePhases := s1.activePhases, chargeCurrents := s1.chargeCurrents)
      && Core(cfg, s1)
      && NoNewPhases(cfg, s, s1)
  {
    GuessKeeps(cfg, UpdateChargePower(cfg, s, inp.power), inp.currents);
  }

  lemma ReadMetersKeeps(cfg: Config, s: State, inp: Inputs)
    requires Inv(cfg, s)
    ensures Keeps(cfg, s, ReadMeters(cfg, s, inp))
  {
    DetectKeeps(cfg, s, inp);
    PublishKeeps(cfg, UpdateChargeCurrents(cfg, UpdateChargePower(cfg, s, inp.power), inp.currents));
  }

  lemma SetModeKeeps(cfg: Config, s: State, mode: ChargeMode)
    requires Core(cfg, s)
    ensures Core(cfg, SetMode(cfg, s, mode)) && SameStatus(s, SetMode(cfg, s, mode))
  {
    if s.mode != mode {
      var s1 := s.(mode := mode);
      assert Core(cfg, s1);
      ElapseKeepsCore(cfg, s1);
    }
  }

  lemma SetModeFrame(cfg: Config, s: State, mode: ChargeMode)
    ensures var s1 := SetMode(cfg, s, mode);
      s1 == s.(mode := mode, guardUpdated := s1.guardUpdated, pvTimer := s1.pvTimer, history := s1.history)
  {
  }

  lemma ApplyActionFrame(cfg: Config, s: State, action: Action)
    ensures var s1 := ApplyAction(cfg, s, action);
      s1 == s.(mode := s1.mode, guardUpdated := s1.guardUpdated, pvTimer := s1.pvTimer,
               targetSoC := s1.targetSoC, history := s1.history)
  {
    SetModeFrame(cfg, s, action.mode);
  }

  lemma ApplyActionKeepsCore(cfg: Config, s: State, action: Action)
    requires Core(cfg, s)
    ensures Core(cfg, ApplyAction(cfg, s, action)) && SameStatus(s, ApplyAction(cfg, s, action))
  {
    if action.mode != ModeEmpty && s.mode != ModeEmpty { SetModeKeeps(cfg, s, action.mode); }
  }

  lemma ApplyActionKeeps(cfg: Config, s: State, action: Action)
    requires Inv(cfg, s)
    ensures Keeps(cfg, s, ApplyAction(cfg, s, action))
  {
    ApplyActionKeepsCore(cfg, s, action);
    ApplyActionFrame(cfg, s, action);
  }

  // The events of one status change, in their order, on a loadpoint that already shows the new status.
  lemma ConnectKeeps(cfg: Config, s: State)
    requires Core(cfg, s) && Unplugged(s.history) && !Charging(s.history)
    ensures var s1 := OnConnect(cfg, s);
      && Core(cfg, s1) && !Unplugged(s1.history) && !Charging(s1.history)
      && s1.now == s.now && s1.status == s.status && s1.activePhases == s.activePhases
      && BusTrace(s1.history) == BusTrace(s.history) + [(s.now, Connect)]
  {
    var s1 := Log(s, Bus(Connect));
    assert Core(cfg, s1) && BusTrace(s1.history) == BusTrace(s.history) + [(s.now, Connect)];
    assert Core(cfg, StartDetection(s1));
    ElapseKeepsCore(cfg, StartDetection(s1));
  }

  lemma StartKeeps(cfg: Config, s: State)
    requires Core(cfg, s) && !Unplugged(s.history) && !Charging(s.history)
    ensures var s1 := Log(s, Bus(Start));
      && Core(cfg, s1) && !Unplugged(s1.history) && Charging(s1.history)
      && BusTrace(s1.history) == BusTrace(s.history) + [(s.now, Start)]
  {
  }

  lemma StopKeeps(cfg: Config, s: State)
    requires Core(cfg, s) && !Unplugged(s.history) && Charging(s.history)
    ensures var s1 := OnStop(cfg, s);
      && Core(cfg, s1) && !Unplugged(s1.history) && !Charging(s1.history)
      && s1.now == s.now && s1.status == s.status && s1.activePhases == s.activePhases
      && BusTrace(s1.history) == BusTrace(s.history) + [(s.now, Stop)]
  {
  }

  lemma DisconnectKeeps(cfg: Config, s: State)
    requires Core(cfg, s) && !Unplugged(s.history) && !Charging(s.history) && s.status.StatusA?
    ensures var s1 := OnDisconnect(cfg, s);
      && Core(cfg, s1) && StatusKnown(s1)
      && s1.now == s.now && s1.status == s.status && s1.minCurrent == s.minCurrent
      && s1.activePhases == s.activePhases
      && BusTrace(s1.history) == BusTrace(s.history) + [(s.now, Disconnect)]
  {
    var s1 := Log(s, Bus(Disconnect));
    var s2 := if |cfg.vehicles| > 1 then SeeVehicle(s1, None) else s1;
    assert Core(cfg, s2) && StatusKnown(s2);
    ApplyActionKeepsCore(cfg, s2, cfg.onDisconnect);
    ApplyActionFrame(cfg, s2, cfg.onDisconnect);
  }

  lemma PublishKeeps(cfg: Config, s: State)
    requires Core(cfg, s) && StatusKnown(s) && s.minCurrent > 0.0
    ensures Keeps(cfg, s, PublishCurrent(cfg, s, s.chargeCurrent))
  {
  }

  predicate SameSettings(s: State, s1: State) {
    s1.now == s.now && s1.status == s.status && s1.minCurrent == s.minCurrent && s1.activePhases == s.activePhases
  }

  lemma ArrivingKeeps(cfg: Config, s: State, prev: ChargeStatus)
    requires Core(cfg, s) && (prev.StatusA? <==> Unplugged(s.history)) && (prev.StatusC? <==> Charging(s.history))
    ensures var s1 := Arriving(cfg, s, prev);
      && Core(cfg, s1) && SameSettings(s, s1)
      && !Unplugged(s1.history) && (prev.StatusC? <==> Charging(s1.history))
      && BusTrace(s1.history) == BusTrace(s.history) + (if prev.StatusA? then [(s.now, Connect)] else [])
  {
    if prev.StatusA? { ConnectKeeps(cfg, s); }
  }

  lemma CyclingKeeps(cfg: Config, s: State, prev: ChargeStatus)
    requires Core(cfg, s) && s.status != prev && !Unplugged(s.history) && (prev.StatusC? <==> Charging(s.history))
    ensures var s1 := Cycling(cfg, s, prev);
      && Core(cfg, s1) && SameSettings(s, s1)
      && !Unplugged(s1.history) && (s.status.StatusC? <==> Charging(s1.history))
      && BusTrace(s1.history) == BusTrace(s.history)
           + (if s.status.StatusC? then [(s.now, Start)] else if prev.StatusC? then [(s.now, Stop)] else [])
  {
    if s.status.StatusC? { StartKeeps(cfg, s); } else if prev.StatusC? { StopKeeps(cfg, s); }
  }

  lemma LeavingKeeps(cfg: Config, s: State)
    requires Core(cfg, s) && !Unplugged(s.history) && (s.status.StatusC? <==> Charging(s.history))
    ensures var s1 := Leaving(cfg, s);
      && Core(cfg, s1) && SameSettings(s, s1) && StatusKnown(s1)
      && BusTrace(s1.history) == BusTrace(s.history) + (if s.status.StatusA? then [(s.now, Disconnect)] else [])
  {
    if s.status.StatusA? { DisconnectKeeps(cfg, s); }
  }

  // Time stamps distribute over the events of a change of status.
  lemma StampedTransition(at: Time, prev: ChargeStatus, next: ChargeStatus, trace: Trace)
    requires prev != next
    ensures trace + Stamped(at, Transition(prev, next)) ==
      trace + (if prev.StatusA? then [(at, Connect)] else [])
      + (if next.StatusC? then [(at, Start)] else if prev.StatusC? then [(at, Stop)] else [])
      + (if next.StatusA? then [(at, Disconnect)] else [])
  {
  }

  lemma UpdateChargerStatusKeeps(cfg: Config, s: State, status: ChargeStatus)
    requires Inv(cfg, s)
    ensures var s1 := UpdateChargerStatus(cfg, s, status);
      Inv(cfg, s1) && Announced(s, s1, status) && NoNewPhases(cfg, s, s1)
  {
    if status != s.status {
      var s0 := ShowStatus(s, status);
      assert Core(cfg, s0);
      ArrivingKeeps(cfg, s0, s.status);
      var s1 := Arriving(cfg, s0, s.status);
      CyclingKeeps(cfg, s1, s.status);
      var s2 := Cycling(cfg, s1, s.status);
      LeavingKeeps(cfg, s2);
      StampedTransition(s.now, s.status, status, BusTrace(s.history));
      PublishKeeps(cfg, Leaving(cfg, s2));
    }
  }

  lemma IdentifyKeeps(cfg: Config, s: State, inp: Inputs)
    requires Inv(cfg, s)
    ensures Keeps(cfg, s, IdentifyByCharger(cfg, s, inp))
  {
    if inp.identity.Some? && inp.identity.value != s.vehicleID {
      var id := inp.identity.value;
      var noted := NoteID(s, id);
      Irrelevant(cfg, s, noted);
      var seen := if inp.known.Some? then SeeVehicle(noted, inp.known) else noted;
      Irrelevant(cfg, noted, seen);
      if id in cfg.onIdentify { ApplyActionKeeps(cfg, seen, cfg.onIdentify[id]); }
    }
  }

  lemma SeeKeeps(cfg: Config, s: State, vehicle: Option<Vehicle>)
    requires Inv(cfg, s)
    ensures Keeps(cfg, s, SeeVehicle(s, vehicle))
  {
  }

  lemma KeepsTwice(cfg: Config, s: State, s1: State, s2: State)
    requires Keeps(cfg, s, s1) && Keeps(cfg, s1, s2)
    ensures Keeps(cfg, s, s2)
  {
  }

  lemma IdentifyAllKeeps(cfg: Config, s: State, inp: Inputs)
    requires Inv(cfg, s)
    ensures Keeps(cfg, s, Identify(cfg, s, inp))
  {
    if Connected(s) {
      IdentifyKeeps(cfg, s, inp);
      var s1 := IdentifyByCharger(cfg, s, inp);
      SeeKeeps(cfg, s1, VehicleByStatus(cfg, s1, inp));
      KeepsTwice(cfg, s, s1, IdentifyByStatus(cfg, s1, inp));
    }
  }

  lemma UpdateVehicleKeeps(cfg: Config, s: State, inp: Inputs)
    requires Inv(cfg, s)
    ensures Keeps(cfg, s, UpdateVehicle(cfg, s, inp))
  {
    IdentifyAllKeeps(cfg, s, inp);
    var s1 := Identify(cfg, s, inp);
    Irrelevant(cfg, s1, PollSoC(s1, inp.soc));
  }

  lemma SyncChargerKeeps(cfg: Config, s: State, enabled: Option<bool>, ok: bool)
    requires Inv(cfg, s)
    ensures Keeps(cfg, s, SyncCharger(s, enabled, ok))
  {
  }

  lemma ChargeFullKeeps(cfg: Config, s: State, inp: Inputs)
    requires Inv(cfg, s)
    ensures Keeps(cfg, s, ChargeFull(cfg, s, inp))
  {
    ScalePhasesKeeps(cfg, s, 3, false, inp.scale);
    var (s1, outcome) := ScalePhases(cfg, s, 3, false, inp.scale);
    if outcome != Failed { SetLimitKeeps(cfg, s1, s1.maxCurrent, true, inp.limit); }
  }

  lemma ChargePVKeeps(cfg: Config, s: State, mode: ChargeMode, inp: Inputs)
    requires Inv(cfg, s) && (mode.ModeMinPV? || mode.ModePV?)
    ensures Keeps(cfg, s, ChargePV(cfg, s, mode, inp))
  {
    PvMaxCurrentKeeps(cfg, s, mode, inp.sitePower, inp.scale);
    var (s1, pv) := PvMaxCurrent(cfg, s, mode, inp.sitePower, inp.scale);
    var climate := pv == 0.0 && s1.vehicle.Some? && inp.climate;
    var soft := s1.remoteDemand.RemoteSoftDisable?;
    var current := if soft then 0.0 else if climate || inp.cheap then s1.maxCurrent else pv;
    SetLimitKeeps(cfg, s1, current, climate || inp.cheap || soft, inp.limit);
  }

  lemma ByModeKeeps(cfg: Config, s: State, mode: ChargeMode, inp: Inputs)
    requires Inv(cfg, s)
    ensures Keeps(cfg, s, ByMode(cfg, s, mode, inp))
  {
    if MinSocNotReached(s) {
      ChargeFullKeeps(cfg, s, inp);
      ElapseKeeps(cfg, ChargeFull(cfg, s, inp));
    } else if mode.ModeNow? {
      ChargeFullKeeps(cfg, s, inp);
    } else if mode.ModeMinPV? || mode.ModePV? {
      ChargePVKeeps(cfg, s, mode, inp);
    }
  }

  lemma StrategyKeeps(cfg: Config, s: State, mode: ChargeMode, inp: Inputs)
    requires Inv(cfg, s)
    ensures Keeps(cfg, s, Strategy(cfg, s, mode, inp))
  {
    if !Connected(s) {
      SetLimitKeeps(cfg, s, 0.0, false, inp.limit);
    } else if TargetSocReached(s) {
      SetLimitKeeps(cfg, s, if inp.climate then s.minCurrent else 0.0, true, inp.limit);
    } else if s.remoteDemand.RemoteHardDisable? || mode.ModeOff? {
      SetLimitKeeps(cfg, s, 0.0, true, inp.limit);
    } else {
      ByModeKeeps(cfg, s, mode, inp);
    }
  }

  lemma RespondKeeps(cfg: Config, s: State, status: ChargeStatus, mode: ChargeMode, inp: Inputs)
    requires Inv(cfg, s)
    ensures var s1 := Respond(cfg, s, status, mode, inp);
      Inv(cfg, s1) && NoNewPhases(cfg, s, s1) && Announced(s, s1, status)
  {
    UpdateChargerStatusKeeps(cfg, s, status);
    var s1 := UpdateChargerStatus(cfg, s, status);
    UpdateVehicleKeeps(cfg, s1, inp);
    var s2 := UpdateVehicle(cfg, s1, inp);
    SyncChargerKeeps(cfg, s2, inp.enabled, inp.syncOk);
    StrategyKeeps(cfg, SyncCharger(s2, inp.enabled, inp.syncOk), mode, inp);
  }

  lemma UpdateKeeps(cfg: Config, s: State, inp: Inputs)
    requires Inv(cfg, s)
    ensures var s1 := Update(cfg, s, inp);
      && Inv(cfg, s1)
      && NoNewPhases(cfg, s, s1)
      && (if inp.status.None? then Quiet(s, s1) else Announced(s, s1, inp.status.value))
  {
    ReadMetersKeeps(cfg, s, inp);
    if inp.status.Some? {
      RespondKeeps(cfg, ReadMeters(cfg, s, inp), inp.status.value, s.mode, inp);
    }
  }

  lemma AdoptEstablishes(cfg: Config, s: State, on: bool)
    requires Fresh(cfg, s) && s.minCurrent > 0.0
    ensures var s1 := Adopt(AssumeAllPhases(cfg, s), on);
      Inv(cfg, s1) && Quiet(s, s1)
  {
  }

  lemma PrepareEstablishes(cfg: Config, s: State, enabled: Option<bool>, reply: Reply)
    requires Fresh(cfg, s) && s.minCurrent > 0.0
    ensures var s1 := Prepare(cfg, s, enabled, reply);
      Inv(cfg, s1) && Quiet(s, s1)
  {
    if enabled.Some? {
      AdoptEstablishes(cfg, s, enabled.value);
      if enabled.value {
        var s1 := Adopt(AssumeAllPhases(cfg, s), true);
        SetLimitKeeps(cfg, s1, s1.minCurrent, false, reply);
      }
    }
  }

  // The one demand on callers: a minimum current is positive.
  predicate Permitted(step: Step) {
    step.call.DoSetMinCurrent? ==> step.call.current > 0.0
  }

  // What one call does to the bus: an update announces the status it read, nothing else speaks.
  predicate Announces(s: State, s1: State, call: Call) {
    if call.DoUpdate? && call.inp.status.Some? then Announced(s, s1, call.inp.status.value) else Quiet(s, s1)
  }

  lemma ApplyKeeps(cfg: Config, s: State, call: Call)
    requires Inv(cfg, s) && (call.DoSetMinCurrent? ==> call.current > 0.0)
    ensures var s1 := Apply(cfg, s, call);
      Inv(cfg, s1) && NoNewPhases(cfg, s, s1) && Announces(s, s1, call)
  {
    match call
    case DoUpdate(inp) => UpdateKeeps(cfg, s, inp);
    case DoSetMode(mode) => SetModeKeepsAll(cfg, s, mode);
    case DoSetPhases(phases, reply) => ScalePhasesKeeps(cfg, s, phases, false, reply);
    case DoRemoteControl(demand) => Irrelevant(cfg, s, s.(remoteDemand := demand));
    case DoSetMinCurrent(current) => Irrelevant(cfg, s, s.(minCurrent := current));
    case DoSetMaxCurrent(current) => Irrelevant(cfg, s, s.(maxCurrent := current));
    case DoSetTargetSoC(soc) => Irrelevant(cfg, s, SetTargetSoC(s, soc));
    case DoSetMinSoC(soc) => Irrelevant(cfg, s, SetMinSoC(s, soc));
  }

  lemma SetModeKeepsAll(cfg: Config, s: State, mode: ChargeMode)
    requires Inv(cfg, s)
    ensures Keeps(cfg, s, SetMode(cfg, s, mode))
  {
    SetModeKeeps(cfg, s, mode);
  }

  lemma StepKeeps(cfg: Config, s: State, step: Step)
    requires Inv(cfg, s) && Permitted(step)
    ensures var s1 := StepOnce(cfg, s, step);
      Inv(cfg, s1) && NoNewPhases(cfg, s, s1) && Announces(Wait(s, step.wait), s1, step.call)
  {
    WaitKeeps(cfg, s, step.wait);
    ApplyKeeps(cfg, Wait(s, step.wait), step.call);
  }

  predicate AllPermitted(steps: seq<Step>) {
    forall i :: 0 <= i < |steps| ==> Permitted(steps[i])
  }

  lemma {:induction false} RunKeeps(cfg: Config, s: State, steps: seq<Step>)
    requires Inv(cfg, s) && AllPermitted(steps)
    ensures Inv(cfg, Run(cfg, s, steps)) && NoNewPhases(cfg, s, Run(cfg, s, steps))
  {
    if steps != [] {
      var before := steps[..|steps| - 1];
      RunKeeps(cfg, s, before);
      StepKeeps(cfg, Run(cfg, s, before), steps[|steps| - 1]);
    }
  }
}

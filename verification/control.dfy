// core/loadpoint.go as functions on the loadpoint's state: what each of its methods makes of the
// state, given what the charger, the meters and the vehicle answer.
module Control {
  import opened Base
  import opened Api
  import opened History

  datatype State = State(
    now: Time,
    mode: ChargeMode,
    minCurrent: real,
    maxCurrent: real,
    phases: PhaseSetting,
    activePhases: ActivePhases,
    enabled: bool,
    chargeCurrent: real,
    guardUpdated: Option<Time>,
    pvTimer: Option<Time>,
    phaseTimer: Option<Time>,
    status: ChargeStatus,
    remoteDemand: RemoteDemand,
    chargePower: real,
    chargeCurrents: Option<(real, real, real)>,
    meterPower: real,      // power of the replacement charge meter
    vehicle: Option<Vehicle>,         // the active vehicle
    vehicleID: string,                // the identity the charger last told
    vehicleConnected: Option<Time>,   // when seeking a vehicle by status began
    vehicleSoc: real,
    targetSoC: int,
    minSoC: int,
    history: History)

  // Whether the charger acknowledges the commands of one setLimit call.
  datatype Reply = Reply(limitOk: bool, enableOk: bool)

  // ... and those of one scalePhases call.
  datatype ScaleReply = ScaleReply(limit: Reply, phasesOk: bool)

  datatype Outcome = Done | Failed | NotAvailable

  // What the outside world answers during one Update. None is an error.
  datatype Inputs = Inputs(
    sitePower: real,
    cheap: bool,
    power: Option<real>,
    currents: Option<(real, real, real)>,
    status: Option<ChargeStatus>,
    identity: Option<string>,     // the identity the charger tells
    known: Option<Vehicle>,       // the vehicle that has it
    pick: Option<Vehicle>,        // the coordinator's pick by status
    soc: Option<real>,            // the estimated SoC, if it is polled
    enabled: Option<bool>,
    syncOk: bool,
    climate: bool,
    scale: ScaleReply,
    limit: Reply)

  function Log(s: State, e: Event): State {
    s.(history := Then(s.history, s.now, e))
  }

  predicate Connected(s: State) { s.status.StatusB? || s.status.StatusC? }

  predicate TargetSocReached(s: State) {
    s.vehicle.Some? && 0 < s.targetSoC < 100 && s.vehicleSoc >= s.targetSoC as real
  }

  predicate MinSocNotReached(s: State) {
    s.vehicle.Some? && s.minSoC > 0 && s.vehicleSoc < s.minSoC as real
  }

  function PowerToCurrent(cfg: Config, power: real, phases: ActivePhases): real {
    power / (phases as real * cfg.voltage)
  }

  // The power the replacement meter should show.
  function MeterReading(cfg: Config, s: State, current: real): real {
    if s.enabled && s.status.StatusC? then current * s.activePhases as real * cfg.voltage else 0.0
  }

  // evChargeCurrentWrappedMeterHandler, the only subscriber of the current event with an effect
  function PublishCurrent(cfg: Config, s: State, current: real): State {
    if cfg.wrapped then s.(meterPower := MeterReading(cfg, s, current)) else s
  }

  function ElapsePVTimer(cfg: Config, s: State): State {
    Log(s.(pvTimer := Some(s.now - cfg.disable.delay), guardUpdated := Some(s.now - cfg.guard)), Elapsed)
  }

  // The contactor delay that remains, in whole seconds. The zero time is ages ago.
  function GuardRemaining(cfg: Config, s: State): Time {
    if s.guardUpdated.None? then 0 else TruncateToSecond(cfg.guard - (s.now - s.guardUpdated.value))
  }

  // A charger without api.ChargerEx takes whole amperes.
  function AsSent(cfg: Config, current: real): real { if cfg.ex then current else Trunc(current) }

  // First half of setLimit: the state, the current as sent, and whether there was no error.
  function SendLimit(cfg: Config, s: State, current: real, reply: Reply): (State, real, bool) {
    if current != s.chargeCurrent && current >= s.minCurrent then
      var sent := AsSent(cfg, current);
      var s1 := Log(s, LimitSent(sent, s.minCurrent, s.maxCurrent, reply.limitOk));
      if reply.limitOk then (PublishCurrent(cfg, s1.(chargeCurrent := sent), sent), sent, true)
      else (s1, sent, false)
    else (s, current, true)
  }

  function Enable(cfg: Config, s: State, on: bool, current: real, force: bool, ok: bool): (State, bool) {
    var s1 := Log(s, EnableSent(on, force, s.minCurrent, s.maxCurrent, ok));
    if ok then (PublishCurrent(cfg, s1.(enabled := on, guardUpdated := Some(s.now)), current), true) else (s1, false)
  }

  // Second half: enable or disable if needed and allowed.
  function SendEnable(cfg: Config, s: State, current: real, force: bool, ok: bool): (State, bool) {
    var on := current >= s.minCurrent;
    if on == s.enabled || (GuardRemaining(cfg, s) > 0 && !force) then (s, true)
    else Enable(cfg, s, on, current, force, ok)
  }

  function SetLimit(cfg: Config, s: State, current: real, force: bool, reply: Reply): (State, bool) {
    var (s1, sent, ok) := SendLimit(cfg, s, current, reply);
    if ok then SendEnable(cfg, s1, sent, force, reply.enableOk) else (s1, false)
  }

  function Switched(s: State, e: Event): State
    requires e.PhasesSent? && (e.phases == 1 || e.phases == 3)
  {
    if e.ok then Log(s, e).(phases := e.phases, phaseTimer := None) else Log(s, e)
  }

  // The switch itself, with the charger off; `pv`: PV control asks for it
  function SwitchPhases(cfg: Config, s: State, phases: PhaseSetting, pv: bool, ok: bool): (State, Outcome) {
    var s1 := Switched(s, PhasesSent(phases, pv, ok));
    if ok then (ElapsePVTimer(cfg, s1), Done) else (s1, Failed)
  }

  function ScalePhases(cfg: Config, s: State, phases: int, pv: bool, reply: ScaleReply): (State, Outcome) {
    if phases != 1 && phases != 3 then (s, Failed)
    else if !cfg.switchable then (s, NotAvailable)
    else if s.phases == phases then (s, Done)
    else
      var (s1, ok) := SetLimit(cfg, s, 0.0, true, reply.limit);
      if ok then SwitchPhases(cfg, s1, phases, pv, reply.phasesOk) else (s1, Failed)
  }

  // First part of pvScalePhases: weigh the power, start, keep or clear the phase timer, and tell
  // whether a switch is due and in which direction.
  function Judge(cfg: Config, s: State, power: real): (State, Wish, bool) {
    var wish := WishOf(cfg, power, s.activePhases, s.phases, s.minCurrent);
    var started := if s.phaseTimer.None? then s.now else s.phaseTimer.value;
    var due := !wish.Stay? && s.now - started >= cfg.disable.delay;
    var timer := if wish.Stay? then None else Some(started);
    (Log(s.(phaseTimer := timer), PhaseJudged(power, s.activePhases, s.phases, s.minCurrent, due)), wish, due)
  }

  function AssumeOnePhase(s: State): State { s.(activePhases := 1) }

  function PvScalePhases(cfg: Config, s: State, power: real, reply: ScaleReply): (State, bool) {
    var (s1, wish, due) := Judge(cfg, s, power);
    if !due then (s1, false)
    else
      var (s2, outcome) := ScalePhases(cfg, s1, if wish.Down? then 1 else 3, true, reply);
      if outcome != Done then (s2, false)
      else (if wish.Down? then AssumeOnePhase(s2) else s2, true)
  }

  function EffectiveCurrent(s: State): real {
    if s.chargeCurrents.Some? then Min(s.chargeCurrents.value.0 + 2.0, s.chargeCurrent)
    else if !s.status.StatusC? then 0.0
    else s.chargeCurrent
  }

  function TargetCurrent(cfg: Config, s: State, sitePower: real): real {
    Max(EffectiveCurrent(s) + PowerToCurrent(cfg, -sitePower, s.activePhases), 0.0)
  }

  // pvMaxCurrent after the phase switch: the PV timer and the current it allows.
  function PvDecide(cfg: Config, s: State, mode: ChargeMode, target: real, sitePower: real): (State, real)
    requires mode.ModeMinPV? || mode.ModePV?
  {
    var started := if s.pvTimer.None? then s.now else s.pvTimer.value;
    var (timer, result) :=
      if mode.ModeMinPV? && target < s.minCurrent then (s.pvTimer, s.minCurrent)
      else if mode.ModePV? && s.enabled && target < s.minCurrent then
        if sitePower >= cfg.disable.threshold then
          (Some(started), if s.now - started >= cfg.disable.delay then 0.0 else s.minCurrent)
        else (Some(s.now), s.minCurrent)
      else if mode.ModePV? && !s.enabled then
        if (cfg.enable.threshold == 0.0 && target >= s.minCurrent) ||
           (cfg.enable.threshold != 0.0 && sitePower <= cfg.enable.threshold)
        then (Some(started), if s.now - started >= cfg.enable.delay then s.minCurrent else 0.0)
        else (Some(s.now), 0.0)
      else (None, Min(target, s.maxCurrent));
    (Log(s.(pvTimer := timer),
         PvDecided(mode, s.enabled, target, sitePower, s.minCurrent, s.maxCurrent, result)), result)
  }

  // The power the loadpoint could draw
  function Available(s: State, sitePower: real): real { -sitePower + s.chargePower }

  // pvScalePhases, if the charger can switch phases
  function PvPhases(cfg: Config, s: State, sitePower: real, reply: ScaleReply): (State, bool) {
    if cfg.switchable then PvScalePhases(cfg, s, Available(s, sitePower), reply) else (s, false)
  }

  function PvMaxCurrent(cfg: Config, s: State, mode: ChargeMode, sitePower: real, reply: ScaleReply): (State, real)
    requires mode.ModeMinPV? || mode.ModePV?
  {
    var (s1, switched) := PvPhases(cfg, s, sitePower, reply);
    if switched then (s1, 0.0) else PvDecide(cfg, s1, mode, TargetCurrent(cfg, s, sitePower), sitePower)
  }

  function UpdateChargePower(cfg: Config, s: State, power: Option<real>): State {
    if cfg.wrapped then s.(chargePower := s.meterPower)
    else if power.Some? then s.(chargePower := power.value)
    else s
  }

  // Phases that carry at least minActiveCurrent
  function CountActive(i: (real, real, real)): (n: int) {
    (if i.0 >= 1.0 then 1 else 0) + (if i.1 >= 1.0 then 1 else 0) + (if i.2 >= 1.0 then 1 else 0)
  }

  function GuessedPhases(cfg: Config, power: real, current: real): int
    requires current > 0.0
  {
    Round(power / cfg.voltage / current)
  }

  function UpdateChargeCurrents(cfg: Config, s: State, currents: Option<(real, real, real)>): State {
    if cfg.wrapped || !cfg.currents then
      var s1 := s.(chargeCurrents := None);
      if s.status.StatusC? && s.chargeCurrent > 0.0 && 1 <= GuessedPhases(cfg, s.chargePower, s.chargeCurrent) <= 3
      then s1.(activePhases := GuessedPhases(cfg, s.chargePower, s.chargeCurrent))
      else s1
    else if currents.None? then s.(chargeCurrents := None)
    else
      var s1 := s.(chargeCurrents := currents);
      if s.status.StatusC? && CountActive(currents.value) >= 1
      then s1.(activePhases := CountActive(currents.value))
      else s1
  }

  function SetMode(cfg: Config, s: State, mode: ChargeMode): State {
    if s.mode == mode then s else ElapsePVTimer(cfg, s.(mode := mode))
  }

  function SetTargetSoC(s: State, soc: int): State {
    if s.vehicle.Some? then s.(targetSoC := soc) else s
  }

  function SetMinSoC(s: State, soc: int): State {
    if s.vehicle.Some? then s.(minSoC := soc) else s
  }

  function ApplyAction(cfg: Config, s: State, action: Action): State {
    var s1 := if action.mode != ModeEmpty && s.mode != ModeEmpty then SetMode(cfg, s, action.mode) else s;
    if action.targetSoC != 0 then SetTargetSoC(s1, action.targetSoC) else s1
  }

  function StartDetection(s: State): State { s.(vehicleConnected := Some(s.now)) }

  function OnConnect(cfg: Config, s: State): State {
    ElapsePVTimer(cfg, StartDetection(Log(s, Bus(Connect))))
  }

  function OnStop(cfg: Config, s: State): State {
    Log(if cfg.wrapped then s.(meterPower := 0.0) else s, Bus(Stop))
  }

  function OnDisconnect(cfg: Config, s: State): State {
    var s1 := Log(s, Bus(Disconnect));
    ApplyAction(cfg, if |cfg.vehicles| > 1 then SeeVehicle(s1, None) else s1, cfg.onDisconnect)
  }

  function ShowStatus(s: State, status: ChargeStatus): State { s.(status := status) }

  // The events of a change of status, in their order: from A, to or from C, to A
  function Arriving(cfg: Config, s: State, prev: ChargeStatus): State {
    if prev.StatusA? then OnConnect(cfg, s) else s
  }

  function Cycling(cfg: Config, s: State, prev: ChargeStatus): State {
    if s.status.StatusC? then Log(s, Bus(Start)) else if prev.StatusC? then OnStop(cfg, s) else s
  }

  function Leaving(cfg: Config, s: State): State {
    if s.status.StatusA? then OnDisconnect(cfg, s) else s
  }

  function UpdateChargerStatus(cfg: Config, s: State, status: ChargeStatus): State {
    if status == s.status then s
    else
      var s1 := Arriving(cfg, ShowStatus(s, status), s.status);
      var s2 := Leaving(cfg, Cycling(cfg, s1, s.status));
      PublishCurrent(cfg, s2, s2.chargeCurrent)
  }

  function SeeVehicle(s: State, vehicle: Option<Vehicle>): State { s.(vehicle := vehicle) }

  function NoteID(s: State, id: string): State { s.(vehicleID := id) }

  // identifyVehicle: an identity that is new selects a vehicle and runs an action.
  function IdentifyByCharger(cfg: Config, s: State, inp: Inputs): State {
    if inp.identity.None? || inp.identity.value == s.vehicleID then s
    else
      var id := inp.identity.value;
      var noted := NoteID(s, id);
      if id == "" then noted
      else
        var seen := if inp.known.Some? then SeeVehicle(noted, inp.known) else noted;
        if id in cfg.onIdentify then ApplyAction(cfg, seen, cfg.onIdentify[id]) else seen
  }

  // vehicleUnidentified: for a while after connecting, if there are several vehicles
  predicate Unidentified(cfg: Config, s: State) {
    |cfg.vehicles| > 1 && s.vehicleConnected.Some? && s.now - s.vehicleConnected.value < DETECT_DURATION
  }

  // identifyVehicleByStatus: a vehicle that could be confirmed and was not is given up.
  function VehicleByStatus(cfg: Config, s: State, inp: Inputs): Option<Vehicle> {
    if !Unidentified(cfg, s) then s.vehicle
    else if inp.pick.Some? then inp.pick
    else if s.vehicle.Some? && s.vehicle.value.stateful then None
    else s.vehicle
  }

  function IdentifyByStatus(cfg: Config, s: State, inp: Inputs): State {
    SeeVehicle(s, VehicleByStatus(cfg, s, inp))
  }

  function PollSoC(s: State, soc: Option<real>): State {
    if s.vehicle.Some? && soc.Some? then s.(vehicleSoc := Trunc(soc.value)) else s
  }

  function Identify(cfg: Config, s: State, inp: Inputs): State {
    if Connected(s) then IdentifyByStatus(cfg, IdentifyByCharger(cfg, s, inp), inp) else s
  }

  function UpdateVehicle(cfg: Config, s: State, inp: Inputs): State {
    PollSoC(Identify(cfg, s, inp), inp.soc)
  }

  function SyncCharger(s: State, enabled: Option<bool>, ok: bool): State {
    if enabled.Some? && enabled.value != s.enabled then Log(s, SyncSent(s.enabled, ok)) else s
  }

  // Full power on three phases, if available
  function ChargeFull(cfg: Config, s: State, inp: Inputs): State {
    var (s1, outcome) := ScalePhases(cfg, s, 3, false, inp.scale);
    if outcome == Failed then s1 else SetLimit(cfg, s1, s1.maxCurrent, true, inp.limit).0
  }

  function ChargePV(cfg: Config, s: State, mode: ChargeMode, inp: Inputs): State
    requires mode.ModeMinPV? || mode.ModePV?
  {
    var (s1, pv) := PvMaxCurrent(cfg, s, mode, inp.sitePower, inp.scale);
    var climate := pv == 0.0 && s1.vehicle.Some? && inp.climate;
    var soft := s1.remoteDemand.RemoteSoftDisable?;
    var current := if soft then 0.0 else if climate || inp.cheap then s1.maxCurrent else pv;
    SetLimit(cfg, s1, current, climate || inp.cheap || soft, inp.limit).0
  }

  function Strategy(cfg: Config, s: State, mode: ChargeMode, inp: Inputs): State {
    if !Connected(s) then SetLimit(cfg, s, 0.0, false, inp.limit).0
    else if TargetSocReached(s) then
      SetLimit(cfg, s, if inp.climate then s.minCurrent else 0.0, true, inp.limit).0
    else if s.remoteDemand.RemoteHardDisable? || mode.ModeOff? then SetLimit(cfg, s, 0.0, true, inp.limit).0
    else ByMode(cfg, s, mode, inp)
  }

  function ByMode(cfg: Config, s: State, mode: ChargeMode, inp: Inputs): State {
    if MinSocNotReached(s) then ElapsePVTimer(cfg, ChargeFull(cfg, s, inp))
    else if mode.ModeNow? then ChargeFull(cfg, s, inp)
    else if mode.ModeMinPV? || mode.ModePV? then ChargePV(cfg, s, mode, inp)
    else s
  }

  // The part of Update that reads the meters, up to the status request.
  function ReadMeters(cfg: Config, s: State, inp: Inputs): State {
    var s1 := UpdateChargePower(cfg, s, inp.power);
    var s2 := UpdateChargeCurrents(cfg, s1, inp.currents);
    PublishCurrent(cfg, s2, s2.chargeCurrent)
  }

  // The part of Update after the charger status is known.
  function Respond(cfg: Config, s: State, status: ChargeStatus, mode: ChargeMode, inp: Inputs): State {
    var s1 := UpdateChargerStatus(cfg, s, status);
    var s2 := UpdateVehicle(cfg, s1, inp);
    var s3 := SyncCharger(s2, inp.enabled, inp.syncOk);
    Strategy(cfg, s3, mode, inp)
  }

  function Update(cfg: Config, s: State, inp: Inputs): State {
    var s1 := ReadMeters(cfg, s, inp);
    if inp.status.None? then s1 else Respond(cfg, s1, inp.status.value, s.mode, inp)
  }

  function AssumeAllPhases(cfg: Config, s: State): State {
    s.(activePhases := s.phases,
       vehicle := if |cfg.vehicles| == 1 then Some(cfg.vehicles[0]) else s.vehicle,
       vehicleConnected := if |cfg.vehicles| > 1 then Some(s.now) else s.vehicleConnected)
  }

  // Take over the enabled state of the charger.
  function Adopt(s: State, on: bool): State {
    Log(s.(enabled := on, guardUpdated := if on then Some(s.now) else s.guardUpdated), Adopted(on))
  }

  function Prepare(cfg: Config, s: State, enabled: Option<bool>, reply: Reply): State {
    var s1 := AssumeAllPhases(cfg, s);
    if enabled.None? then s1
    else
      var s2 := Adopt(s1, enabled.value);
      if enabled.value then SetLimit(cfg, s2, s2.minCurrent, false, reply).0 else s2
  }
}

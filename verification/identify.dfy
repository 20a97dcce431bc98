// Which vehicle a loadpoint takes to be connected: the rules of identification over whole updates.
module Identification {
  import opened Base
  import opened Api
  import opened History
  import opened Control
  import opened Runs
  import opened Outcomes

  predicate SameVehicle(s: State, s1: State) {
    s1.vehicle == s.vehicle && s1.vehicleID == s.vehicleID && s1.vehicleConnected == s.vehicleConnected
  }

  // What reads the meters and what commands the charger leaves the vehicle alone.
  lemma LimitFrame(cfg: Config, s: State, current: real, force: bool, reply: Reply)
    ensures Untouched(s, SetLimit(cfg, s, current, force, reply).0)
  {
    SetLimitFrame(cfg, s, current, force, reply);
  }

  lemma ByModeFrame(cfg: Config, s: State, mode: ChargeMode, inp: Inputs)
    ensures Untouched(s, ByMode(cfg, s, mode, inp))
  {
    if MinSocNotReached(s) || mode.ModeNow? {
      ScaleFrame(cfg, s, 3, false, inp.scale);
      var s1 := ScalePhases(cfg, s, 3, false, inp.scale).0;
      LimitFrame(cfg, s1, s1.maxCurrent, true, inp.limit);
    } else if mode.ModeMinPV? || mode.ModePV? {
      PvFrame(cfg, s, mode, inp.sitePower, inp.scale);
      var (s1, pv) := PvMaxCurrent(cfg, s, mode, inp.sitePower, inp.scale);
      var climate := pv == 0.0 && s1.vehicle.Some? && inp.climate;
      var soft := s1.remoteDemand.RemoteSoftDisable?;
      LimitFrame(cfg, s1, if soft then 0.0 else if climate || inp.cheap then s1.maxCurrent else pv,
                 climate || inp.cheap || soft, inp.limit);
    }
  }

  lemma StrategyFrame(cfg: Config, s: State, mode: ChargeMode, inp: Inputs)
    ensures Untouched(s, Strategy(cfg, s, mode, inp))
  {
    LimitFrame(cfg, s, 0.0, false, inp.limit);
    LimitFrame(cfg, s, 0.0, true, inp.limit);
    LimitFrame(cfg, s, s.minCurrent, true, inp.limit);
    ByModeFrame(cfg, s, mode, inp);
  }

  // So an update identifies on the loadpoint with its new status.
  lemma UpdateIdentifies(cfg: Config, s: State, inp: Inputs)
    requires inp.status.Some?
    ensures var s1 := UpdateChargerStatus(cfg, ReadMeters(cfg, s, inp), inp.status.value);
      && SameVehicle(Identify(cfg, s1, inp), Update(cfg, s, inp))
      && Update(cfg, s, inp).status == Identify(cfg, s1, inp).status
      && Update(cfg, s, inp).now == Identify(cfg, s1, inp).now
  {
    var s1 := UpdateChargerStatus(cfg, ReadMeters(cfg, s, inp), inp.status.value);
    var s2 := SyncCharger(UpdateVehicle(cfg, s1, inp), inp.enabled, inp.syncOk);
    StrategyFrame(cfg, s2, s.mode, inp);
  }

  // A change of status lets a vehicle go that is one of several, and begins to look for one when
  // it is connected; the identity is remembered.
  lemma StatusFrame(cfg: Config, s: State, status: ChargeStatus)
    ensures var s1 := UpdateChargerStatus(cfg, s, status);
      && s1.now == s.now && s1.status == status && s1.vehicleID == s.vehicleID
      && s1.vehicle == (if status.StatusA? && status != s.status && |cfg.vehicles| > 1 then None else s.vehicle)
      && s1.vehicleConnected == (if s.status.StatusA? && status != s.status then Some(s.now) else s.vehicleConnected)
  {
    if status != s.status {
      var s1 := Arriving(cfg, ShowStatus(s, status), s.status);
      var s2 := Cycling(cfg, s1, s.status);
      var s3 := SeeVehicle(Log(s2, Bus(Disconnect)), None);
      ApplyActionFrame(cfg, s3, cfg.onDisconnect);
      ApplyActionFrame(cfg, Log(s2, Bus(Disconnect)), cfg.onDisconnect);
    }
  }

  lemma MetersFrame(cfg: Config, s: State, inp: Inputs)
    ensures var s1 := ReadMeters(cfg, s, inp);
      SameVehicle(s, s1) && s1.now == s.now && s1.status == s.status
  {
  }

  // An identity is news if it is not the one last told.
  predicate News(s: State, inp: Inputs) {
    inp.identity.Some? && inp.identity.value != s.vehicleID && inp.identity.value != "" && inp.known.Some?
  }

  lemma ChargerFrame(cfg: Config, s: State, inp: Inputs)
    ensures var s1 := IdentifyByCharger(cfg, s, inp);
      && s1.now == s.now && s1.status == s.status && s1.vehicleConnected == s.vehicleConnected
      && s1.vehicle == (if News(s, inp) then inp.known else s.vehicle)
      && s1.vehicleID == (if inp.identity.Some? then inp.identity.value else s.vehicleID)
  {
    if inp.identity.Some? && inp.identity.value != s.vehicleID && inp.identity.value in cfg.onIdentify {
      var noted := NoteID(s, inp.identity.value);
      var seen := if inp.known.Some? then SeeVehicle(noted, inp.known) else noted;
      ApplyActionFrame(cfg, seen, cfg.onIdentify[inp.identity.value]);
    }
  }

  // With the same identity and the search over, an update at the same plug keeps the vehicle.
  lemma VehicleSettles(cfg: Config, s: State, inp: Inputs)
    requires Connected(s) && !Unidentified(cfg, s) && !News(s, inp)
    requires inp.status.None? || inp.status == Some(StatusB) || inp.status == Some(StatusC)
    ensures Update(cfg, s, inp).vehicle == s.vehicle
  {
    MetersFrame(cfg, s, inp);
    if inp.status.Some? {
      UpdateIdentifies(cfg, s, inp);
      StatusFrame(cfg, ReadMeters(cfg, s, inp), inp.status.value);
      var s1 := UpdateChargerStatus(cfg, ReadMeters(cfg, s, inp), inp.status.value);
      ChargerFrame(cfg, s1, inp);
    }
  }

  // With several vehicles, connecting one forgets the vehicle before it but not its identity. So
  // in the update that sees the connection, the charger's identification counts if and only if it is
  // not the one told last, and the vehicle cannot tell its own status; else only the pick by status
  // does.
  lemma ConnectedVehicleExactly(cfg: Config, s: State, inp: Inputs)
    requires |cfg.vehicles| > 1 && s.status.StatusA? && s.vehicle.None?
    requires inp.status == Some(StatusB) || inp.status == Some(StatusC)
    ensures Update(cfg, s, inp).vehicle ==
      if inp.pick.Some? then inp.pick
      else if News(s, inp) && !inp.known.value.stateful then inp.known
      else None
  {
    MetersFrame(cfg, s, inp);
    UpdateIdentifies(cfg, s, inp);
    StatusFrame(cfg, ReadMeters(cfg, s, inp), inp.status.value);
    ChargerFrame(cfg, UpdateChargerStatus(cfg, ReadMeters(cfg, s, inp), inp.status.value), inp);
  }

  // The update, which brings the loadpoint to this state before it identifies, finds a vehicle.
  predicate FindsAt(cfg: Config, s: State, inp: Inputs) {
    && Connected(s)
    && if Unidentified(cfg, s) then inp.pick.Some? || (News(s, inp) && !inp.known.value.stateful) else News(s, inp)
  }

  predicate Finds(cfg: Config, s: State, inp: Inputs) {
    inp.status.Some? && FindsAt(cfg, UpdateChargerStatus(cfg, ReadMeters(cfg, s, inp), inp.status.value), inp)
  }

  // With no vehicle, an update has one afterwards exactly if it finds one: the coordinator picks one
  // during the search, or the charger tells an identity that is not the one it told last, of a
  // vehicle that need not be confirmed.
  lemma FoundExactly(cfg: Config, s: State, inp: Inputs)
    requires s.vehicle.None?
    ensures Update(cfg, s, inp).vehicle.Some? <==> Finds(cfg, s, inp)
  {
    MetersFrame(cfg, s, inp);
    if inp.status.Some? {
      UpdateIdentifies(cfg, s, inp);
      StatusFrame(cfg, ReadMeters(cfg, s, inp), inp.status.value);
      ChargerFrame(cfg, UpdateChargerStatus(cfg, ReadMeters(cfg, s, inp), inp.status.value), inp);
    }
  }

  // The coordinator picks nothing, and the charger tells nothing or this identity.
  predicate Silent(call: Call, id: string) {
    call.DoUpdate? ==> call.inp.pick.None? && (call.inp.identity.None? || call.inp.identity.value == id)
  }

  lemma SilentUpdate(cfg: Config, s: State, inp: Inputs)
    requires s.vehicle.None? && inp.pick.None? && (inp.identity.None? || inp.identity.value == s.vehicleID)
    ensures Update(cfg, s, inp).vehicle.None? && Update(cfg, s, inp).vehicleID == s.vehicleID
  {
    FoundExactly(cfg, s, inp);
    MetersFrame(cfg, s, inp);
    if inp.status.Some? {
      UpdateIdentifies(cfg, s, inp);
      StatusFrame(cfg, ReadMeters(cfg, s, inp), inp.status.value);
      ChargerFrame(cfg, UpdateChargerStatus(cfg, ReadMeters(cfg, s, inp), inp.status.value), inp);
    }
  }

  lemma SilentCall(cfg: Config, s: State, call: Call)
    requires s.vehicle.None? && Silent(call, s.vehicleID)
    ensures Apply(cfg, s, call).vehicle.None? && Apply(cfg, s, call).vehicleID == s.vehicleID
  {
    match call
    case DoUpdate(inp) => SilentUpdate(cfg, s, inp);
    case DoSetMode(mode) => SetModeFrame(cfg, s, mode);
    case DoSetPhases(phases, reply) => ScaleFrame(cfg, s, phases, false, reply);
    case _ =>
  }

  // Without a vehicle, none appears in any run of any length, through any changes of status, while
  // the coordinator picks nothing and the charger tells no other identity than the one told last.
  lemma {:induction false} StaysForgotten(cfg: Config, s: State, steps: seq<Step>)
    requires s.vehicle.None? && forall i :: 0 <= i < |steps| ==> Silent(steps[i].call, s.vehicleID)
    ensures var s1 := Run(cfg, s, steps); s1.vehicle.None? && s1.vehicleID == s.vehicleID
  {
    if steps != [] {
      var before := steps[..|steps| - 1];
      StaysForgotten(cfg, s, before);
      SilentCall(cfg, Wait(Run(cfg, s, before), steps[|steps| - 1].wait), steps[|steps| - 1].call);
    }
  }

  // With several vehicles, one that the charger had identified is forgotten when it is unplugged, its
  // identity is not. So telling that identity again never brings it back, however often it is
  // plugged in; the first update that does is the first in which the coordinator picks one or the
  // charger tells another identity of a vehicle it knows.
  lemma ReconnectedIsForgotten(cfg: Config, s: State, off: Inputs, steps: seq<Step>, next: Inputs)
    requires |cfg.vehicles| > 1 && Connected(s) && off.status == Some(StatusA)
    requires forall i :: 0 <= i < |steps| ==> Silent(steps[i].call, s.vehicleID)
    ensures var s1 := Run(cfg, Update(cfg, s, off), steps);
      && s1.vehicle.None? && s1.vehicleID == s.vehicleID
      && (Update(cfg, s1, next).vehicle.Some? <==> Finds(cfg, s1, next))
  {
    MetersFrame(cfg, s, off);
    UpdateIdentifies(cfg, s, off);
    StatusFrame(cfg, ReadMeters(cfg, s, off), StatusA);
    StaysForgotten(cfg, Update(cfg, s, off), steps);
    FoundExactly(cfg, Run(cfg, Update(cfg, s, off), steps), next);
  }

  // An empty answer in between makes the same identity news.
  lemma EmptyIdentityReminds(cfg: Config, s: State, empty: Inputs, wait: nat, again: Inputs)
    requires Connected(s) && s.vehicle.None? && !Unidentified(cfg, s)
    requires (empty.status == Some(StatusB) || empty.status == Some(StatusC)) && empty.identity == Some("")
    requires (again.status == Some(StatusB) || again.status == Some(StatusC)) && again.known.Some?
    requires again.identity == Some(s.vehicleID) && s.vehicleID != ""
    ensures Update(cfg, Wait(Update(cfg, s, empty), wait), again).vehicle == again.known
  {
    MetersFrame(cfg, s, empty);
    UpdateIdentifies(cfg, s, empty);
    StatusFrame(cfg, ReadMeters(cfg, s, empty), empty.status.value);
    ChargerFrame(cfg, UpdateChargerStatus(cfg, ReadMeters(cfg, s, empty), empty.status.value), empty);
    var s1 := Wait(Update(cfg, s, empty), wait);
    MetersFrame(cfg, s1, again);
    UpdateIdentifies(cfg, s1, again);
    StatusFrame(cfg, ReadMeters(cfg, s1, again), again.status.value);
    ChargerFrame(cfg, UpdateChargerStatus(cfg, ReadMeters(cfg, s1, again), again.status.value), again);
  }
}

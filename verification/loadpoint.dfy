// core/loadpoint.go as an object: each method changes the fields step by step and is proved to make
// of them what module Control says.
module LoadPoints {
  import opened Base
  import opened Api
  import opened History
  import opened Control
  import opened Progress
  import opened Wrapper
  import Runs

  class LoadPoint {
    const cfg: Config
    const meter: ChargeMeter     // the replacement charge meter, used if cfg.wrapped
    const timer: ChargeTimer     // the replacement charge timer

    var now: Time                // lp.clock
    var mode: ChargeMode
    var minCurrent: real
    var maxCurrent: real
    var phases: PhaseSetting
    var activePhases: ActivePhases
    var enabled: bool
    var chargeCurrent: real
    var guardUpdated: Option<Time>
    var pvTimer: Option<Time>
    var phaseTimer: Option<Time>
    var status: ChargeStatus
    var remoteDemand: RemoteDemand
    var chargePower: real
    var chargeCurrents: Option<(real, real, real)>
    var vehicle: Option<Vehicle>
    var vehicleID: string
    var vehicleConnected: Option<Time>
    var vehicleSoc: real
    var targetSoC: int
    var minSoC: int
    ghost var history: History

    ghost function View(): State
      reads this, meter
    {
      State(now, mode, minCurrent, maxCurrent, phases, activePhases, enabled, chargeCurrent, guardUpdated,
            pvTimer, phaseTimer, status, remoteDemand, chargePower, chargeCurrents, meter.power, vehicle,
            vehicleID, vehicleConnected, vehicleSoc, targetSoC, minSoC, history)
    }

    // The run invariant holds and the charge timer has followed every event on the bus.
    ghost predicate Valid()
      reads this, meter, timer
    {
      Runs.Inv(cfg, View()) && timer.View() == After(ClockReading, BusTrace(history))
    }

    constructor (cfg: Config, now: Time, mode: ChargeMode, minCurrent: real, maxCurrent: real,
                 targetSoC: int, minSoC: int, meter: ChargeMeter, timer: ChargeTimer)
      requires meter.power == 0.0
      ensures this.cfg == cfg && this.meter == meter && this.timer == timer
      ensures Runs.Fresh(cfg, View())
    {
      this.cfg, this.meter, this.timer := cfg, meter, timer;
      this.now, this.mode, this.minCurrent, this.maxCurrent := now, mode, minCurrent, maxCurrent;
      phases, activePhases := cfg.phases, 1;
      enabled, chargeCurrent := false, 0.0;
      guardUpdated, pvTimer, phaseTimer := None, None, None;
      status, remoteDemand := StatusNone, RemoteEnable;
      chargePower, chargeCurrents := 0.0, None;
      vehicle, vehicleID, vehicleConnected, vehicleSoc := None, "", None, 0.0;
      this.targetSoC, this.minSoC := targetSoC, minSoC;
      history := Empty;
    }

    // evChargeCurrentWrappedMeterHandler
    method PublishCurrent(current: real)
      modifies meter
      ensures View() == Control.PublishCurrent(cfg, old(View()), current)
    {
      if cfg.wrapped {
        var power := current * activePhases as real * cfg.voltage;
        if !enabled || status != StatusC {
          power := 0.0;
        }
        meter.SetPower(power);
      }
    }

    method ElapsePVTimer()
      modifies this
      ensures View() == Control.ElapsePVTimer(cfg, old(View()))
    {
      pvTimer := Some(now - cfg.disable.delay);
      guardUpdated := Some(now - cfg.guard);
      history := Then(history, now, Elapsed);
    }

    // First half of setLimit
    method SendLimit(current: real, reply: Reply) returns (sent: real, ok: bool)
      modifies this, meter
      ensures (View(), sent, ok) == Control.SendLimit(cfg, old(View()), current, reply)
    {
      sent, ok := current, true;
      if current != chargeCurrent && current >= minCurrent {
        if !cfg.ex {
          sent := Trunc(sent);
        }
        ok := reply.limitOk;
        history := Then(history, now, LimitSent(sent, minCurrent, maxCurrent, ok));
        if ok {
          chargeCurrent := sent;
          PublishCurrent(sent);
        }
      }
    }

    // The command of the second half of setLimit
    method Enable(on: bool, current: real, ghost force: bool, enableOk: bool) returns (ok: bool)
      modifies this, meter
      ensures (View(), ok) == Control.Enable(cfg, old(View()), on, current, force, enableOk)
    {
      ok := enableOk;
      history := Then(history, now, EnableSent(on, force, minCurrent, maxCurrent, ok));
      if ok {
        enabled := on;
        guardUpdated := Some(now);
        PublishCurrent(current);
      }
    }

    // Second half of setLimit
    method SendEnable(current: real, force: bool, enableOk: bool) returns (ok: bool)
      modifies this, meter
      ensures (View(), ok) == Control.SendEnable(cfg, old(View()), current, force, enableOk)
    {
      ok := true;
      var on := current >= minCurrent;
      if on != enabled {
        var remaining := if guardUpdated.None? then 0 else TruncateToSecond(cfg.guard - (now - guardUpdated.value));
        if remaining > 0 && !force {
          return;
        }
        ok := Enable(on, current, force, enableOk);
      }
    }

    method SetLimit(current: real, force: bool, reply: Reply) returns (ok: bool)
      modifies this, meter
      ensures (View(), ok) == Control.SetLimit(cfg, old(View()), current, force, reply)
    {
      var sent;
      sent, ok := SendLimit(current, reply);
      if ok {
        ok := SendEnable(sent, force, reply.enableOk);
      }
    }

    // The last part of scalePhases
    method SwitchPhases(phases: PhaseSetting, ghost pv: bool, ok: bool) returns (outcome: Outcome)
      modifies this
      ensures (View(), outcome) == Control.SwitchPhases(cfg, old(View()), phases, pv, ok)
    {
      history := Then(history, now, PhasesSent(phases, pv, ok));
      if !ok {
        return Failed;
      }
      this.phases := phases;
      phaseTimer := None;
      assert View() == Switched(old(View()), PhasesSent(phases, pv, true));
      ElapsePVTimer();
      return Done;
    }

    method ScalePhases(phases: int, ghost pv: bool, reply: ScaleReply) returns (outcome: Outcome)
      modifies this, meter
      ensures (View(), outcome) == Control.ScalePhases(cfg, old(View()), phases, pv, reply)
    {
      if phases != 1 && phases != 3 {
        return Failed;
      }
      if !cfg.switchable {
        return NotAvailable;
      }
      if this.phases != phases {
        var ok := SetLimit(0.0, true, reply.limit);
        if !ok {
          return Failed;
        }
        outcome := SwitchPhases(phases, pv, reply.phasesOk);
        return;
      }
      return Done;
    }

    // The phase timer while a switch is wished for
    method RunPhaseTimer(power: real) returns (due: bool)
      requires !WishOf(cfg, power, activePhases, phases, minCurrent).Stay?
      modifies this
      ensures (View(), WishOf(cfg, power, old(activePhases), old(phases), old(minCurrent)), due) == Judge(cfg, old(View()), power)
    {
      if phaseTimer.None? {
        phaseTimer := Some(now);
      }
      due := now - phaseTimer.value >= cfg.disable.delay;
      history := Then(history, now, PhaseJudged(power, activePhases, phases, minCurrent, due));
    }

    // ... and while it is not
    method ResetPhaseTimer(power: real)
      requires WishOf(cfg, power, activePhases, phases, minCurrent).Stay?
      modifies this
      ensures (View(), Stay, false) == Judge(cfg, old(View()), power)
    {
      phaseTimer := None;
      history := Then(history, now, PhaseJudged(power, activePhases, phases, minCurrent, false));
    }

    method PvScalePhases(power: real, minCurrent: real, reply: ScaleReply) returns (switched: bool)
      requires minCurrent == this.minCurrent
      modifies this, meter
      ensures (View(), switched) == Control.PvScalePhases(cfg, old(View()), power, reply)
    {
      var waiting := false;
      var configured := phases;
      var targetCurrent := power / cfg.voltage / activePhases as real;

      // scale down phases
      if targetCurrent < minCurrent && configured > 1 && activePhases > 1 {
        var due := RunPhaseTimer(power);
        if due {
          var outcome := ScalePhases(1, true, reply);
          if outcome == Done {
            activePhases := 1;
            return true;
          }
        }
        waiting := true;
      }

      // scale up phases
      if power / (3.0 * cfg.voltage) >= minCurrent && configured == 1 {
        var due := RunPhaseTimer(power);
        if due {
          var outcome := ScalePhases(3, true, reply);
          if outcome == Done {
            return true;
          }
        }
        waiting := true;
      }

      // reset timer to disabled state
      if !waiting {
        ResetPhaseTimer(power);
      }
      return false;
    }

    // The phase switch of pvMaxCurrent
    method PvPhases(sitePower: real, reply: ScaleReply) returns (switched: bool)
      modifies this, meter
      ensures (View(), switched) == Control.PvPhases(cfg, old(View()), sitePower, reply)
    {
      switched := false;
      if cfg.switchable {
        switched := PvScalePhases(-sitePower + chargePower, minCurrent, reply);
      }
    }

    // The PV timer part of pvMaxCurrent
    method PvDecide(mode: ChargeMode, target: real, sitePower: real) returns (current: real)
      requires mode.ModeMinPV? || mode.ModePV?
      modifies this
      ensures (View(), current) == Control.PvDecide(cfg, old(View()), mode, target, sitePower)
    {
      ghost var wasEnabled := enabled;
      if mode == ModeMinPV && target < minCurrent {
        current := minCurrent;
      } else if mode == ModePV && enabled && target < minCurrent {
        current := minCurrent;
        if sitePower >= cfg.disable.threshold {
          if pvTimer.None? {
            pvTimer := Some(now);
          }
          if now - pvTimer.value >= cfg.disable.delay {
            current := 0.0;
          }
        } else {
          pvTimer := Some(now);
        }
      } else if mode == ModePV && !enabled {
        current := 0.0;
        if (cfg.enable.threshold == 0.0 && target >= minCurrent) ||
           (cfg.enable.threshold != 0.0 && sitePower <= cfg.enable.threshold) {
          if pvTimer.None? {
            pvTimer := Some(now);
          }
          if now - pvTimer.value >= cfg.enable.delay {
            current := minCurrent;
          }
        } else {
          pvTimer := Some(now);
        }
      } else {
        pvTimer := None;
        current := Min(target, maxCurrent);
      }
      history := Then(history, now, PvDecided(mode, enabled, target, sitePower, minCurrent, maxCurrent, current));
    }

    method PvMaxCurrent(mode: ChargeMode, sitePower: real, reply: ScaleReply) returns (current: real)
      requires mode.ModeMinPV? || mode.ModePV?
      modifies this, meter
      ensures (View(), current) == Control.PvMaxCurrent(cfg, old(View()), mode, sitePower, reply)
    {
      var effective := 0.0;
      if chargeCurrents.Some? {
        effective := Min(chargeCurrents.value.0 + 2.0, chargeCurrent);
      } else if status == StatusC {
        effective := chargeCurrent;
      }
      var delta := -sitePower / (activePhases as real * cfg.voltage);
      var target := Max(effective + delta, 0.0);
      assert target == TargetCurrent(cfg, old(View()), sitePower);

      var switched := PvPhases(sitePower, reply);
      if switched {
        return 0.0;
      }
      current := PvDecide(mode, target, sitePower);
    }

    method UpdateChargePower(power: Option<real>)
      modifies this
      ensures View() == Control.UpdateChargePower(cfg, old(View()), power)
    {
      if cfg.wrapped {
        chargePower := meter.CurrentPower();
      } else if power.Some? {
        chargePower := power.value;
      }
    }

    method UpdateChargeCurrents(currents: Option<(real, real, real)>)
      modifies this
      ensures View() == Control.UpdateChargeCurrents(cfg, old(View()), currents)
    {
      chargeCurrents := None;
      if cfg.wrapped || !cfg.currents {
        if status == StatusC && chargeCurrent > 0.0 {
          var guess := Round(chargePower / cfg.voltage / chargeCurrent);
          if 1 <= guess <= 3 {
            activePhases := guess;
          }
        }
        return;
      }
      if currents.None? {
        return;
      }
      chargeCurrents := currents;
      if status == StatusC {
        var i := [currents.value.0, currents.value.1, currents.value.2];
        var active := 0;
        for k := 0 to 3
          invariant active == (if k > 0 && i[0] >= 1.0 then 1 else 0)
                            + (if k > 1 && i[1] >= 1.0 then 1 else 0)
                            + (if k > 2 && i[2] >= 1.0 then 1 else 0)
        {
          if i[k] >= 1.0 {
            active := active + 1;
          }
        }
        assert active == CountActive(currents.value);
        if active >= 1 {
          activePhases := active;
        }
      }
    }

    method SetMode(mode: ChargeMode)
      modifies this
      ensures View() == Control.SetMode(cfg, old(View()), mode)
      ensures old(Valid()) ==> Valid()
    {
      if this.mode != mode {
        this.mode := mode;
        ElapsePVTimer();
      }
      if old(Valid()) { Runs.SetModeKeepsAll(cfg, old(View()), mode); }
    }

    method SetTargetSoC(soc: int)
      modifies this
      ensures View() == Control.SetTargetSoC(old(View()), soc)
      ensures old(Valid()) ==> Valid()
    {
      if vehicle.Some? {
        targetSoC := soc;
      }
      if old(Valid()) { Runs.Irrelevant(cfg, old(View()), View()); }
    }

    method SetMinSoC(soc: int)
      modifies this
      ensures View() == Control.SetMinSoC(old(View()), soc)
      ensures old(Valid()) ==> Valid()
    {
      if vehicle.Some? {
        minSoC := soc;
      }
      if old(Valid()) { Runs.Irrelevant(cfg, old(View()), View()); }
    }

    method ApplyAction(action: Action)
      modifies this
      ensures View() == Control.ApplyAction(cfg, old(View()), action)
    {
      if action.mode != ModeEmpty && mode != ModeEmpty {
        SetMode(action.mode);
      }
      if action.targetSoC != 0 {
        SetTargetSoC(action.targetSoC);
      }
    }

    // The handlers of one bus event each, in the order of their subscription
    method OnConnect()
      modifies this, timer
      ensures View() == Control.OnConnect(cfg, old(View()))
      ensures timer.View() == old(timer.View()).StartCharge(now as real, false)
    {
      timer.StartCharge(false, now);
      history := Then(history, now, Bus(Connect));
      vehicleConnected := Some(now);
      ElapsePVTimer();
    }

    method OnStart()
      modifies this, timer
      ensures View() == Log(old(View()), Bus(Start))
      ensures timer.View() == old(timer.View()).StartCharge(now as real, true)
    {
      timer.StartCharge(true, now);
      history := Then(history, now, Bus(Start));
    }

    method OnStop()
      modifies this, meter, timer
      ensures View() == Control.OnStop(cfg, old(View()))
      ensures timer.View() == old(timer.View()).StopCharge(now as real)
    {
      if cfg.wrapped {
        meter.SetPower(0.0);
      }
      timer.StopCharge(now);
      history := Then(history, now, Bus(Stop));
    }

    method OnDisconnect()
      modifies this
      ensures View() == Control.OnDisconnect(cfg, old(View()))
    {
      history := Then(history, now, Bus(Disconnect));
      if |cfg.vehicles| > 1 {
        vehicle := None;
      }
      ApplyAction(cfg.onDisconnect);
    }

    method UpdateChargerStatus(status: ChargeStatus)
      modifies this, meter, timer
      ensures View() == Control.UpdateChargerStatus(cfg, old(View()), status)
      ensures timer.View() == Driven(old(timer.View()), old(this.status), status, old(now) as real)
    {
      var prev := this.status;
      if status != prev {
        this.status := status;
        assert View() == ShowStatus(old(View()), status);
        if prev == StatusA {
          OnConnect();
        }
        if status == StatusC {
          OnStart();
        } else if prev == StatusC {
          OnStop();
        }
        if status == StatusA {
          OnDisconnect();
        }
        PublishCurrent(chargeCurrent);
      }
    }

    method IdentifyByCharger(inp: Inputs)
      modifies this
      ensures View() == Control.IdentifyByCharger(cfg, old(View()), inp)
    {
      if inp.identity.None? || inp.identity.value == vehicleID {
        return;
      }
      var id := inp.identity.value;
      vehicleID := id;
      assert View() == NoteID(old(View()), id);
      if id != "" {
        if inp.known.Some? {
          vehicle := inp.known;
          assert View() == SeeVehicle(NoteID(old(View()), id), inp.known);
        }
        if id in cfg.onIdentify {
          ApplyAction(cfg.onIdentify[id]);
        }
      }
    }

    method IdentifyByStatus(inp: Inputs)
      modifies this
      ensures View() == Control.IdentifyByStatus(cfg, old(View()), inp)
    {
      if |cfg.vehicles| > 1 && vehicleConnected.Some? && now - vehicleConnected.value < DETECT_DURATION {
        if inp.pick.Some? {
          vehicle := inp.pick;
          return;
        }
        if vehicle.Some? && vehicle.value.stateful {
          vehicle := None;
        }
      }
    }

    // Identification while connected, then the SoC if it is polled
    method UpdateVehicle(inp: Inputs)
      modifies this
      ensures View() == Control.UpdateVehicle(cfg, old(View()), inp)
    {
      if status == StatusB || status == StatusC {
        IdentifyByCharger(inp);
        IdentifyByStatus(inp);
      }
      if vehicle.Some? && inp.soc.Some? {
        vehicleSoc := Trunc(inp.soc.value);
      }
    }

    method SyncCharger(enabled: Option<bool>, ok: bool)
      modifies this
      ensures View() == Control.SyncCharger(old(View()), enabled, ok)
    {
      if enabled.Some? && enabled.value != this.enabled {
        history := Then(history, now, SyncSent(this.enabled, ok));
      }
    }

    method ChargeFull(inp: Inputs)
      modifies this, meter
      ensures View() == Control.ChargeFull(cfg, old(View()), inp)
    {
      var outcome := ScalePhases(3, false, inp.scale);
      if outcome != Failed {
        var _ := SetLimit(maxCurrent, true, inp.limit);
      }
    }

    method ChargePV(mode: ChargeMode, inp: Inputs)
      requires mode.ModeMinPV? || mode.ModePV?
      modifies this, meter
      ensures View() == Control.ChargePV(cfg, old(View()), mode, inp)
    {
      var target := PvMaxCurrent(mode, inp.sitePower, inp.scale);
      var required := false;
      if target == 0.0 && vehicle.Some? && inp.climate {
        target := maxCurrent;
        required := true;
      }
      if inp.cheap {
        target := maxCurrent;
        required := true;
      }
      if remoteDemand == RemoteSoftDisable {
        target := 0.0;
        required := true;
      }
      var _ := SetLimit(target, required, inp.limit);
    }

    method Strategy(mode: ChargeMode, inp: Inputs)
      modifies this, meter
      ensures View() == Control.Strategy(cfg, old(View()), mode, inp)
    {
      if !(status == StatusB || status == StatusC) {
        var _ := SetLimit(0.0, false, inp.limit);
      } else if vehicle.Some? && targetSoC > 0 && targetSoC < 100 && vehicleSoc >= targetSoC as real {
        var target := 0.0;
        if inp.climate {
          target := minCurrent;
        }
        var _ := SetLimit(target, true, inp.limit);
      } else if remoteDemand == RemoteHardDisable || mode == ModeOff {
        var _ := SetLimit(0.0, true, inp.limit);
      } else {
        ByMode(mode, inp);
      }
    }

    // The strategies that charge
    method ByMode(mode: ChargeMode, inp: Inputs)
      modifies this, meter
      ensures View() == Control.ByMode(cfg, old(View()), mode, inp)
    {
      if vehicle.Some? && minSoC > 0 && vehicleSoc < minSoC as real {
        ChargeFull(inp);
        ElapsePVTimer();
      } else if mode == ModeNow {
        ChargeFull(inp);
      } else if mode == ModeMinPV || mode == ModePV {
        ChargePV(mode, inp);
      }
    }

    method Respond(status: ChargeStatus, mode: ChargeMode, inp: Inputs)
      modifies this, meter, timer
      ensures View() == Control.Respond(cfg, old(View()), status, mode, inp)
      ensures timer.View() == Driven(old(timer.View()), old(this.status), status, old(now) as real)
    {
      UpdateChargerStatus(status);
      UpdateVehicle(inp);
      SyncCharger(inp.enabled, inp.syncOk);
      Strategy(mode, inp);
    }

    method ReadMeters(inp: Inputs)
      modifies this, meter
      ensures View() == Control.ReadMeters(cfg, old(View()), inp)
      ensures status == old(status) && now == old(now) && mode == old(mode)
    {
      UpdateChargePower(inp.power);
      UpdateChargeCurrents(inp.currents);
      PublishCurrent(chargeCurrent);
    }

    method Update(inp: Inputs)
      modifies this, meter, timer
      ensures View() == Control.Update(cfg, old(View()), inp)
      ensures timer.View() ==
        if inp.status.None? then old(timer.View())
        else Driven(old(timer.View()), old(status), inp.status.value, old(now) as real)
      ensures old(Valid()) ==> Valid()
    {
      var mode := this.mode;
      ReadMeters(inp);
      if inp.status.Some? {
        Respond(inp.status.value, mode, inp);
      }
      if old(Valid()) {
        Runs.UpdateKeeps(cfg, old(View()), inp);
        if inp.status.Some? {
          AfterTransition(ClockReading, BusTrace(old(history)), old(now), old(status), inp.status.value);
        }
      }
    }

    method SetPhases(phases: int, reply: ScaleReply) returns (outcome: Outcome)
      modifies this, meter
      ensures (View(), outcome) == Control.ScalePhases(cfg, old(View()), phases, false, reply)
      ensures old(Valid()) ==> Valid()
    {
      outcome := ScalePhases(phases, false, reply);
      if old(Valid()) { Runs.ScalePhasesKeeps(cfg, old(View()), phases, false, reply); }
    }

    method RemoteControl(demand: RemoteDemand)
      modifies this
      ensures View() == old(View()).(remoteDemand := demand)
      ensures old(Valid()) ==> Valid()
    {
      remoteDemand := demand;
      if old(Valid()) { Runs.Irrelevant(cfg, old(View()), View()); }
    }

    method SetMinCurrent(current: real)
      modifies this
      ensures View() == old(View()).(minCurrent := current)
      ensures old(Valid()) && current > 0.0 ==> Valid()
    {
      minCurrent := current;
      if old(Valid()) && current > 0.0 { Runs.Irrelevant(cfg, old(View()), View()); }
    }

    method SetMaxCurrent(current: real)
      modifies this
      ensures View() == old(View()).(maxCurrent := current)
      ensures old(Valid()) ==> Valid()
    {
      maxCurrent := current;
      if old(Valid()) { Runs.Irrelevant(cfg, old(View()), View()); }
    }

    // The part of Prepare that takes over the enabled state of the charger
    method Adopt(on: bool)
      modifies this
      ensures View() == Control.Adopt(old(View()), on)
    {
      enabled := on;
      if on {
        guardUpdated := Some(now);
      }
      history := Then(history, now, Adopted(on));
    }

    method Prepare(enabled: Option<bool>, reply: Reply)
      modifies this, meter
      ensures View() == Control.Prepare(cfg, old(View()), enabled, reply)
    {
      activePhases := phases;
      if |cfg.vehicles| == 1 {
        vehicle := Some(cfg.vehicles[0]);
      }
      if |cfg.vehicles| > 1 {
        vehicleConnected := Some(now);
      }
      assert View() == AssumeAllPhases(cfg, old(View()));
      if enabled.Some? {
        Adopt(enabled.value);
        if enabled.value {
          var _ := SetLimit(minCurrent, false, reply);
        }
      }
    }

    // A new loadpoint with a new timer is valid once prepared.
    lemma PreparedIsValid(s: State, enabled: Option<bool>, reply: Reply)
      requires Runs.Fresh(cfg, s) && s.minCurrent > 0.0
      requires View() == Control.Prepare(cfg, s, enabled, reply) && timer.View() == IDLE
      ensures Valid()
    {
      Runs.PrepareEstablishes(cfg, s, enabled, reply);
    }
  }
}

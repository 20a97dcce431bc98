// What it costs that the loadpoint may not know the charger's state. It takes a charger that cannot
// be read to be off. syncCharger repeats the expected state to a charger that reports another one,
// ignores a refusal and does not begin the guard.
module OutOfSync {
  import opened Base
  import opened Api
  import opened History
  import opened Control
  import opened Runs
  import opened Safety
  import opened Outcomes

  // On the way from `base` the phases were switched without knowing that the charger is off.
  predicate SwitchedUnsure(h: History, base: History) {
    h != base && h.Then? && ((h.event.PhasesSent? && Unsure(h.past)) || SwitchedUnsure(h.past, base))
  }

  // scalePhases switches the phases without knowing that the charger is off exactly when the
  // loadpoint takes it to be off already, and it never reported or acknowledged anything or the last
  // command was a repeated switch-off that it refused. When the loadpoint takes it to be on, its own
  // switch-off must succeed first.
  lemma SwitchesUnsureExactly(cfg: Config, s: State, phases: PhaseSetting, pv: bool, reply: ScaleReply)
    requires Inv(cfg, s) && cfg.switchable && s.phases != phases
    ensures SwitchedUnsure(ScalePhases(cfg, s, phases, pv, reply).0.history, s.history) <==>
      !s.enabled && (AckedState(s.history).None? || SyncRefused(s.history))
  {
    ForcedOff(cfg, s, reply.limit);
    OnlySyncPends(cfg, s);
    ThreeStates(AckedState(s.history));
    var (s1, ok) := SetLimit(cfg, s, 0.0, true, reply.limit);
    OffSendsOne(cfg, s, reply.limit);
    if ok {
      SwitchTrace(cfg, s1, phases, pv, reply.phasesOk, s.history);
    }
  }

  lemma OffSendsOne(cfg: Config, s: State, reply: Reply)
    requires Inv(cfg, s)
    ensures var (s1, ok) := SetLimit(cfg, s, 0.0, true, reply);
      && !SwitchedUnsure(s1.history, s.history)
      && (s1.history == s.history || (s1.history.Then? && s1.history.past == s.history))
      && (s.enabled && ok ==> AckedState(s1.history) == Some(false))
  {
  }

  lemma SwitchTrace(cfg: Config, s: State, phases: PhaseSetting, pv: bool, ok: bool, base: History)
    requires s.history == base || (s.history.Then? && s.history.past == base)
    ensures SwitchedUnsure(SwitchPhases(cfg, s, phases, pv, ok).0.history, base) <==>
      Unsure(s.history) || SwitchedUnsure(s.history, base)
  {
    var h := Then(s.history, s.now, PhasesSent(phases, pv, ok));
    LongerDiffers(base, h);
    LongerDiffers(base, Then(h, s.now, Elapsed));
  }

  function Length(h: History): nat {
    match h case Empty => 0 case Then(past, _, _) => 1 + Length(past)
  }

  lemma LongerDiffers(a: History, b: History)
    ensures Length(a) != Length(b) ==> a != b
  {
  }

  // What one update brings when the charger cooperates with setLimit and scalePhases, and nothing is
  // known of any vehicle: the status and the enabled state the charger reports, and whether it
  // takes the state repeated to it.
  function Reported(status: ChargeStatus, enabled: bool, syncOk: bool): Inputs {
    Inputs(0.0, false, None, None, Some(status), None, None, None, None, Some(enabled), syncOk, false,
           ScaleReply(Reply(true, true), true), Reply(true, true))
  }

  // Neither meters nor a vehicle intervene.
  predicate Plain(cfg: Config, s: State) {
    !cfg.wrapped && !cfg.currents && |cfg.vehicles| != 1 && s.vehicle.None?
  }

  lemma OneStep(cfg: Config, s: State, step: Step)
    ensures Run(cfg, s, [step]) == StepOnce(cfg, s, step)
  {
    assert [step][..0] == [];
    assert Run(cfg, s, []) == s;
  }

  // A run that switches the phases of a charger that has just reported to be on and refused to be
  // switched off.
  lemma RefusedThenSwitched(cfg: Config, s: State)
    requires Fresh(cfg, s) && Plain(cfg, s) && s.mode.ModeNow? && s.remoteDemand.RemoteEnable?
    requires cfg.switchable && cfg.phases == 1 && 0.0 < s.minCurrent
    ensures var h := RunFrom(cfg, s, None, Reply(true, true), [Step(0, DoUpdate(Reported(StatusB, true, false)))]).history;
      Passed(h, Then(Then(Empty, s.now, SyncSent(false, false)), s.now, PhasesSent(3, false, true)))
  {
    var inp := Reported(StatusB, true, false);
    var s1 := Prepare(cfg, s, None, Reply(true, true));
    OneStep(cfg, s1, Step(0, DoUpdate(inp)));
    var s2 := UpdateVehicle(cfg, UpdateChargerStatus(cfg, ReadMeters(cfg, Wait(s1, 0), inp), StatusB), inp);
    assert s2.history == Empty && !s2.enabled && s2.vehicle.None? && s2.phases == 1;
    var s3 := SyncCharger(s2, inp.enabled, false);
    assert s3.history == Then(Empty, s.now, SyncSent(false, false));
    var (s4, outcome) := ScalePhases(cfg, s3, 3, false, inp.scale);
    var h := Then(s3.history, s.now, PhasesSent(3, false, true));
    assert s4.history == Then(h, s.now, Elapsed);
    LimitAppends(cfg, s4, s4.maxCurrent, true, inp.limit, h);
  }

  // A run that switches the phases of a charger that was never read: neither start-up nor the first
  // update learns its state, and mode Now asks for three phases.
  lemma NeverReadThenSwitched(cfg: Config, s: State)
    requires Fresh(cfg, s) && Plain(cfg, s) && s.mode.ModeNow? && s.remoteDemand.RemoteEnable?
    requires cfg.switchable && cfg.phases == 1 && 0.0 < s.minCurrent
    ensures var h := RunFrom(cfg, s, None, Reply(true, true), [Step(0, DoUpdate(Unread(StatusB)))]).history;
      AckedState(Empty).None? && Passed(h, Then(Empty, s.now, PhasesSent(3, false, true)))
  {
    var inp := Unread(StatusB);
    var s1 := Prepare(cfg, s, None, Reply(true, true));
    OneStep(cfg, s1, Step(0, DoUpdate(inp)));
    var s2 := SyncCharger(UpdateVehicle(cfg, UpdateChargerStatus(cfg, ReadMeters(cfg, Wait(s1, 0), inp), StatusB), inp), None, true);
    assert s2.history == Empty && !s2.enabled && s2.vehicle.None? && s2.phases == 1;
    var (s3, outcome) := ScalePhases(cfg, s2, 3, false, inp.scale);
    var h := Then(Empty, s.now, PhasesSent(3, false, true));
    assert s3.history == Then(h, s.now, Elapsed);
    LimitAppends(cfg, s3, s3.maxCurrent, true, inp.limit, h);
  }

  // The same by an API call straight after start-up
  lemma NeverReadThenSet(cfg: Config, s: State, reply: ScaleReply)
    requires Fresh(cfg, s) && cfg.switchable && cfg.phases == 1 && 0.0 < s.minCurrent
    ensures Passed(RunFrom(cfg, s, None, Reply(true, true), [Step(0, DoSetPhases(3, reply))]).history,
                   Then(Empty, s.now, PhasesSent(3, false, reply.phasesOk)))
  {
    OneStep(cfg, Prepare(cfg, s, None, Reply(true, true)), Step(0, DoSetPhases(3, reply)));
  }

  // As Reported, but the charger cannot tell whether it is enabled.
  function Unread(status: ChargeStatus): Inputs {
    Reported(status, false, true).(enabled := None)
  }

  lemma LimitAppends(cfg: Config, s: State, current: real, force: bool, reply: Reply, g: History)
    requires Passed(s.history, g)
    ensures Passed(SetLimit(cfg, s, current, force, reply).0.history, g)
  {
    var (s1, sent, ok) := SendLimit(cfg, s, current, reply);
    assert s1.history == s.history || (s1.history.Then? && s1.history.past == s.history);
    if ok { EnableAppends(cfg, s1, sent, force, reply.enableOk, g); }
  }

  lemma EnableAppends(cfg: Config, s: State, current: real, force: bool, ok: bool, g: History)
    requires Passed(s.history, g)
    ensures Passed(SendEnable(cfg, s, current, force, ok).0.history, g)
  {
    var s1 := SendEnable(cfg, s, current, force, ok).0;
    assert s1.history == s.history || (s1.history.Then? && s1.history.past == s.history);
  }

  // A run that switches the charger on and off at one instant, unforced and with the guard never
  // lifted: the charger was off though expected on, syncCharger switches it on, and without a
  // vehicle setLimit switches it off.
  lemma SwitchedTwiceAtOnce(cfg: Config, s: State) returns (past: History)
    requires Fresh(cfg, s) && Plain(cfg, s) && Sane(cfg, s.minCurrent, s.maxCurrent)
    requires cfg.guard >= 0 && cfg.onDisconnect.mode == ModeEmpty
    ensures var steps := [Step(cfg.guard, DoUpdate(Reported(StatusA, false, true)))];
      var at := s.now + cfg.guard;
      var on := Then(past, at, SyncSent(true, true));
      && LastChange(on) == Some(at)
      && Passed(RunFrom(cfg, s, Some(true), Reply(true, true), steps).history,
                Then(on, at, EnableSent(false, false, s.minCurrent, s.maxCurrent, true)))
  {
    var inp := Reported(StatusA, false, true);
    var s1 := Prepare(cfg, s, Some(true), Reply(true, true));
    StartsOn(cfg, s);
    OneStep(cfg, s1, Step(cfg.guard, DoUpdate(inp)));
    SwitchedTwice(cfg, Wait(s1, cfg.guard), inp);
    past := UpdateVehicle(cfg, UpdateChargerStatus(cfg, ReadMeters(cfg, Wait(s1, cfg.guard), inp), StatusA), inp).history;
  }

  lemma SwitchedTwice(cfg: Config, s: State, inp: Inputs)
    requires Plain(cfg, s) && inp == Reported(StatusA, false, true) && cfg.onDisconnect.mode == ModeEmpty
    requires s.enabled && s.status.StatusNone? && s.guardUpdated.Some? && s.now - s.guardUpdated.value == cfg.guard
    requires s.minCurrent > 0.0
    ensures var s1 := UpdateVehicle(cfg, UpdateChargerStatus(cfg, ReadMeters(cfg, s, inp), StatusA), inp);
      Update(cfg, s, inp).history ==
        Then(Then(s1.history, s.now, SyncSent(true, true)), s.now, EnableSent(false, false, s.minCurrent, s.maxCurrent, true))
  {
    var s1 := UpdateVehicle(cfg, UpdateChargerStatus(cfg, ReadMeters(cfg, s, inp), StatusA), inp);
    UnpluggedState(cfg, s, inp);
    var s2 := SyncCharger(s1, inp.enabled, true);
    assert s2.history == Then(s1.history, s.now, SyncSent(true, true));
    assert Update(cfg, s, inp) == SetLimit(cfg, s2, 0.0, false, inp.limit).0;
  }

  lemma UnpluggedState(cfg: Config, s: State, inp: Inputs)
    requires Plain(cfg, s) && inp == Reported(StatusA, false, true) && cfg.onDisconnect.mode == ModeEmpty
    requires s.status.StatusNone?
    ensures var s1 := UpdateVehicle(cfg, UpdateChargerStatus(cfg, ReadMeters(cfg, s, inp), StatusA), inp);
      && s1.enabled == s.enabled && s1.guardUpdated == s.guardUpdated && s1.now == s.now && s1.status.StatusA?
      && s1.minCurrent == s.minCurrent && s1.maxCurrent == s.maxCurrent
  {
  }

  lemma StartsOn(cfg: Config, s: State)
    requires Fresh(cfg, s) && Plain(cfg, s) && Sane(cfg, s.minCurrent, s.maxCurrent)
    ensures var s1 := Prepare(cfg, s, Some(true), Reply(true, true));
      && s1.enabled && s1.guardUpdated == Some(s.now) && s1.status.StatusNone? && s1.now == s.now
      && s1.minCurrent == s.minCurrent && s1.maxCurrent == s.maxCurrent && s1.vehicle.None?
  {
    var s0 := Adopt(AssumeAllPhases(cfg, s), true);
    SentInRange(cfg, s0, s.minCurrent);
    assert Prepare(cfg, s, Some(true), Reply(true, true)) == SetLimit(cfg, s0, s.minCurrent, false, Reply(true, true)).0;
  }

  // In general: after syncCharger has switched the charger, an unforced setLimit switches it back at
  // once if and only if the guard did not hold before.
  lemma SwitchedBackExactly(cfg: Config, s: State, current: real)
    requires Sane(cfg, s.minCurrent, s.maxCurrent)
    requires current == 0.0 || s.minCurrent <= current <= s.maxCurrent
    requires s.enabled != (current != 0.0)
    ensures var s1 := SyncCharger(s, Some(!s.enabled), true);
      && LastChange(s1.history) == Some(s.now)
      && (SetLimit(cfg, s1, current, false, Reply(true, true)).0.enabled != s.enabled <==> GuardRemaining(cfg, s) <= 0)
  {
    UnforcedLimit(cfg, SyncCharger(s, Some(!s.enabled), true), current);
  }
}

// The hysteresis of pvScalePhases as a whole: constant power never makes it oscillate.
module Hysteresis {
  import opened Base
  import opened History
  import opened Control
  import opened Runs

  // One call of pvScalePhases: the time before it, the active phases detected by then and what
  // the charger answers.
  datatype Probe = Probe(wait: nat, active: ActivePhases, reply: ScaleReply)

  function Detect(s: State, probe: Probe): State {
    s.(now := s.now + probe.wait, activePhases := probe.active)
  }

  function ProbeOnce(cfg: Config, s: State, power: real, probe: Probe): (State, bool) {
    PvScalePhases(cfg, Detect(s, probe), power, probe.reply)
  }

  // The number of switches a series of calls makes.
  function Switches(cfg: Config, s: State, power: real, probes: seq<Probe>): nat
    decreases |probes|
  {
    if probes == [] then 0
    else
      var (s1, switched) := ProbeOnce(cfg, s, power, probes[0]);
      (if switched then 1 else 0) + Switches(cfg, s1, power, probes[1..])
  }

  // Enough power for three phases at the minimum current
  predicate Ample(cfg: Config, s: State, power: real) {
    power >= 3.0 * cfg.voltage * s.minCurrent
  }

  lemma DivideBy(a: real, b: real, c: real)
    requires b > 0.0
    ensures a / b >= c <==> a >= b * c
  {
    assert (a / b) * b == a;
    if a / b >= c {
      assert (a / b - c) * b >= 0.0;
    } else {
      assert (c - a / b) * b > 0.0;
    }
  }

  lemma WishFollowsPower(cfg: Config, s: State, power: real)
    requires s.minCurrent > 0.0
    ensures var wish := WishOf(cfg, power, s.activePhases, s.phases, s.minCurrent);
      && (wish.Up? ==> Ample(cfg, s, power) && s.phases == 1)
      && (wish.Down? ==> !Ample(cfg, s, power) && s.phases == 3)
  {
    var n := s.activePhases as real;
    DivideBy(power, 3.0 * cfg.voltage, s.minCurrent);
    DivideBy(power / cfg.voltage, n, s.minCurrent);
    DivideBy(power, cfg.voltage, n * s.minCurrent);
    assert cfg.voltage * (n * s.minCurrent) == n * (cfg.voltage * s.minCurrent);
    assert 3.0 * cfg.voltage * s.minCurrent == 3.0 * (cfg.voltage * s.minCurrent);
    assert cfg.voltage * s.minCurrent > 0.0;
  }

  predicate Effect(cfg: Config, s: State, power: real, s1: State, switched: bool) {
    && s1.minCurrent == s.minCurrent
    && (if switched then s.phases == (if Ample(cfg, s, power) then 1 else 3) && s1.phases != s.phases
        else s1.phases == s.phases)
  }

  // How many switches are left to make
  function Budget(cfg: Config, s: State, power: real): nat {
    if (s.phases == 3) == Ample(cfg, s, power) then 0 else 1
  }

  lemma EffectSpends(cfg: Config, s: State, power: real, s1: State, switched: bool)
    requires Effect(cfg, s, power, s1, switched)
    ensures (if switched then 1 else 0) + Budget(cfg, s1, power) <= Budget(cfg, s, power)
  {
  }

  // A call either leaves the phase setting or turns it to where the power points.
  lemma ProbeEffect(cfg: Config, s: State, power: real, probe: Probe)
    requires s.minCurrent > 0.0
    ensures Effect(cfg, s, power, ProbeOnce(cfg, s, power, probe).0, ProbeOnce(cfg, s, power, probe).1)
  {
    var s0 := Detect(s, probe);
    WishFollowsPower(cfg, s0, power);
    var (s1, wish, due) := Judge(cfg, s0, power);
    ScaleEffect(cfg, s1, if wish.Down? then 1 else 3, true, probe.reply);
  }

  lemma ScaleEffect(cfg: Config, s: State, phases: int, pv: bool, reply: ScaleReply)
    ensures var (s1, outcome) := ScalePhases(cfg, s, phases, pv, reply);
      && s1.minCurrent == s.minCurrent
      && (if outcome == Done then s1.phases == phases else s1.phases == s.phases)
  {
    SetLimitFrame(cfg, s, 0.0, true, reply.limit);
  }

  // Under constant power and minimum current, any series of calls, at any times and with any
  // detected phases in between, switches at most once, and not at all if the setting already
  // suits the power.
  lemma {:induction false} AtMostOneSwitch(cfg: Config, s: State, power: real, probes: seq<Probe>)
    requires s.minCurrent > 0.0
    ensures Switches(cfg, s, power, probes) <= Budget(cfg, s, power) <= 1
    decreases |probes|
  {
    if probes != [] {
      var (s1, switched) := ProbeOnce(cfg, s, power, probes[0]);
      ProbeEffect(cfg, s, power, probes[0]);
      EffectSpends(cfg, s, power, s1, switched);
      AtMostOneSwitch(cfg, s1, power, probes[1..]);
    }
  }

  // ---------------------------------------------------------------- switching does happen

  // The power asks for three phases if it suffices for the minimum current on three, and for one if
  // it does not suffice on those that are active.
  lemma WishesExactly(cfg: Config, power: real, active: ActivePhases, phases: PhaseSetting, lo: real)
    ensures var wish := WishOf(cfg, power, active, phases, lo);
      && (wish == Up <==> phases == 1 && power >= 3.0 * cfg.voltage * lo)
      && (wish == Down <==> phases == 3 && active > 1 && power < active as real * cfg.voltage * lo)
  {
    var n := active as real;
    DivideBy(power, 3.0 * cfg.voltage, lo);
    DivideBy(power / cfg.voltage, n, lo);
    DivideBy(power, cfg.voltage, n * lo);
    assert cfg.voltage * (n * lo) == n * cfg.voltage * lo;
  }

  predicate Cooperates(reply: ScaleReply) { reply.limit.enableOk && reply.phasesOk }

  // The power asks for a switch of the configured phases.
  predicate Asks(cfg: Config, s: State, power: real, active: ActivePhases) {
    if s.phases == 1 then power >= 3.0 * cfg.voltage * s.minCurrent
    else active > 1 && power < active as real * cfg.voltage * s.minCurrent
  }

  // A cooperating charger is switched exactly when the power asks for it and has been waited on for
  // Disable.Delay. After that the other number of phases is configured, and the charger is off.
  lemma SwitchExactly(cfg: Config, s: State, power: real, reply: ScaleReply)
    requires cfg.switchable && s.minCurrent > 0.0 && Cooperates(reply)
    ensures var (s1, switched) := PvScalePhases(cfg, s, power, reply);
      var since := if s.phaseTimer.None? then s.now else s.phaseTimer.value;
      && (switched <==> Asks(cfg, s, power, s.activePhases) && s.now - since >= cfg.disable.delay)
      && (switched ==> s1.phases == 4 - s.phases && !s1.enabled && s1.phaseTimer.None?)
      && (switched && s1.phases == 1 ==> s1.activePhases == 1)
      && (!switched ==> s1.phases == s.phases)
      && (!switched ==> s1.phaseTimer == (if Asks(cfg, s, power, s.activePhases) then Some(since) else None))
  {
    WishesExactly(cfg, power, s.activePhases, s.phases, s.minCurrent);
    var (s1, wish, due) := Judge(cfg, s, power);
    if due { ScaleSucceeds(cfg, s1, if wish.Down? then 1 else 3, true, reply); }
  }

  lemma ScaleSucceeds(cfg: Config, s: State, phases: PhaseSetting, pv: bool, reply: ScaleReply)
    requires cfg.switchable && s.minCurrent > 0.0 && Cooperates(reply) && s.phases != phases
    ensures var (s1, outcome) := ScalePhases(cfg, s, phases, pv, reply);
      outcome == Done && s1.phases == phases && !s1.enabled && s1.phaseTimer.None?
  {
    SetLimitFrame(cfg, s, 0.0, true, reply.limit);
  }

  function Elapses(probes: seq<Probe>): nat {
    if probes == [] then 0 else probes[0].wait + Elapses(probes[1..])
  }

  // At every call the charger cooperates and the power asks for a switch.
  predicate Insists(cfg: Config, s: State, power: real, probes: seq<Probe>) {
    forall i :: 0 <= i < |probes| ==> Cooperates(probes[i].reply) && Asks(cfg, s, power, probes[i].active)
  }

  lemma SwitchesNext(cfg: Config, s: State, power: real, probes: seq<Probe>)
    requires probes != []
    ensures Switches(cfg, s, power, probes) ==
      (if ProbeOnce(cfg, s, power, probes[0]).1 then 1 else 0)
      + Switches(cfg, ProbeOnce(cfg, s, power, probes[0]).0, power, probes[1..])
  {
  }

  // The timer is running, and the calls go on long enough.
  lemma {:induction false} WaitingSwitches(cfg: Config, s: State, power: real, probes: seq<Probe>)
    requires cfg.switchable && s.minCurrent > 0.0 && Insists(cfg, s, power, probes) && probes != []
    requires s.phaseTimer.Some? && s.now - s.phaseTimer.value + Elapses(probes) >= cfg.disable.delay
    ensures Switches(cfg, s, power, probes) >= 1
    decreases |probes|
  {
    var s0 := Detect(s, probes[0]);
    SwitchExactly(cfg, s0, power, probes[0].reply);
    var (s1, switched) := ProbeOnce(cfg, s, power, probes[0]);
    ProbeEffect(cfg, s, power, probes[0]);
    ProbeTime(cfg, s, power, probes[0]);
    if !switched {
      assert Insists(cfg, s1, power, probes[1..]);
      WaitingSwitches(cfg, s1, power, probes[1..]);
    }
  }

  lemma ProbeTime(cfg: Config, s: State, power: real, probe: Probe)
    ensures ProbeOnce(cfg, s, power, probe).0.now == s.now + probe.wait
  {
    PvScaleFrame(cfg, Detect(s, probe), power, probe.reply);
  }

  // Constant power that asks for a switch at every call, to a charger that cooperates, gets exactly
  // one if the calls go on for Disable.Delay after the first.
  lemma LongEnoughSwitchesOnce(cfg: Config, s: State, power: real, probes: seq<Probe>)
    requires cfg.switchable && s.minCurrent > 0.0 && probes != [] && Insists(cfg, s, power, probes)
    requires s.phaseTimer.Some? ==> s.phaseTimer.value <= s.now
    requires Elapses(probes[1..]) >= cfg.disable.delay
    ensures Switches(cfg, s, power, probes) == 1
  {
    AtMostOneSwitch(cfg, s, power, probes);
    FirstProbe(cfg, s, power, probes[0]);
    SwitchesNext(cfg, s, power, probes);
    if !ProbeOnce(cfg, s, power, probes[0]).1 {
      RestSwitches(cfg, s, ProbeOnce(cfg, s, power, probes[0]).0, power, probes);
    }
  }

  lemma RestSwitches(cfg: Config, s: State, s1: State, power: real, probes: seq<Probe>)
    requires cfg.switchable && s.minCurrent > 0.0 && probes != [] && Insists(cfg, s, power, probes)
    requires s1.phases == s.phases && s1.minCurrent == s.minCurrent
    requires s1.phaseTimer.Some? && s1.phaseTimer.value <= s1.now < s1.phaseTimer.value + cfg.disable.delay
    requires Elapses(probes[1..]) >= cfg.disable.delay
    ensures Switches(cfg, s1, power, probes[1..]) >= 1
  {
    assert Insists(cfg, s1, power, probes[1..]);
    WaitingSwitches(cfg, s1, power, probes[1..]);
  }

  // The first call switches or starts the timer.
  lemma FirstProbe(cfg: Config, s: State, power: real, probe: Probe)
    requires cfg.switchable && s.minCurrent > 0.0 && Cooperates(probe.reply) && Asks(cfg, s, power, probe.active)
    requires s.phaseTimer.Some? ==> s.phaseTimer.value <= s.now
    ensures var (s1, switched) := ProbeOnce(cfg, s, power, probe);
      !switched ==>
        && s1.phases == s.phases && s1.minCurrent == s.minCurrent
        && s1.phaseTimer.Some? && s1.phaseTimer.value <= s1.now < s1.phaseTimer.value + cfg.disable.delay
  {
    SwitchExactly(cfg, Detect(s, probe), power, probe.reply);
    ProbeEffect(cfg, s, power, probe);
    ProbeTime(cfg, s, power, probe);
  }
}

// What every run of a loadpoint guarantees. Throughout, `s` is a freshly configured loadpoint,
// `enabled` and `reply` are what the charger answers at start-up, and `steps` is any sequence of
// updates and API calls, with any waiting times and any failures.
module Safety {
  import opened Base
  import opened Api
  import opened History
  import opened Control
  import opened Events
  import opened Runs
  import opened Progress

  function RunFrom(cfg: Config, s: State, enabled: Option<bool>, reply: Reply, steps: seq<Step>): State {
    Run(cfg, Prepare(cfg, s, enabled, reply), steps)
  }

  predicate Starts(cfg: Config, s: State, steps: seq<Step>) {
    Fresh(cfg, s) && s.minCurrent > 0.0 && AllPermitted(steps)
  }

  lemma RunInvariant(cfg: Config, s: State, enabled: Option<bool>, reply: Reply, steps: seq<Step>)
    requires Starts(cfg, s, steps)
    ensures Inv(cfg, RunFrom(cfg, s, enabled, reply, steps))
  {
    PrepareEstablishes(cfg, s, enabled, reply);
    RunKeeps(cfg, Prepare(cfg, s, enabled, reply), steps);
  }

  // `g` is how the history stood at some moment of `h`.
  predicate Passed(h: History, g: History) {
    h == g || (h.Then? && Passed(h.past, g))
  }

  lemma {:induction false} PassedIsLawful(cfg: Config, h: History, g: History)
    requires Lawful(cfg, h) && Passed(h, g)
    ensures Lawful(cfg, g)
  {
    if h != g { PassedIsLawful(cfg, h.past, g); }
  }

  // The law held for every event of the run.
  lemma EveryEventLawful(cfg: Config, s: State, enabled: Option<bool>, reply: Reply, steps: seq<Step>,
                         past: History, at: Time, e: Event)
    requires Starts(cfg, s, steps)
    requires Passed(RunFrom(cfg, s, enabled, reply, steps).history, Then(past, at, e))
    ensures Lawful(cfg, Then(past, at, e)) && Law(cfg, past, at, e)
  {
    RunInvariant(cfg, s, enabled, reply, steps);
    PassedIsLawful(cfg, RunFrom(cfg, s, enabled, reply, steps).history, Then(past, at, e));
  }

  // ---------------------------------------------------------------- timers

  lemma {:induction false} ContradictionHoldsTimer(cfg: Config, h: History)
    requires Lawful(cfg, h) && Contradicted(cfg, h).Some?
    ensures h.Then? && Contradicted(cfg, h).value <= h.at
    ensures PvSince(cfg, h).Some? ==> PvSince(cfg, h).value >= Contradicted(cfg, h).value
  {
    if h.past.Then? && Contradicted(cfg, h) == Contradicted(cfg, h.past) {
      ContradictionHoldsTimer(cfg, h.past);
    }
  }

  // PV mode switches an enabled charger off, or a disabled one on, only when the delay has passed
  // since the last evaluation that spoke against it, unless the timer was deliberately elapsed.
  lemma PvChangeIsEarned(cfg: Config, past: History, at: Time, e: Event)
    requires Lawful(cfg, Then(past, at, e)) && e.PvDecided? && e.mode.ModePV? && 0.0 < e.lo <= e.hi
    requires Contradicted(cfg, past).Some?
    ensures e.enabled && e.result == 0.0 ==>
      DisableWanted(cfg, e) && at - Contradicted(cfg, past).value >= cfg.disable.delay
    ensures !e.enabled && e.result != 0.0 ==>
      EnableWanted(cfg, e) && at - Contradicted(cfg, past).value >= cfg.enable.delay
  {
    ContradictionHoldsTimer(cfg, past);
  }

  lemma {:induction false} SwitchRestartsWish(cfg: Config, h: History)
    requires Lawful(cfg, h) && LastSwitch(h).Some?
    ensures h.Then? && LastSwitch(h).value <= h.at
    ensures Wanted(cfg, h).Some? ==> Wanted(cfg, h).value.0 >= LastSwitch(h).value
  {
    if h.past.Then? && LastSwitch(h) == LastSwitch(h.past) {
      SwitchRestartsWish(cfg, h.past);
    }
  }

  // A PV phase switch falls due no sooner than Disable.Delay after the previous switch of any origin.
  lemma DueIsEarned(cfg: Config, past: History, at: Time, e: Event)
    requires Lawful(cfg, Then(past, at, e)) && e.PhaseJudged? && e.due
    ensures !WishOf(cfg, e.power, e.active, e.configured, e.lo).Stay?
    ensures LastSwitch(past).Some? ==> at - LastSwitch(past).value >= cfg.disable.delay
  {
    if LastSwitch(past).Some? {
      SwitchRestartsWish(cfg, past);
    }
  }

  // ... and that still holds when it is carried out.
  lemma {:induction false} JudgedIsEarned(cfg: Config, h: History)
    requires Lawful(cfg, h) && LastJudged(h).Some? && LastJudged(h).value.1.due
    ensures var (at, e) := LastJudged(h).value;
      && !WishOf(cfg, e.power, e.active, e.configured, e.lo).Stay?
      && (LastSwitch(h).Some? ==> at - LastSwitch(h).value >= cfg.disable.delay)
  {
    if h.event.PhaseJudged? {
      DueIsEarned(cfg, h.past, h.at, h.event);
    } else {
      JudgedIsEarned(cfg, h.past);
    }
  }

  // ---------------------------------------------------------------- what the run guarantees

  // Every current limit ever sent lay within the limits configured at that moment.
  lemma LimitsInRange(cfg: Config, s: State, enabled: Option<bool>, reply: Reply, steps: seq<Step>,
                      past: History, at: Time, e: Event)
    requires Starts(cfg, s, steps) && e.LimitSent? && Sane(cfg, e.lo, e.hi)
    requires Passed(RunFrom(cfg, s, enabled, reply, steps).history, Then(past, at, e))
    ensures e.lo <= e.current <= e.hi
  {
    EveryEventLawful(cfg, s, enabled, reply, steps, past, at, e);
  }

  // The guard dates from the last change that setLimit made.
  lemma {:induction false} GuardDatesFlips(cfg: Config, h: History)
    ensures LastFlip(h).Some? ==> GuardSince(cfg, h) == LastFlip(h)
  {
    if h.Then? { GuardDatesFlips(cfg, h.past); }
  }

  // Every enable command of setLimit was a change of the acknowledged state, an enable had an
  // acknowledged limit in range before it, and an unforced one came more than the guard time less a
  // second after the guard began, so after the previous change setLimit made. Changes that
  // syncCharger makes by repeating a command do not begin the guard: see module OutOfSync.
  lemma EnablesAreGuarded(cfg: Config, s: State, enabled: Option<bool>, reply: Reply, steps: seq<Step>,
                          past: History, at: Time, e: Event)
    requires Starts(cfg, s, steps) && e.EnableSent?
    requires Passed(RunFrom(cfg, s, enabled, reply, steps).history, Then(past, at, e))
    ensures e.on == (AckedState(past) != Some(true))
    ensures e.on && Sane(cfg, e.lo, e.hi) ==>
      AckedLimit(past).Some? && e.lo <= AckedLimit(past).value <= e.hi
    ensures !e.forced && GuardSince(cfg, past).Some? ==> at - GuardSince(cfg, past).value > cfg.guard - SECOND
    ensures !e.forced && LastFlip(past).Some? ==> at - LastFlip(past).value > cfg.guard - SECOND
  {
    EveryEventLawful(cfg, s, enabled, reply, steps, past, at, e);
    GuardDatesFlips(cfg, past);
  }

  // The phases are switched only while the charger is acknowledged to be off, but for two cases: it
  // never reported or acknowledged anything, or syncCharger repeated a disable that it refused.
  lemma PhasesSwitchWhileOff(cfg: Config, s: State, enabled: Option<bool>, reply: Reply, steps: seq<Step>,
                             past: History, at: Time, e: Event)
    requires Starts(cfg, s, steps) && e.PhasesSent?
    requires Passed(RunFrom(cfg, s, enabled, reply, steps).history, Then(past, at, e))
    ensures AckedState(past) != Some(true)
    ensures Unsure(past) <==> AckedState(past).None? || SyncRefused(past)
    ensures (e.phases == 1 || e.phases == 3) && e.phases != AckedPhases(cfg, past)
  {
    ThreeStates(AckedState(past));
    EveryEventLawful(cfg, s, enabled, reply, steps, past, at, e);
  }

  // Start and stop alternate, beginning with start; disconnect and connect alternate, beginning with
  // disconnect; and nothing starts or stops in between.
  lemma EventsAlternate(cfg: Config, s: State, enabled: Option<bool>, reply: Reply, steps: seq<Step>,
                        past: History, at: Time, e: Event)
    requires Starts(cfg, s, steps) && e.Bus?
    requires Passed(RunFrom(cfg, s, enabled, reply, steps).history, Then(past, at, e))
    ensures e.event == Start ==> !Charging(past)
    ensures e.event == Stop ==> Charging(past)
    ensures e.event == Disconnect || e.event == Connect ==> !Charging(past)
    ensures e.event == Connect <==> Unplugged(past)
  {
    EveryEventLawful(cfg, s, enabled, reply, steps, past, at, e);
  }

  // Whenever the power is weighed: a wish that is being waited on is confirmed or dropped, never
  // turned around, and a switch falls due exactly when it has stood for Disable.Delay.
  lemma PhaseWishesAreSteady(cfg: Config, s: State, enabled: Option<bool>, reply: Reply, steps: seq<Step>,
                             past: History, at: Time, e: Event)
    requires Starts(cfg, s, steps) && e.PhaseJudged?
    requires Passed(RunFrom(cfg, s, enabled, reply, steps).history, Then(past, at, e))
    ensures var wish := WishOf(cfg, e.power, e.active, e.configured, e.lo);
      var since := if Wanted(cfg, past).Some? then Wanted(cfg, past).value.0 else at;
      && (Wanted(cfg, past).Some? ==> wish.Stay? || wish == Wanted(cfg, past).value.1)
      && (e.due <==> !wish.Stay? && at - since >= cfg.disable.delay)
  {
    EveryEventLawful(cfg, s, enabled, reply, steps, past, at, e);
  }

  // At any moment the cached state is what the charger last acknowledged, and off, the configured
  // phases and no current until it has.
  lemma CachesAreTrue(cfg: Config, s: State, enabled: Option<bool>, reply: Reply, steps: seq<Step>)
    requires Starts(cfg, s, steps)
    ensures var s1 := RunFrom(cfg, s, enabled, reply, steps);
      && s1.enabled == (AckedState(s1.history) == Some(true))
      && s1.phases == AckedPhases(cfg, s1.history)
      && s1.chargeCurrent == (if AckedLimit(s1.history).Some? then AckedLimit(s1.history).value else 0.0)
      && (s1.status.StatusC? <==> Charging(s1.history))
      && (s1.status.StatusA? <==> Unplugged(s1.history))
      && s1.guardUpdated == GuardSince(cfg, s1.history)
      && s1.pvTimer == PvSince(cfg, s1.history)
      && s1.phaseTimer == (match Wanted(cfg, s1.history) case None => None case Some((since, _)) => Some(since))
  {
    RunInvariant(cfg, s, enabled, reply, steps);
  }

  // Which current PV control asked for in every run: in Min+PV mode the target within the limits, in
  // PV mode the target up to the maximum while enabled and not in deficit, else the minimum or none.
  lemma PvCurrentsExactly(cfg: Config, s: State, enabled: Option<bool>, reply: Reply, steps: seq<Step>,
                          past: History, at: Time, e: Event)
    requires Starts(cfg, s, steps) && e.PvDecided? && 0.0 < e.lo <= e.hi
    requires Passed(RunFrom(cfg, s, enabled, reply, steps).history, Then(past, at, e))
    ensures e.mode.ModeMinPV? ==>
      e.result == if e.target < e.lo then e.lo else if e.target > e.hi then e.hi else e.target
    ensures e.mode.ModePV? && e.enabled && e.target >= e.lo ==>
      e.result == if e.target > e.hi then e.hi else e.target
    ensures e.mode.ModePV? && (!e.enabled || e.target < e.lo) ==> e.result == 0.0 || e.result == e.lo
  {
    EveryEventLawful(cfg, s, enabled, reply, steps, past, at, e);
  }

  // What the terms of the law mean.
  lemma WantedMeans(cfg: Config, e: Event)
    requires e.PvDecided?
    ensures DisableWanted(cfg, e) <==> e.target < e.lo && e.sitePower >= cfg.disable.threshold
    ensures EnableWanted(cfg, e) <==>
      (cfg.enable.threshold == 0.0 && e.target >= e.lo) ||
      (cfg.enable.threshold != 0.0 && e.sitePower <= cfg.enable.threshold)
    ensures e.mode.ModePV? && e.enabled ==>
      (AgainstChange(cfg, e) <==> e.target >= e.lo || e.sitePower < cfg.disable.threshold)
    ensures e.mode.ModePV? && !e.enabled ==> (AgainstChange(cfg, e) <==> !EnableWanted(cfg, e))
  {
  }

  // In every run PV mode changes the enabled state only when that has been earned.
  lemma PvChangesAreEarned(cfg: Config, s: State, enabled: Option<bool>, reply: Reply, steps: seq<Step>,
                           past: History, at: Time, e: Event)
    requires Starts(cfg, s, steps) && e.PvDecided? && e.mode.ModePV? && 0.0 < e.lo <= e.hi
    requires Passed(RunFrom(cfg, s, enabled, reply, steps).history, Then(past, at, e))
    requires Contradicted(cfg, past).Some?
    ensures e.enabled && e.result == 0.0 ==>
      e.target < e.lo && e.sitePower >= cfg.disable.threshold && at - Contradicted(cfg, past).value >= cfg.disable.delay
    ensures !e.enabled && e.result != 0.0 ==>
      && (if cfg.enable.threshold == 0.0 then e.target >= e.lo else e.sitePower <= cfg.enable.threshold)
      && at - Contradicted(cfg, past).value >= cfg.enable.delay
  {
    EveryEventLawful(cfg, s, enabled, reply, steps, past, at, e);
    PvChangeIsEarned(cfg, past, at, e);
  }

  // PV control sends a phase switch only at the instant of a weighing that found it due, in the
  // direction of that weighing, and no sooner than Disable.Delay after the last switch of any origin.
  lemma PhaseSwitchesAreEarned(cfg: Config, s: State, enabled: Option<bool>, reply: Reply, steps: seq<Step>,
                               past: History, at: Time, e: Event)
    requires Starts(cfg, s, steps) && e.PhasesSent? && e.pv
    requires Passed(RunFrom(cfg, s, enabled, reply, steps).history, Then(past, at, e))
    ensures LastJudged(past).Some?
    ensures var (t, j) := LastJudged(past).value;
      && t == at && j.due
      && WishOf(cfg, j.power, j.active, j.configured, j.lo) == (if e.phases == 1 then Down else Up)
    ensures LastSwitch(past).Some? ==> at - LastSwitch(past).value >= cfg.disable.delay
  {
    EveryEventLawful(cfg, s, enabled, reply, steps, past, at, e);
    JudgedIsEarned(cfg, past);
  }

  // With the replacement meter, its power is what the control state implies after every step, and
  // reading it back never changes the active phases.
  lemma MeterMatchesControl(cfg: Config, s: State, enabled: Option<bool>, reply: Reply, steps: seq<Step>,
                            inp: Inputs)
    requires Starts(cfg, s, steps) && cfg.wrapped
    ensures var s1 := RunFrom(cfg, s, enabled, reply, steps);
      && MeterTrue(cfg, s1)
      && ReadMeters(cfg, s1, inp).activePhases == s1.activePhases
  {
    RunInvariant(cfg, s, enabled, reply, steps);
    MeterShows(cfg, RunFrom(cfg, s, enabled, reply, steps));
    ReadingIsStable(cfg, RunFrom(cfg, s, enabled, reply, steps), inp);
  }

  // While the charger is acknowledged on and charging has started and not stopped, the meter shows
  // the current on the active phases, and otherwise nothing.
  predicate MeterTrue(cfg: Config, s: State) {
    if AckedState(s.history) == Some(true) && Charging(s.history)
    then s.meterPower == s.chargeCurrent * s.activePhases as real * cfg.voltage
    else s.meterPower == 0.0
  }

  lemma MeterShows(cfg: Config, s: State)
    requires cfg.wrapped && Inv(cfg, s)
    ensures MeterTrue(cfg, s)
  {
  }

  lemma ReadingIsStable(cfg: Config, s: State, inp: Inputs)
    requires cfg.wrapped && Inv(cfg, s)
    ensures ReadMeters(cfg, s, inp).activePhases == s.activePhases
  {
    GuessKeeps(cfg, UpdateChargePower(cfg, s, inp.power), inp.currents);
  }

  // With the replacement meter a loadpoint that once fell to one active phase stays there for
  // good: pvScalePhases will never again ask to switch down, whatever the power.
  lemma OnePhaseForGood(cfg: Config, s: State, steps: seq<Step>, power: real)
    requires cfg.wrapped && Inv(cfg, s) && s.activePhases == 1 && AllPermitted(steps)
    ensures var s1 := Run(cfg, s, steps);
      s1.activePhases == 1 && !WishOf(cfg, power, s1.activePhases, s1.phases, s1.minCurrent).Down?
  {
    RunKeeps(cfg, s, steps);
  }

  // ---------------------------------------------------------------- the bus

  function SampleOf(now: Time, call: Call): Samples {
    if call.DoUpdate? && call.inp.status.Some? then [(now, call.inp.status.value)] else []
  }

  // The statuses a run reads, with the times of reading.
  function StatusSamples(cfg: Config, s: State, steps: seq<Step>): Samples {
    if steps == [] then []
    else
      var before := steps[..|steps| - 1];
      var step := steps[|steps| - 1];
      StatusSamples(cfg, s, before) + SampleOf(Wait(Run(cfg, s, before), step.wait).now, step.call)
  }

  // The bus has so far carried the events of these samples.
  predicate InStep(s: State, samples: Samples) {
    BusTrace(s.history) == EventTrace(samples) && s.status == StatusAfter(samples)
  }

  lemma SampleKeepsStep(s: State, s1: State, call: Call, samples: Samples)
    requires InStep(s, samples) && Announces(s, s1, call)
    ensures InStep(s1, samples + SampleOf(s.now, call))
  {
    var after := samples + SampleOf(s.now, call);
    if SampleOf(s.now, call) == [] {
      assert after == samples;
    } else {
      assert after[..|after| - 1] == samples;
    }
  }

  // Over any run the bus carries the events of the statuses read, no more and no less.
  lemma {:induction false} RunAnnounces(cfg: Config, s: State, steps: seq<Step>)
    requires Inv(cfg, s) && InStep(s, []) && AllPermitted(steps)
    ensures InStep(Run(cfg, s, steps), StatusSamples(cfg, s, steps))
  {
    if steps != [] {
      var before := steps[..|steps| - 1];
      var step := steps[|steps| - 1];
      RunAnnounces(cfg, s, before);
      RunKeeps(cfg, s, before);
      StepKeeps(cfg, Run(cfg, s, before), step);
      SampleKeepsStep(Wait(Run(cfg, s, before), step.wait), Run(cfg, s, steps), step.call, StatusSamples(cfg, s, before));
    }
  }

  lemma BusCarriesTransitions(cfg: Config, s: State, enabled: Option<bool>, reply: Reply, steps: seq<Step>)
    requires Starts(cfg, s, steps)
    ensures BusTrace(RunFrom(cfg, s, enabled, reply, steps).history) ==
      EventTrace(StatusSamples(cfg, Prepare(cfg, s, enabled, reply), steps))
  {
    PrepareEstablishes(cfg, s, enabled, reply);
    RunAnnounces(cfg, Prepare(cfg, s, enabled, reply), steps);
  }

  // A charge timer that has seen these events shows the time spent in status C since the last
  // connect.
  predicate ShowsTimeInC(trace: Trace, samples: Samples, until: Time) {
    After(ClockReading, trace).Value(ClockReading(until)) == InStatusC(ClockReading, samples, until)
  }

  lemma TimeInCExactly(trace: Trace, samples: Samples, until: Time)
    requires trace == EventTrace(samples)
    ensures ShowsTimeInC(trace, samples, until) <==> Waiting(trace).None? || until == Waiting(trace).value
  {
    ValueIsRightExactly(ClockReading, samples, until);
  }

  // The charge timer of any run does so at any time after it, exactly when charging has started or
  // stopped since the last connect or no time has passed.
  lemma RunChargingTime(cfg: Config, s: State, enabled: Option<bool>, reply: Reply, steps: seq<Step>, until: Time)
    requires Starts(cfg, s, steps)
    ensures var samples := StatusSamples(cfg, Prepare(cfg, s, enabled, reply), steps);
      var trace := BusTrace(RunFrom(cfg, s, enabled, reply, steps).history);
      ShowsTimeInC(trace, samples, until) <==> Waiting(trace).None? || until == Waiting(trace).value
  {
    BusCarriesTransitions(cfg, s, enabled, reply, steps);
    TimeInCExactly(BusTrace(RunFrom(cfg, s, enabled, reply, steps).history),
                   StatusSamples(cfg, Prepare(cfg, s, enabled, reply), steps), until);
  }

  // ---------------------------------------------------------------- where the code falls short

  // Every admissible current is sent within the limits if and only if the limits are sane: for a
  // charger that takes whole amperes the minimum must be whole.
  lemma RangeNeedsWholeMinimum(cfg: Config, lo: real, hi: real)
    requires 0.0 < lo <= hi
    ensures (forall c :: lo <= c <= hi ==> lo <= AsSent(cfg, c) <= hi) <==> Sane(cfg, lo, hi)
  {
    if Sane(cfg, lo, hi) {
      forall c | lo <= c <= hi ensures lo <= AsSent(cfg, c) <= hi {
        if !cfg.ex { TruncBounds(lo, c); }
      }
    } else {
      assert AsSent(cfg, lo) < lo;
    }
  }

  // A forced, acknowledged setLimit at or above the minimum leaves the charger on exactly when
  // the current as sent still reaches the minimum.
  lemma StaysOnExactly(cfg: Config, s: State, current: real)
    requires current >= s.minCurrent
    ensures SetLimit(cfg, s, current, true, Reply(true, true)).0.enabled <==>
      current == s.chargeCurrent || AsSent(cfg, current) >= s.minCurrent
  {
  }

  // With a minimum of 6.5 A on such a charger, asking for the minimum sends 6 A and switches off.
  lemma FractionalMinimumSwitchesOff(cfg: Config, s: State)
    requires !cfg.ex && s.minCurrent == 6.5 && s.enabled && s.chargeCurrent == 0.0
    ensures var s1 := SetLimit(cfg, s, s.minCurrent, true, Reply(true, true)).0;
      s1.chargeCurrent == 6.0 && !s1.enabled
  {
    assert Trunc(6.5) == 6.0;
  }

  // Why the minimum must be positive: otherwise even a forced, acknowledged setLimit(0) leaves the
  // charger on.
  lemma OffNeedsPositiveMinimum(cfg: Config, s: State)
    ensures SetLimit(cfg, s, 0.0, true, Reply(true, true)).0.enabled <==> s.minCurrent <= 0.0
  {
    assert Trunc(0.0) == 0.0;
  }
}

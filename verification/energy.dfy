// The charge rater of a run of the loadpoint: it sees the bus events of the run and, at every
// update, the charge power.
module RunEnergy {
  import opened Base
  import opened Api
  import opened History
  import opened Control
  import opened Events
  import opened Runs
  import opened Safety
  import opened Progress
  import opened Wrapper

  // With a reliable energy meter `x` the charged energy after any run, at any later time, is the
  // meter's increment over status C since the last connect, exactly when charging has started or
  // stopped since then or the meter has not moved.
  lemma RunMeteredEnergy(cfg: Config, s: State, enabled: Option<bool>, reply: Reply, steps: seq<Step>,
                         x: Time -> real, until: Time)
    requires Starts(cfg, s, steps)
    ensures var samples := StatusSamples(cfg, Prepare(cfg, s, enabled, reply), steps);
      var trace := BusTrace(RunFrom(cfg, s, enabled, reply, steps).history);
      ShowsMeterInC(x, trace, samples, until) <==>
        Waiting(trace).None? || x(until) == x(Waiting(trace).value)
  {
    BusCarriesTransitions(cfg, s, enabled, reply, steps);
    MeterInCExactly(x, BusTrace(RunFrom(cfg, s, enabled, reply, steps).history),
                    StatusSamples(cfg, Prepare(cfg, s, enabled, reply), steps), until);
  }

  predicate ShowsMeterInC(x: Time -> real, trace: Trace, samples: Samples, until: Time) {
    MeteredAfter(x, trace).ChargedEnergy(Some(x(until))) == Some(InStatusC(x, samples, until))
  }

  lemma MeterInCExactly(x: Time -> real, trace: Trace, samples: Samples, until: Time)
    requires trace == EventTrace(samples)
    ensures ShowsMeterInC(x, trace, samples, until) <==>
      Waiting(trace).None? || x(until) == x(Waiting(trace).value)
  {
    ChargedEnergyExactly(x, samples, until);
  }

  // ---------------------------------------------------------------- without an energy meter

  function PublishAll(r: Rater, trace: Trace): Rater
    decreases |trace|
  {
    if trace == [] then r else PublishAll(RaterOn(r, trace[0].1, trace[0].0, None), trace[1..])
  }

  // What one step puts on the bus
  function News(s: State, s1: State): Trace {
    var before, after := BusTrace(s.history), BusTrace(s1.history);
    if |before| <= |after| then after[|before|..] else []
  }

  // The rater after a run: each update publishes the charge power before its events.
  function RaterAfter(cfg: Config, s: State, steps: seq<Step>): Rater {
    if steps == [] then Rater(false, false, 0, 0.0, 0.0)
    else
      var before, step := steps[..|steps| - 1], steps[|steps| - 1];
      RaterStep(cfg, Wait(Run(cfg, s, before), step.wait), step.call, RaterAfter(cfg, s, before))
  }

  function RaterStep(cfg: Config, s: State, call: Call, r: Rater): Rater {
    var heard := if call.DoUpdate? then r.SetChargePower(UpdateChargePower(cfg, s, call.inp.power).chargePower, s.now) else r;
    PublishAll(heard, News(s, Apply(cfg, s, call)))
  }

  // What the updates of a run measured and read; an update that cannot read the status keeps it.
  function PowerSample(cfg: Config, s: State, call: Call): PowerSamples {
    if call.DoUpdate? then
      [(s.now, UpdateChargePower(cfg, s, call.inp.power).chargePower, Apply(cfg, s, call).status)]
    else []
  }

  function RunSamples(cfg: Config, s: State, steps: seq<Step>): PowerSamples {
    if steps == [] then []
    else
      var before, step := steps[..|steps| - 1], steps[|steps| - 1];
      RunSamples(cfg, s, before) + PowerSample(cfg, Wait(Run(cfg, s, before), step.wait), step.call)
  }

  lemma {:induction false} PublishStamped(r: Rater, at: Time, events: seq<BusEvent>)
    ensures PublishAll(r, Stamped(at, events)) == Publish(r, events, at)
    decreases |events|
  {
    if events != [] {
      assert Stamped(at, events)[1..] == Stamped(at, events[1..]);
      PublishStamped(RaterOn(r, events[0], at, None), at, events[1..]);
    }
  }

  lemma StepIsSample(cfg: Config, s: State, call: Call, r: Rater, samples: PowerSamples)
    requires Inv(cfg, s) && (call.DoSetMinCurrent? ==> call.current > 0.0)
    requires r == UnmeteredAfter(samples) && s.status == Last(samples)
    ensures var after := samples + PowerSample(cfg, s, call);
      RaterStep(cfg, s, call, r) == UnmeteredAfter(after) && Apply(cfg, s, call).status == Last(after)
  {
    ApplyKeeps(cfg, s, call);
    var s1 := Apply(cfg, s, call);
    var after := samples + PowerSample(cfg, s, call);
    if call.DoUpdate? {
      assert after[..|samples|] == samples;
      var power := UpdateChargePower(cfg, s, call.inp.power).chargePower;
      var events := Transition(s.status, s1.status);
      assert News(s, s1) == Stamped(s.now, events);
      PublishStamped(r.SetChargePower(power, s.now), s.now, events);
    } else {
      assert after == samples && News(s, s1) == [];
    }
  }

  // The rater of a run is the rater of what the run's updates measured and read.
  lemma {:induction false} RaterFollowsRun(cfg: Config, s: State, steps: seq<Step>)
    requires Inv(cfg, s) && s.status.StatusNone? && AllPermitted(steps)
    ensures RaterAfter(cfg, s, steps) == UnmeteredAfter(RunSamples(cfg, s, steps))
    ensures Run(cfg, s, steps).status == Last(RunSamples(cfg, s, steps))
  {
    if steps != [] {
      var before, step := steps[..|steps| - 1], steps[|steps| - 1];
      RaterFollowsRun(cfg, s, before);
      RunKeeps(cfg, s, before);
      WaitKeeps(cfg, Run(cfg, s, before), step.wait);
      StepIsSample(cfg, Wait(Run(cfg, s, before), step.wait), step.call, RaterAfter(cfg, s, before),
                   RunSamples(cfg, s, before));
    }
  }

  predicate InOrder(samples: PowerSamples, until: Time) {
    && (forall i, j :: 0 <= i < j < |samples| ==> samples[i].0 <= samples[j].0)
    && (forall i :: 0 <= i < |samples| ==> samples[i].0 <= until)
  }

  lemma {:induction false} SamplesInOrder(cfg: Config, s: State, steps: seq<Step>)
    requires Inv(cfg, s) && AllPermitted(steps)
    ensures InOrder(RunSamples(cfg, s, steps), Run(cfg, s, steps).now)
  {
    if steps != [] {
      var before, step := steps[..|steps| - 1], steps[|steps| - 1];
      SamplesInOrder(cfg, s, before);
      RunKeeps(cfg, s, before);
      var s1 := Run(cfg, s, before);
      StepTakes(cfg, s1, step);
      InOrderNext(RunSamples(cfg, s, before), s1.now, PowerSample(cfg, Wait(s1, step.wait), step.call), s1.now + step.wait);
    }
  }

  lemma StepTakes(cfg: Config, s: State, step: Step)
    requires Inv(cfg, s) && Permitted(step)
    ensures StepOnce(cfg, s, step).now == s.now + step.wait
  {
    StepKeeps(cfg, s, step);
  }

  lemma InOrderNext(samples: PowerSamples, now: Time, more: PowerSamples, later: Time)
    requires InOrder(samples, now) && now <= later && (more == [] || (|more| == 1 && more[0].0 == later))
    ensures InOrder(samples + more, later)
  {
  }

  // If every charge power in a run is between 0 and `limit`, the charged energy is between 0 and
  // what `limit` gives since the last connect.
  lemma RunUnmeteredEnergy(cfg: Config, s: State, enabled: Option<bool>, reply: Reply, steps: seq<Step>, limit: real)
    requires Starts(cfg, s, steps)
    requires var samples := RunSamples(cfg, Prepare(cfg, s, enabled, reply), steps);
      samples != [] && forall i :: 0 <= i < |samples| ==> 0.0 <= samples[i].1 <= limit
    ensures var s0 := Prepare(cfg, s, enabled, reply);
      var samples := RunSamples(cfg, s0, steps);
      var charged := RaterAfter(cfg, s0, steps).ChargedEnergy(None);
      charged.Some? && 0.0 <= charged.value <= Energy(limit, Since(samples), samples[|samples| - 1].0)
  {
    PrepareEstablishes(cfg, s, enabled, reply);
    UnmeteredFrom(cfg, Prepare(cfg, s, enabled, reply), steps, limit);
  }

  lemma UnmeteredFrom(cfg: Config, s: State, steps: seq<Step>, limit: real)
    requires Inv(cfg, s) && s.status.StatusNone? && AllPermitted(steps) && RunSamples(cfg, s, steps) != []
    requires forall i :: 0 <= i < |RunSamples(cfg, s, steps)| ==> 0.0 <= RunSamples(cfg, s, steps)[i].1 <= limit
    ensures var samples := RunSamples(cfg, s, steps);
      var charged := RaterAfter(cfg, s, steps).ChargedEnergy(None);
      charged.Some? && 0.0 <= charged.value <= Energy(limit, Since(samples), samples[|samples| - 1].0)
  {
    RaterFollowsRun(cfg, s, steps);
    SamplesInOrder(cfg, s, steps);
    ChargedEnergyBounded(RunSamples(cfg, s, steps), limit);
  }
}

// core/site.go and core/helper.go: the site's meters, and the control loop they close.
module Balance {
  import opened Base
  import opened Api
  import opened History
  import opened Control
  import opened Runs
  import opened Outcomes

  // sitePower: what the site takes from outside, with a margin; negative is available power
  function SitePower(grid: real, battery: real, residual: real): real {
    grid + battery + residual
  }

  // A battery below its priority SoC keeps what it charges.
  function CountedBattery(battery: real, soc: Option<real>, prioritySoC: real): real {
    if soc.Some? && soc.value < prioritySoC && battery < 0.0 then 0.0 else battery
  }

  function Sum(powers: seq<real>): real {
    if powers == [] then 0.0 else Sum(powers[..|powers| - 1]) + powers[|powers| - 1]
  }

  // The powers of all loadpoints count, each once.
  lemma {:induction false} SumAdds(a: seq<real>, b: seq<real>)
    ensures Sum(a + b) == Sum(a) + Sum(b)
    ensures forall x :: Sum([x]) == x
  {
    forall x ensures Sum([x]) == x { SumOne(x); }
    if b == [] {
      assert a + b == a;
    } else {
      var n := |b| - 1;
      assert (a + b)[..|a + b| - 1] == a + b[..n];
      SumAdds(a, b[..n]);
    }
  }

  datatype SiteConfig = SiteConfig(residualPower: real, prioritySoC: real, hasGrid: bool, hasPv: bool, hasBattery: bool)

  datatype Powers = Powers(grid: real, pv: real, battery: real)

  // What the site's meters answer after retries, None being an error, and the charge powers that
  // the loadpoints measured last.
  datatype Readings = Readings(
    pv: Option<real>, grid: Option<real>, battery: Option<real>, soc: Option<real>, loadpoints: seq<real>)

  // Without a grid meter the grid power is estimated from the PV power and what the loadpoints draw.
  function MeterPowers(c: SiteConfig, p: Powers, r: Readings): (Powers, bool) {
    var pv := if c.hasPv && r.pv.Some? then r.pv.value else p.pv;
    var grid := if !c.hasGrid then Sum(r.loadpoints) - pv else if r.grid.Some? then r.grid.value else p.grid;
    var gridOk := !c.hasGrid || r.grid.Some?;
    var battery := if gridOk && c.hasBattery && r.battery.Some? then r.battery.value else p.battery;
    (Powers(grid, pv, battery), gridOk && (!c.hasBattery || r.battery.Some?))
  }

  function Counted(c: SiteConfig, battery: real, soc: Option<real>): real {
    if c.hasBattery then CountedBattery(battery, soc, c.prioritySoC) else battery
  }

  function ReadPowers(c: SiteConfig, p: Powers, r: Readings): (Powers, Option<real>) {
    var (p1, ok) := MeterPowers(c, p, r);
    (p1, if ok then Some(SitePower(p1.grid, Counted(c, p1.battery, r.soc), c.residualPower)) else None)
  }

  class Site {
    const config: SiteConfig
    var gridPower: real
    var pvPower: real
    var batteryPower: real

    ghost function View(): Powers
      reads this
    {
      Powers(gridPower, pvPower, batteryPower)
    }

    constructor (config: SiteConfig)
      ensures this.config == config && View() == Powers(0.0, 0.0, 0.0)
    {
      this.config := config;
      gridPower, pvPower, batteryPower := 0.0, 0.0, 0.0;
    }

    method UpdateMeters(r: Readings) returns (ok: bool)
      modifies this
      ensures (View(), ok) == MeterPowers(config, old(View()), r)
      ensures pvPower == if config.hasPv && r.pv.Some? then r.pv.value else old(pvPower)
      ensures config.hasGrid ==> gridPower == if r.grid.Some? then r.grid.value else old(gridPower)
      ensures !config.hasGrid ==> gridPower == Sum(r.loadpoints) - pvPower
      ensures batteryPower ==
        if config.hasBattery && r.battery.Some? && (config.hasGrid ==> r.grid.Some?) then r.battery.value else old(batteryPower)
      ensures ok <==> !(config.hasGrid && r.grid.None?) && !(config.hasBattery && r.battery.None?)
    {
      ok := true;
      if config.hasPv && r.pv.Some? {
        pvPower := r.pv.value;
      }
      if config.hasGrid {
        if r.grid.Some? { gridPower := r.grid.value; } else { ok := false; }
      }
      if ok && config.hasBattery {
        if r.battery.Some? { batteryPower := r.battery.value; } else { ok := false; }
      }
      if !config.hasGrid {
        gridPower := -pvPower;
        ghost var metered := View();
        for i := 0 to |r.loadpoints|
          invariant View() == metered.(grid := Sum(r.loadpoints[..i]) - pvPower)
        {
          assert r.loadpoints[..i + 1][..i] == r.loadpoints[..i];
          gridPower := gridPower + r.loadpoints[i];
        }
        assert r.loadpoints[..|r.loadpoints|] == r.loadpoints;
      }
    }

    method ReadSitePower(r: Readings) returns (power: Option<real>)
      modifies this
      ensures (View(), power) == ReadPowers(config, old(View()), r)
      ensures power.Some? ==>
        var charging := config.hasBattery && r.soc.Some? && r.soc.value < config.prioritySoC && batteryPower < 0.0;
        power.value == gridPower + (if charging then 0.0 else batteryPower) + config.residualPower
      ensures power.Some? <==> !(config.hasGrid && r.grid.None?) && !(config.hasBattery && r.battery.None?)
    {
      var ok := UpdateMeters(r);
      if !ok {
        return None;
      }
      var counted := batteryPower;
      if config.hasBattery && r.soc.Some? {
        if r.soc.value < config.prioritySoC && counted < 0.0 {
          counted := 0.0;
        }
      }
      return Some(gridPower + counted + config.residualPower);
    }
  }

  // ---------------------------------------------------------------- the closed loop

  // The power the loadpoint draws when the vehicle takes what it is offered.
  function Draw(cfg: Config, s: State): real {
    s.chargeCurrent * (s.activePhases as real * cfg.voltage)
  }

  // The site power if everything but this loadpoint comes to `others`.
  function SitePowerAt(cfg: Config, s: State, others: real): real { others + Draw(cfg, s) }

  // Charging, exactly metered, and with nothing to switch.
  predicate Steady(cfg: Config, s: State) {
    && cfg.ex && s.enabled && s.status.StatusC?
    && (s.chargeCurrents.Some? ==> s.chargeCurrents.value.0 == s.chargeCurrent)
    && s.chargePower == Draw(cfg, s)
    && (cfg.switchable ==> s.phases == 3)
  }

  // The current that just uses up the available power.
  function Ideal(cfg: Config, s: State, others: real): real {
    -others / (s.activePhases as real * cfg.voltage)
  }

  lemma QuotientIs(a: real, b: real, c: real)
    requires b != 0.0 && a == c * b
    ensures a / b == c
  {
  }

  lemma SplitQuotient(others: real, c: real, k: real)
    requires k != 0.0
    ensures (-others - c * k) / k == -others / k - c
  {
    var q := -others / k;
    assert q * k == -others;
    QuotientIs(-others - c * k, k, q - c);
  }

  // The target current depends on the surroundings only, not on the current presently set.
  lemma TargetIsIndependent(cfg: Config, s: State, others: real)
    requires Steady(cfg, s)
    ensures TargetCurrent(cfg, s, SitePowerAt(cfg, s, others)) == Max(Ideal(cfg, s, others), 0.0)
  {
    assert EffectiveCurrent(s) == s.chargeCurrent;
    DeltaIs(cfg, s, others);
  }

  lemma DeltaIs(cfg: Config, s: State, others: real)
    ensures PowerToCurrent(cfg, -SitePowerAt(cfg, s, others), s.activePhases) == Ideal(cfg, s, others) - s.chargeCurrent
  {
    var k := s.activePhases as real * cfg.voltage;
    assert -SitePowerAt(cfg, s, others) == -others - s.chargeCurrent * k;
    SplitQuotient(others, s.chargeCurrent, k);
  }

  lemma QuotientTwice(power: real, v: real, n: real)
    requires v > 0.0 && n > 0.0
    ensures power / v / n == power / (n * v)
  {
    var x := power / v;
    var q := x / n;
    assert x * v == power && q * n == x;
    Regroup(q, n, v);
    QuotientIs(power, n * v, q);
  }

  lemma Regroup(q: real, n: real, v: real)
    ensures q * n * v == q * (n * v)
  {
  }

  lemma NoDownWish(cfg: Config, s: State, power: real)
    requires s.phases == 3 && power / (s.activePhases as real * cfg.voltage) >= s.minCurrent
    ensures WishOf(cfg, power, s.activePhases, s.phases, s.minCurrent).Stay?
  {
    QuotientTwice(power, cfg.voltage, s.activePhases as real);
  }

  // One PV step on a steady loadpoint with enough but not too much power.
  lemma PvStep(cfg: Config, s: State, mode: ChargeMode, inp: Inputs, others: real)
    requires Steady(cfg, s) && Sane(cfg, s.minCurrent, s.maxCurrent) && (mode.ModeMinPV? || mode.ModePV?)
    requires s.minCurrent <= Ideal(cfg, s, others) <= s.maxCurrent
    requires inp.sitePower == SitePowerAt(cfg, s, others)
    requires !inp.cheap && !s.remoteDemand.RemoteSoftDisable?
    ensures var (s1, current) := PvMaxCurrent(cfg, s, mode, inp.sitePower, inp.scale);
      && current == Ideal(cfg, s, others)
      && s1 == s.(pvTimer := s1.pvTimer, phaseTimer := s1.phaseTimer, history := s1.history)
      && Commands(s1.history) == Commands(s.history)
    ensures ChargePV(cfg, s, mode, inp) ==
      SetLimit(cfg, PvMaxCurrent(cfg, s, mode, inp.sitePower, inp.scale).0, Ideal(cfg, s, others), false, inp.limit).0
  {
    TargetIsIndependent(cfg, s, others);
    assert Available(s, inp.sitePower) == -others;
    if cfg.switchable { NoDownWish(cfg, s, -others); }
  }

  // The number of commands a history has sent to the charger.
  function Commands(h: History): nat {
    match h
    case Empty => 0
    case Then(past, _, e) =>
      Commands(past) + if e.LimitSent? || e.EnableSent? || e.PhasesSent? || e.SyncSent? then 1 else 0
  }

  lemma IdealDraw(cfg: Config, s: State, others: real)
    requires s.chargeCurrent == Ideal(cfg, s, others)
    ensures SitePowerAt(cfg, s, others) == 0.0
  {
    var k := s.activePhases as real * cfg.voltage;
    assert (-others / k) * k == -others;
  }

  // What setLimit makes of a steady loadpoint: it sends the current and nothing else.
  lemma SteadyLimit(cfg: Config, s: State, current: real, reply: Reply)
    requires cfg.ex && s.enabled && s.minCurrent <= current && reply.limitOk
    ensures var s1 := SetLimit(cfg, s, current, false, reply).0;
      s1 == s.(chargeCurrent := current, meterPower := s1.meterPower, history := s1.history)
  {
  }

  // Unclamped, one step brings the site power to exactly zero.
  lemma OneStepBalances(cfg: Config, s: State, mode: ChargeMode, inp: Inputs, others: real)
    requires Steady(cfg, s) && Sane(cfg, s.minCurrent, s.maxCurrent) && (mode.ModeMinPV? || mode.ModePV?)
    requires s.minCurrent <= Ideal(cfg, s, others) <= s.maxCurrent
    requires inp.sitePower == SitePowerAt(cfg, s, others) && inp.limit.limitOk
    requires !inp.cheap && !s.remoteDemand.RemoteSoftDisable?
    ensures var s1 := ChargePV(cfg, s, mode, inp);
      && SitePowerAt(cfg, s1, others) == 0.0
      && s1 == s.(chargeCurrent := Ideal(cfg, s, others), pvTimer := s1.pvTimer, phaseTimer := s1.phaseTimer,
                  meterPower := s1.meterPower, history := s1.history)
  {
    PvStep(cfg, s, mode, inp, others);
    SteadyLimit(cfg, PvMaxCurrent(cfg, s, mode, inp.sitePower, inp.scale).0, Ideal(cfg, s, others), inp.limit);
    IdealDraw(cfg, ChargePV(cfg, s, mode, inp), others);
  }

  lemma SameLimitIsSilent(cfg: Config, s: State, current: real, reply: Reply)
    requires s.enabled && s.minCurrent <= current == s.chargeCurrent
    ensures SetLimit(cfg, s, current, false, reply).0 == s
  {
  }

  // On a balanced site a further step sends nothing.
  lemma BalancedIsQuiet(cfg: Config, s: State, mode: ChargeMode, inp: Inputs, others: real)
    requires Steady(cfg, s) && Sane(cfg, s.minCurrent, s.maxCurrent) && (mode.ModeMinPV? || mode.ModePV?)
    requires s.chargeCurrent == Ideal(cfg, s, others) && s.minCurrent <= s.chargeCurrent <= s.maxCurrent
    requires inp.sitePower == SitePowerAt(cfg, s, others)
    requires !inp.cheap && !s.remoteDemand.RemoteSoftDisable?
    ensures Commands(ChargePV(cfg, s, mode, inp).history) == Commands(s.history)
    ensures ChargePV(cfg, s, mode, inp).chargeCurrent == s.chargeCurrent
  {
    PvStep(cfg, s, mode, inp, others);
    SameLimitIsSilent(cfg, PvMaxCurrent(cfg, s, mode, inp.sitePower, inp.scale).0, s.chargeCurrent, inp.limit);
  }

  // ---------------------------------------------------------------- with Update and the site

  // The loadpoint is charging under PV control and nothing else demands anything.
  predicate PvCharging(cfg: Config, s: State) {
    && cfg.ex && s.enabled && s.status.StatusC? && (s.mode.ModePV? || s.mode.ModeMinPV?)
    && Sane(cfg, s.minCurrent, s.maxCurrent) && MeterAgrees(cfg, s)
    && !s.remoteDemand.RemoteHardDisable? && !s.remoteDemand.RemoteSoftDisable?
    && !TargetSocReached(s) && !MinSocNotReached(s)
    && (cfg.switchable ==> s.phases == 3)
  }

  // The vehicle is the same as before, and so is its SoC.
  predicate VehicleStays(cfg: Config, s: State, inp: Inputs) {
    && (inp.identity.None? || inp.identity.value == s.vehicleID)
    && !Unidentified(cfg, s)
    && (inp.soc.Some? ==> Trunc(inp.soc.value) == s.vehicleSoc)
  }

  // The loadpoint still charges, and its meter, if it has one, measures what it draws.
  predicate Measured(cfg: Config, s: State, inp: Inputs) {
    && inp.status == Some(StatusC) && inp.enabled != Some(false) && !inp.cheap
    && VehicleStays(cfg, s, inp)
    && (!cfg.wrapped ==> inp.power == Some(Draw(cfg, s)))
    && (!cfg.wrapped && cfg.currents && inp.currents.Some? ==>
          inp.currents.value.0 == s.chargeCurrent && CountActive(inp.currents.value) == s.activePhases)
  }

  lemma GuessFindsPhases(cfg: Config, s: State)
    requires s.chargeCurrent > 0.0
    ensures GuessedPhases(cfg, Draw(cfg, s), s.chargeCurrent) == s.activePhases
  {
    var c, n, v := s.chargeCurrent, s.activePhases as real, cfg.voltage;
    Regroup(c, n, v);
    QuotientIs(Draw(cfg, s), v, c * n);
    QuotientIs(c * n, c, n);
  }

  lemma DrawIsReading(cfg: Config, s: State)
    requires PvCharging(cfg, s) && cfg.wrapped
    ensures s.meterPower == Draw(cfg, s)
  {
    Regroup(s.chargeCurrent, s.activePhases as real, cfg.voltage);
  }

  lemma MetersReadDraw(cfg: Config, s: State, inp: Inputs)
    requires PvCharging(cfg, s) && Measured(cfg, s, inp)
    ensures var m := ReadMeters(cfg, s, inp);
      m == s.(chargePower := Draw(cfg, s), chargeCurrents := m.chargeCurrents) && Steady(cfg, m)
  {
    if cfg.wrapped { DrawIsReading(cfg, s); }
    if s.chargeCurrent > 0.0 { GuessFindsPhases(cfg, s); }
  }

  // So an update is a PV step on what the meters say.
  lemma UpdateIsPvStep(cfg: Config, s: State, inp: Inputs)
    requires PvCharging(cfg, s) && Measured(cfg, s, inp)
    ensures Update(cfg, s, inp) == ChargePV(cfg, ReadMeters(cfg, s, inp), s.mode, inp)
  {
    MetersReadDraw(cfg, s, inp);
    var m := ReadMeters(cfg, s, inp);
    assert UpdateVehicle(cfg, m, inp) == m;
    assert Respond(cfg, m, StatusC, s.mode, inp) == ByMode(cfg, m, s.mode, inp);
  }

  // What an unclamped update makes of the loadpoint; `others` is what the site power comes to
  // beside the loadpoint's draw.
  predicate Follows(cfg: Config, s: State, s1: State, others: real) {
    && s1 == s.(chargeCurrent := Ideal(cfg, s, others), chargePower := Draw(cfg, s),
                chargeCurrents := s1.chargeCurrents, pvTimer := s1.pvTimer, phaseTimer := s1.phaseTimer,
                meterPower := s1.meterPower, history := s1.history)
    && MeterAgrees(cfg, s1)
  }

  lemma FollowsBalances(cfg: Config, s: State, s1: State, others: real)
    requires PvCharging(cfg, s) && Follows(cfg, s, s1, others)
    ensures PvCharging(cfg, s1) && SitePowerAt(cfg, s1, others) == 0.0
    ensures s1.chargeCurrent == Ideal(cfg, s1, others) == Ideal(cfg, s, others)
  {
    IdealDraw(cfg, s1, others);
  }

  lemma UpdateFollows(cfg: Config, s: State, inp: Inputs, others: real)
    requires PvCharging(cfg, s) && Measured(cfg, s, inp) && inp.limit.limitOk
    requires inp.sitePower == SitePowerAt(cfg, s, others)
    requires s.minCurrent <= Ideal(cfg, s, others) <= s.maxCurrent
    ensures Follows(cfg, s, Update(cfg, s, inp), others)
  {
    UpdateIsPvStep(cfg, s, inp);
    MetersReadDraw(cfg, s, inp);
    StepFollows(cfg, s, ReadMeters(cfg, s, inp), inp, others);
  }

  lemma StepFollows(cfg: Config, s: State, m: State, inp: Inputs, others: real)
    requires PvCharging(cfg, s) && m == s.(chargePower := Draw(cfg, s), chargeCurrents := m.chargeCurrents)
    requires Steady(cfg, m) && inp.limit.limitOk && !inp.cheap && inp.sitePower == SitePowerAt(cfg, s, others)
    requires s.minCurrent <= Ideal(cfg, s, others) <= s.maxCurrent
    ensures Follows(cfg, s, ChargePV(cfg, m, s.mode, inp), others)
  {
    OneStepBalances(cfg, m, s.mode, inp, others);
    StepKeepsMeter(cfg, m, s.mode, inp, others);
  }

  lemma StepKeepsMeter(cfg: Config, s: State, mode: ChargeMode, inp: Inputs, others: real)
    requires Steady(cfg, s) && MeterAgrees(cfg, s) && Sane(cfg, s.minCurrent, s.maxCurrent)
    requires mode.ModeMinPV? || mode.ModePV?
    requires !s.remoteDemand.RemoteSoftDisable? && !inp.cheap && inp.sitePower == SitePowerAt(cfg, s, others)
    requires s.minCurrent <= Ideal(cfg, s, others) <= s.maxCurrent
    ensures MeterAgrees(cfg, ChargePV(cfg, s, mode, inp))
  {
    PvStep(cfg, s, mode, inp, others);
    var s1 := PvMaxCurrent(cfg, s, mode, inp.sitePower, inp.scale).0;
    SetLimitKeepsMeter(cfg, s1, Ideal(cfg, s, others), inp.limit);
  }

  lemma SetLimitKeepsMeter(cfg: Config, s: State, current: real, reply: Reply)
    requires MeterAgrees(cfg, s) && s.enabled && cfg.ex && s.minCurrent <= current <= s.maxCurrent
    ensures MeterAgrees(cfg, SetLimit(cfg, s, current, false, reply).0)
  {
    SendLimitMeter(cfg, s, current, reply);
  }

  // What surrounds the loadpoint: the power of the rest of the site, the battery and its SoC.
  datatype Surroundings = Surroundings(load: real, battery: real, soc: Option<real>)

  // The site's readings while the loadpoint draws this much
  function ReadingsAt(w: Surroundings, draw: real, loadpoints: seq<real>): Readings {
    Readings(None, Some(w.load + draw), Some(w.battery), w.soc, loadpoints)
  }

  // What the site power comes to beside the draw. A site without a battery counts what it last had.
  function Others(c: SiteConfig, p: Powers, w: Surroundings): real {
    w.load + Counted(c, if c.hasBattery then w.battery else p.battery, w.soc) + c.residualPower
  }

  lemma MeteredSitePower(c: SiteConfig, p: Powers, w: Surroundings, cfg: Config, s: State, loadpoints: seq<real>)
    requires c.hasGrid
    ensures var (p1, power) := ReadPowers(c, p, ReadingsAt(w, Draw(cfg, s), loadpoints));
      power == Some(SitePowerAt(cfg, s, Others(c, p, w))) && Others(c, p1, w) == Others(c, p, w)
  {
  }

  // One cycle: the site reads its power and the loadpoint, exactly metered, is updated with it.
  predicate Cycle(c: SiteConfig, p: Powers, w: Surroundings, cfg: Config, s: State, known: seq<real>, inp: Inputs) {
    ReadPowers(c, p, ReadingsAt(w, Draw(cfg, s), known)).1 == Some(inp.sitePower) && Measured(cfg, s, inp)
  }

  // Grid, counted battery and residual power cancel out.
  predicate Balanced(c: SiteConfig, p: Powers, soc: Option<real>) {
    p.grid + Counted(c, p.battery, soc) + c.residualPower == 0.0
  }

  // The closed loop of a site with a grid meter under unchanging surroundings. If the limits allow
  // it, the site is balanced after one cycle, and the next one, any time later, sends no command.
  lemma LoopSettles(c: SiteConfig, p: Powers, w: Surroundings, cfg: Config, s: State, known: seq<real>, first: Inputs,
                    wait: nat, known': seq<real>, second: Inputs)
    requires c.hasGrid && PvCharging(cfg, s)
    requires s.minCurrent <= Ideal(cfg, s, Others(c, p, w)) <= s.maxCurrent
    requires Cycle(c, p, w, cfg, s, known, first) && first.limit.limitOk
    ensures var p1 := ReadPowers(c, p, ReadingsAt(w, Draw(cfg, s), known)).0;
      var s1 := Wait(Update(cfg, s, first), wait);
      var p2 := ReadPowers(c, p1, ReadingsAt(w, Draw(cfg, s1), known')).0;
      && Balanced(c, p2, w.soc)
      && (Cycle(c, p1, w, cfg, s1, known', second) ==>
            second.sitePower == 0.0 && Commands(Update(cfg, s1, second).history) == Commands(s1.history))
  {
    MeteredSitePower(c, p, w, cfg, s, known);
    UpdateFollows(cfg, s, first, Others(c, p, w));
    var p1 := ReadPowers(c, p, ReadingsAt(w, Draw(cfg, s), known)).0;
    SecondRound(c, p1, w, cfg, s, Update(cfg, s, first), wait, known', second);
  }

  // The second cycle alone, on a loadpoint that follows
  lemma SecondRound(c: SiteConfig, p: Powers, w: Surroundings, cfg: Config, s: State, s1: State, wait: nat,
                    known: seq<real>, second: Inputs)
    requires c.hasGrid && PvCharging(cfg, s) && Follows(cfg, s, s1, Others(c, p, w))
    requires s.minCurrent <= Ideal(cfg, s, Others(c, p, w)) <= s.maxCurrent
    ensures var s2 := Wait(s1, wait);
      var p2 := ReadPowers(c, p, ReadingsAt(w, Draw(cfg, s2), known)).0;
      && Balanced(c, p2, w.soc)
      && (Cycle(c, p, w, cfg, s2, known, second) ==>
            second.sitePower == 0.0 && Commands(Update(cfg, s2, second).history) == Commands(s2.history))
  {
    WaitBalances(cfg, s, s1, wait, Others(c, p, w));
    SiteBalanced(c, p, w, cfg, Wait(s1, wait), known);
    if Cycle(c, p, w, cfg, Wait(s1, wait), known, second) {
      QuietCycle(c, p, w, cfg, Wait(s1, wait), known, second);
    }
  }

  lemma WaitBalances(cfg: Config, s: State, s1: State, wait: nat, others: real)
    requires PvCharging(cfg, s) && Follows(cfg, s, s1, others)
    ensures var s2 := Wait(s1, wait);
      && PvCharging(cfg, s2)
      && SitePowerAt(cfg, s2, others) == 0.0
      && s2.chargeCurrent == Ideal(cfg, s2, others) == Ideal(cfg, s, others)
      && s2.minCurrent == s.minCurrent && s2.maxCurrent == s.maxCurrent
  {
    FollowsBalances(cfg, s, s1, others);
  }

  lemma SiteBalanced(c: SiteConfig, p: Powers, w: Surroundings, cfg: Config, s: State, known: seq<real>)
    requires c.hasGrid && SitePowerAt(cfg, s, Others(c, p, w)) == 0.0
    ensures var (p1, power) := ReadPowers(c, p, ReadingsAt(w, Draw(cfg, s), known));
      Balanced(c, p1, w.soc) && power == Some(0.0)
  {
  }

  lemma QuietCycle(c: SiteConfig, p: Powers, w: Surroundings, cfg: Config, s: State, known: seq<real>, inp: Inputs)
    requires c.hasGrid && PvCharging(cfg, s) && SitePowerAt(cfg, s, Others(c, p, w)) == 0.0
    requires s.chargeCurrent == Ideal(cfg, s, Others(c, p, w)) && s.minCurrent <= s.chargeCurrent <= s.maxCurrent
    requires Cycle(c, p, w, cfg, s, known, inp)
    ensures inp.sitePower == 0.0 && Commands(Update(cfg, s, inp).history) == Commands(s.history)
  {
    SiteBalanced(c, p, w, cfg, s, known);
    BalancedUpdate(cfg, s, inp, Others(c, p, w));
  }

  lemma BalancedUpdate(cfg: Config, s: State, inp: Inputs, others: real)
    requires PvCharging(cfg, s) && Measured(cfg, s, inp) && inp.sitePower == SitePowerAt(cfg, s, others)
    requires s.chargeCurrent == Ideal(cfg, s, others) && s.minCurrent <= s.chargeCurrent <= s.maxCurrent
    ensures Commands(Update(cfg, s, inp).history) == Commands(s.history)
  {
    UpdateIsPvStep(cfg, s, inp);
    MetersReadDraw(cfg, s, inp);
    BalancedIsQuiet(cfg, ReadMeters(cfg, s, inp), s.mode, inp, others);
  }

  // ---------------------------------------------------------------- without a grid meter

  // A site with neither grid meter nor battery goes by the charge power the loadpoint measured in
  // its last update, before that update changed the current.
  function GuessedPower(c: SiteConfig, p: Powers, s: State): (Powers, Option<real>) {
    ReadPowers(c, p, Readings(None, None, None, None, [s.chargePower]))
  }

  lemma SumOne(x: real)
    ensures Sum([x]) == x
  {
    assert [x][..0] == [];
  }

  lemma GuessIs(c: SiteConfig, p: Powers, s: State)
    requires !c.hasGrid && !c.hasBattery
    ensures var (p1, power) := GuessedPower(c, p, s);
      && power == Some(s.chargePower - p.pv + p.battery + c.residualPower)
      && p1.pv == p.pv && p1.battery == p.battery
  {
    SumOne(s.chargePower);
  }

  lemma Overshoot(others: real, c0: real, c1: real, k: real)
    requires k != 0.0 && c1 == -others / k
    ensures -(others + c0 * k - c1 * k) / k == 2.0 * c1 - c0
  {
    assert c1 * k == -others;
    QuotientIs(-(others + c0 * k - c1 * k), k, 2.0 * c1 - c0);
  }

  // One cycle: the site guesses its power, and the loadpoint, exactly metered, is updated.
  predicate GuessedCycle(c: SiteConfig, p: Powers, cfg: Config, s: State, inp: Inputs) {
    GuessedPower(c, p, s).1 == Some(inp.sitePower) && Measured(cfg, s, inp) && inp.limit.limitOk
  }

  // The second current is as far beyond the ideal one as the first was before it.
  predicate Overshoots(c0: real, c2: real, ideal: real) {
    c2 == 2.0 * ideal - c0 && (c2 == ideal <==> c0 == ideal)
  }

  // There the loop does not settle: the first update sets the current that balances the site, but
  // the second one, still going by the old draw, overshoots to the other side by as much as the
  // first current was off. It keeps the balance if and only if the site was balanced from the start.
  lemma GuessedLoopOvershoots(c: SiteConfig, p: Powers, cfg: Config, s: State, first: Inputs, wait: nat, second: Inputs)
    requires !c.hasGrid && !c.hasBattery && PvCharging(cfg, s) && s.chargePower == Draw(cfg, s)
    requires s.minCurrent <= Ideal(cfg, s, GuessedOthers(c, p)) <= s.maxCurrent
    requires GuessedCycle(c, p, cfg, s, first)
    ensures var s1 := Wait(Update(cfg, s, first), wait);
      var ideal := Ideal(cfg, s, GuessedOthers(c, p));
      && s1.chargeCurrent == ideal
      && (GuessedCycle(c, GuessedPower(c, p, s).0, cfg, s1, second) &&
          s.minCurrent <= 2.0 * ideal - s.chargeCurrent <= s.maxCurrent ==>
            Overshoots(s.chargeCurrent, Update(cfg, s1, second).chargeCurrent, ideal))
  {
    FirstGuess(c, p, cfg, s, first);
    SecondGuess(c, GuessedPower(c, p, s).0, cfg, s, Update(cfg, s, first), wait, second);
  }

  function GuessedOthers(c: SiteConfig, p: Powers): real { -p.pv + p.battery + c.residualPower }

  lemma FirstGuess(c: SiteConfig, p: Powers, cfg: Config, s: State, first: Inputs)
    requires !c.hasGrid && !c.hasBattery && PvCharging(cfg, s) && s.chargePower == Draw(cfg, s)
    requires s.minCurrent <= Ideal(cfg, s, GuessedOthers(c, p)) <= s.maxCurrent
    requires GuessedCycle(c, p, cfg, s, first)
    ensures Follows(cfg, s, Update(cfg, s, first), GuessedOthers(c, p))
    ensures GuessedOthers(c, GuessedPower(c, p, s).0) == GuessedOthers(c, p)
  {
    GuessIs(c, p, s);
    UpdateFollows(cfg, s, first, GuessedOthers(c, p));
  }

  lemma SecondGuess(c: SiteConfig, p: Powers, cfg: Config, s: State, s1: State, wait: nat, second: Inputs)
    requires !c.hasGrid && !c.hasBattery && PvCharging(cfg, s) && Follows(cfg, s, s1, GuessedOthers(c, p))
    ensures var ideal := Ideal(cfg, s, GuessedOthers(c, p));
      && s1.chargeCurrent == ideal
      && (GuessedCycle(c, p, cfg, Wait(s1, wait), second) &&
          s.minCurrent <= 2.0 * ideal - s.chargeCurrent <= s.maxCurrent ==>
            Overshoots(s.chargeCurrent, Update(cfg, Wait(s1, wait), second).chargeCurrent, ideal))
  {
    WaitBalances(cfg, s, s1, wait, GuessedOthers(c, p));
    if GuessedCycle(c, p, cfg, Wait(s1, wait), second) {
      SecondUpdate(c, p, cfg, s, s1, wait, second, Ideal(cfg, s, GuessedOthers(c, p)));
    }
  }

  lemma SecondUpdate(c: SiteConfig, p: Powers, cfg: Config, s: State, s1: State, wait: nat, second: Inputs, ideal: real)
    requires !c.hasGrid && !c.hasBattery && PvCharging(cfg, s) && Follows(cfg, s, s1, GuessedOthers(c, p))
    requires ideal == Ideal(cfg, s, GuessedOthers(c, p)) && GuessedCycle(c, p, cfg, Wait(s1, wait), second)
    ensures s.minCurrent <= 2.0 * ideal - s.chargeCurrent <= s.maxCurrent ==>
      Overshoots(s.chargeCurrent, Update(cfg, Wait(s1, wait), second).chargeCurrent, ideal)
  {
    WaitBalances(cfg, s, s1, wait, GuessedOthers(c, p));
    GuessIs(c, p, Wait(s1, wait));
    StaleDraw(cfg, s, s1, GuessedOthers(c, p), second.sitePower);
    if s.minCurrent <= 2.0 * ideal - s.chargeCurrent <= s.maxCurrent {
      UpdateFollows(cfg, Wait(s1, wait), second, second.sitePower - Draw(cfg, s1));
    }
  }

  // What the rest of the site seems to come to when the draw before the update is counted
  lemma StaleDraw(cfg: Config, s: State, s1: State, others: real, sitePower: real)
    requires Follows(cfg, s, s1, others) && sitePower == others + Draw(cfg, s)
    ensures Ideal(cfg, s1, sitePower - Draw(cfg, s1)) == 2.0 * s1.chargeCurrent - s.chargeCurrent
  {
    Overshoot(others, s.chargeCurrent, s1.chargeCurrent, s.activePhases as real * cfg.voltage);
  }
}

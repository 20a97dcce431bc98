// The history of a loadpoint: every command to the charger and every decision that led to one,
// and the laws such a history obeys. Nothing in this module mentions the loadpoint's own variables.
module History {
  import opened Base
  import opened Api

  // The phases a charger can be set to, and the phases a vehicle may draw from.
  type PhaseSetting = p: int | p == 1 || p == 3 witness 1
  type ActivePhases = p: int | 1 <= p <= 3 witness 1
  type Volts = v: real | v > 0.0 witness 230.0

  datatype Threshold = Threshold(delay: Time, threshold: real)

  datatype Action = Action(mode: ChargeMode, targetSoC: int)

  // What is fixed for the lifetime of a loadpoint: the interfaces its charger and charge meter
  // implement and the settings no API call changes.
  datatype Config = Config(
    ex: bool,            // the charger implements api.ChargerEx
    switchable: bool,    // the charger implements api.ChargePhases
    wrapped: bool,       // the charge meter is the replacement wrapper.ChargeMeter
    currents: bool,      // the (physical) charge meter implements api.MeterCurrent
    voltage: Volts,
    guard: Time,
    enable: Threshold,
    disable: Threshold,
    phases: PhaseSetting,
    vehicles: seq<Vehicle>,
    onDisconnect: Action,
    onIdentify: map<string, Action>)

  datatype Wish = Stay | Down | Up

  datatype Event =
      // a current limit sent to the charger, with the configured limits of that moment
    | LimitSent(current: real, lo: real, hi: real, ok: bool)
      // enable or disable sent by setLimit
    | EnableSent(on: bool, forced: bool, lo: real, hi: real, ok: bool)
      // enable or disable repeated because the charger was out of sync
    | SyncSent(on: bool, ok: bool)
      // a phase switch, asked for by PV control or by anything else
    | PhasesSent(phases: int, pv: bool, ok: bool)
      // the charger state read at start-up
    | Adopted(on: bool)
      // the PV timer was put into the elapsed state
    | Elapsed
      // pvMaxCurrent chose a current without switching phases
    | PvDecided(mode: ChargeMode, enabled: bool, target: real, sitePower: real, lo: real, hi: real, result: real)
      // pvScalePhases weighed the available power
    | PhaseJudged(power: real, active: ActivePhases, configured: PhaseSetting, lo: real, due: bool)
    | Bus(event: BusEvent)

  datatype History = Empty | Then(past: History, at: Time, event: Event)

  // ---------------------------------------------------------------- what a history says

  // Limits a configuration may have: positive, ordered, and whole amperes unless the charger
  // takes milliamperes.
  predicate Sane(cfg: Config, lo: real, hi: real) {
    0.0 < lo <= hi && (cfg.ex || Trunc(lo) == lo)
  }

  function AckedLimit(h: History): Option<real> {
    match h
    case Empty => None
    case Then(past, _, e) =>
      if e.LimitSent? && e.ok then Some(e.current) else AckedLimit(past)
  }

  function AckedPhases(cfg: Config, h: History): int {
    match h
    case Empty => cfg.phases
    case Then(past, _, e) =>
      if e.PhasesSent? && e.ok then e.phases else AckedPhases(cfg, past)
  }

  // The enable state the charger last reported at start-up or acknowledged, if it ever did.
  function AckedState(h: History): Option<bool> {
    match h
    case Empty => None
    case Then(past, _, e) =>
      if e.Adopted? || ((e.EnableSent? || e.SyncSent?) && e.ok) then Some(e.on) else AckedState(past)
  }

  // Nobody knows that the charger is off: it never said so, or a disable is not acknowledged.
  predicate Unsure(h: History) {
    AckedState(h) != Some(false) || DisablePending(h)
  }

  // The last enable or disable sent to the charger since start-up, by setLimit or out of sync
  function LastCommand(h: History): (c: Option<Event>)
    ensures c.Some? ==> c.value.EnableSent? || c.value.SyncSent?
  {
    match h
    case Empty => None
    case Then(past, _, e) =>
      if e.EnableSent? || e.SyncSent? then Some(e) else if e.Adopted? then None else LastCommand(past)
  }

  // The charger has not acknowledged the disable that was sent last.
  predicate DisablePending(h: History) {
    match LastCommand(h)
    case None => false
    case Some(e) => !e.on && !e.ok
  }

  // ... and it was syncCharger that sent it.
  predicate SyncRefused(h: History) {
    LastCommand(h) == Some(SyncSent(false, false))
  }

  // When the contactor last changed, whoever asked for it, unless the guard was lifted since.
  function LastChange(h: History): Option<Time> {
    match h
    case Empty => None
    case Then(past, at, e) =>
      if ((e.EnableSent? || e.SyncSent?) && e.ok) || (e.Adopted? && e.on) then Some(at)
      else if e.Elapsed? then None
      else LastChange(past)
  }

  // When setLimit last changed the contactor, or found it on at start-up, unless the guard was
  // lifted since. A repeated command does not count.
  function LastFlip(h: History): Option<Time> {
    match h
    case Empty => None
    case Then(past, at, e) =>
      if (e.EnableSent? && e.ok) || (e.Adopted? && e.on) then Some(at)
      else if e.Elapsed? then None
      else LastFlip(past)
  }

  // Since when the guard holds; to lift it, it is dated back.
  function GuardSince(cfg: Config, h: History): Option<Time> {
    match h
    case Empty => None
    case Then(past, at, e) =>
      if (e.EnableSent? && e.ok) || (e.Adopted? && e.on) then Some(at)
      else if e.Elapsed? then Some(at - cfg.guard)
      else GuardSince(cfg, past)
  }

  predicate EnableWanted(cfg: Config, e: Event)
    requires e.PvDecided?
  {
    if cfg.enable.threshold == 0.0 then e.target >= e.lo else e.sitePower <= cfg.enable.threshold
  }

  predicate DisableWanted(cfg: Config, e: Event)
    requires e.PvDecided?
  {
    e.target < e.lo && e.sitePower >= cfg.disable.threshold
  }

  // Enough power for the charger that is already running (or for Min+PV)
  predicate Surplus(e: Event)
    requires e.PvDecided?
  {
    e.target >= e.lo && (e.mode.ModeMinPV? || e.enabled)
  }

  // A PV decision that speaks for changing the enabled state of the charger.
  predicate ForChange(cfg: Config, e: Event)
    requires e.PvDecided?
  {
    e.mode.ModePV? && if e.enabled then DisableWanted(cfg, e) else EnableWanted(cfg, e)
  }

  // A PV decision that speaks against it. Min+PV below the minimum says nothing.
  predicate AgainstChange(cfg: Config, e: Event)
    requires e.PvDecided?
  {
    Surplus(e) || (e.mode.ModePV? && !ForChange(cfg, e))
  }

  // Since when PV control has been waiting to change the enabled state.
  function PvSince(cfg: Config, h: History): Option<Time> {
    match h
    case Empty => None
    case Then(past, at, e) =>
      if e.Elapsed? then Some(at - cfg.disable.delay)
      else if e.PvDecided? && Surplus(e) then None
      else if e.PvDecided? && AgainstChange(cfg, e) then Some(at)
      else if e.PvDecided? && ForChange(cfg, e) && PvSince(cfg, past).None? then Some(at)
      else PvSince(cfg, past)
  }

  // The last PV decision against a change, unless the timer was elapsed since.
  function Contradicted(cfg: Config, h: History): Option<Time> {
    match h
    case Empty => None
    case Then(past, at, e) =>
      if e.Elapsed? then None
      else if e.PvDecided? && AgainstChange(cfg, e) then Some(at)
      else Contradicted(cfg, past)
  }

  function WishOf(cfg: Config, power: real, active: ActivePhases, phases: PhaseSetting, lo: real): Wish {
    if power / cfg.voltage / active as real < lo && phases > 1 && active > 1 then Down
    else if power / (3.0 * cfg.voltage) >= lo && phases == 1 then Up
    else Stay
  }

  // Since when, and in which direction, every judgement has asked for the same phase switch.
  function Wanted(cfg: Config, h: History): Option<(Time, Wish)> {
    match h
    case Empty => None
    case Then(past, at, e) =>
      if e.PhasesSent? && e.ok then None
      else if e.PhaseJudged? then
        var wish := WishOf(cfg, e.power, e.active, e.configured, e.lo);
        if wish.Stay? then None
        else if Wanted(cfg, past).Some? then Wanted(cfg, past)
        else Some((at, wish))
      else Wanted(cfg, past)
  }

  // When the charger last acknowledged a phase switch.
  function LastSwitch(h: History): Option<Time> {
    match h
    case Empty => None
    case Then(past, at, e) =>
      if e.PhasesSent? && e.ok then Some(at) else LastSwitch(past)
  }

  // The last weighing of the available power, if no switch was sent since
  function LastJudged(h: History): (j: Option<(Time, Event)>)
    ensures j.Some? ==> j.value.1.PhaseJudged?
  {
    match h
    case Empty => None
    case Then(past, at, e) =>
      if e.PhaseJudged? then Some((at, e)) else if e.PhasesSent? then None else LastJudged(past)
  }

  // At this instant a weighing has found a switch to these phases due.
  predicate SwitchDue(cfg: Config, h: History, at: Time, phases: int) {
    match LastJudged(h)
    case None => false
    case Some((t, e)) =>
      && t == at
      && e.due
      && phases == if WishOf(cfg, e.power, e.active, e.configured, e.lo).Down? then 1 else 3
  }

  predicate Charging(h: History) {
    match h
    case Empty => false
    case Then(past, _, e) =>
      if e == Bus(Start) then true else if e == Bus(Stop) then false else Charging(past)
  }

  predicate Unplugged(h: History) {
    match h
    case Empty => false
    case Then(past, _, e) =>
      if e == Bus(Disconnect) then true else if e == Bus(Connect) then false else Unplugged(past)
  }

  // The bus events of a history, in the order they were published.
  function BusTrace(h: History): seq<(Time, BusEvent)> {
    match h
    case Empty => []
    case Then(past, at, e) =>
      if e.Bus? then BusTrace(past) + [(at, e.event)] else BusTrace(past)
  }

  // ---------------------------------------------------------------- what is lawful

  // An enable follows an acknowledged limit in range, every command of setLimit is a change of what
  // was acknowledged, or an enable if nothing was, and an unforced one respects the guard.
  predicate EnableLaw(cfg: Config, past: History, at: Time, e: Event)
    requires e.EnableSent?
  {
    && e.on == (AckedState(past) != Some(true))
    && (e.on && Sane(cfg, e.lo, e.hi) ==>
          AckedLimit(past).Some? && e.lo <= AckedLimit(past).value <= e.hi)
    && (!e.forced && GuardSince(cfg, past).Some? ==> at - GuardSince(cfg, past).value > cfg.guard - SECOND)
  }

  // PV control changes the enabled state exactly when asked to for long enough.
  predicate PvLaw(cfg: Config, past: History, at: Time, e: Event)
    requires e.PvDecided?
  {
    var since := PvSince(cfg, Then(past, at, e));
    0.0 < e.lo <= e.hi ==>
      && (e.result == 0.0 || e.lo <= e.result <= e.hi)
      && (e.mode.ModeMinPV? ==> e.result != 0.0)
      && (e.mode.ModePV? && e.enabled ==>
            (e.result == 0.0 <==> DisableWanted(cfg, e) && since.Some? && at - since.value >= cfg.disable.delay))
      && (e.mode.ModePV? && !e.enabled ==>
            (e.result != 0.0 <==> EnableWanted(cfg, e) && since.Some? && at - since.value >= cfg.enable.delay))
      && (e.mode.ModeMinPV? ==> e.result == Min(Max(e.target, e.lo), e.hi))
      && (e.mode.ModePV? && e.enabled && e.target >= e.lo ==> e.result == Min(e.target, e.hi))
      && (e.mode.ModePV? && (!e.enabled || e.target < e.lo) ==> e.result == 0.0 || e.result == e.lo)
  }

  // A phase switch falls due exactly when the same wish has stood for Disable.Delay; a wish that
  // is waited on is never replaced by the opposite one.
  predicate PhaseLaw(cfg: Config, past: History, at: Time, e: Event)
    requires e.PhaseJudged?
  {
    var wish := WishOf(cfg, e.power, e.active, e.configured, e.lo);
    var wanted := Wanted(cfg, Then(past, at, e));
    && e.configured == AckedPhases(cfg, past)
    && (wanted.Some? ==> wanted.value.1 == wish)
    && (e.due <==> wanted.Some? && at - wanted.value.0 >= cfg.disable.delay)
  }

  // Start and stop alternate, disconnect and connect alternate, and nothing starts or stops
  // between a disconnect and the next connect.
  predicate BusLaw(past: History, e: BusEvent) {
    match e
    case Connect => Unplugged(past) && !Charging(past)
    case Start => !Unplugged(past) && !Charging(past)
    case Stop => !Unplugged(past) && Charging(past)
    case Disconnect => !Unplugged(past) && !Charging(past)
  }

  predicate Law(cfg: Config, past: History, at: Time, e: Event) {
    match e
    case LimitSent(current, lo, hi, _) => Sane(cfg, lo, hi) ==> lo <= current <= hi
    case EnableSent(_, _, _, _, _) => EnableLaw(cfg, past, at, e)
    case SyncSent(on, _) => on == (AckedState(past) == Some(true))
    case PhasesSent(phases, pv, _) =>
      && (phases == 1 || phases == 3)
      && phases != AckedPhases(cfg, past)
      && AckedState(past) != Some(true)
      && (DisablePending(past) ==> SyncRefused(past))
      && (pv ==> SwitchDue(cfg, past, at, phases))
    case Adopted(_) => true
    case Elapsed => true
    case PvDecided(_, _, _, _, _, _, _) => PvLaw(cfg, past, at, e)
    case PhaseJudged(_, _, _, _, _) => PhaseLaw(cfg, past, at, e)
    case Bus(event) => BusLaw(past, event)
  }

  predicate Lawful(cfg: Config, h: History) {
    match h
    case Empty => true
    case Then(past, at, e) =>
      && Lawful(cfg, past)
      && (past.Then? ==> past.at <= at)
      && Law(cfg, past, at, e)
  }
}

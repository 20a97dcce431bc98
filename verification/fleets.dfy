// Several loadpoints on one coordinator: each change of a loadpoint's vehicle is a move of the fleet,
// so what holds of fleets holds of runs of loadpoints.
module Fleets {
  import opened Base
  import opened Api
  import opened History
  import opened Control
  import opened Runs
  import opened Identification
  import opened Coordination

  // What an update asks of the coordinator: to let a vehicle go that was one of several and was
  // unplugged; then, while connected, to take a vehicle the charger newly identifies, and, for a
  // while, to look for one by status.
  function StatusMoves(cfg: Config, s: State, lp: Owner, status: ChargeStatus): seq<Move> {
    if status.StatusA? && status != s.status && |cfg.vehicles| > 1 then [Unplug(lp)] else []
  }

  function ChargerMoves(s: State, lp: Owner, inp: Inputs): seq<Move> {
    if Connected(s) && News(s, inp) then [Directly(lp, inp.known.value)] else []
  }

  function SearchMoves(cfg: Config, s: State, lp: Owner, statuses: Statuses): seq<Move> {
    if Connected(s) && Unidentified(cfg, s) then [ByStatus(lp, cfg.vehicles, statuses)] else []
  }

  // The loadpoint once it shows the status that the update reads
  function AtStatus(cfg: Config, s: State, inp: Inputs): State
    requires inp.status.Some?
  {
    UpdateChargerStatus(cfg, ReadMeters(cfg, s, inp), inp.status.value)
  }

  // ... up to the search by status
  function EarlyMoves(cfg: Config, s: State, lp: Owner, inp: Inputs): seq<Move>
    requires inp.status.Some?
  {
    StatusMoves(cfg, s, lp, inp.status.value) + ChargerMoves(AtStatus(cfg, s, inp), lp, inp)
  }

  // `statuses` is what the vehicles tell if they are asked.
  function CallMoves(cfg: Config, s: State, lp: Owner, call: Call, statuses: Statuses): seq<Move> {
    if call.DoUpdate? && call.inp.status.Some? then
      EarlyMoves(cfg, s, lp, call.inp) + SearchMoves(cfg, AtStatus(cfg, s, call.inp), lp, statuses)
    else []
  }

  // The pick that the update sees is the coordinator's at that moment.
  predicate Coordinated(cfg: Config, s: State, f: Fleet, lp: Owner, call: Call, statuses: Statuses) {
    call.DoUpdate? && call.inp.status.Some? ==>
      call.inp.pick == Pick(Moves(f, EarlyMoves(cfg, s, lp, call.inp)).tracked, lp, statuses, cfg.vehicles)
  }

  lemma {:induction false} MovesAppend(f: Fleet, a: seq<Move>, b: seq<Move>)
    ensures Moves(f, a + b) == Moves(Moves(f, a), b)
  {
    if b == [] {
      assert a + b == a;
    } else {
      var n := |b| - 1;
      assert (a + b)[..|a + b| - 1] == a + b[..n];
      MovesAppend(f, a, b[..n]);
    }
  }

  lemma MovesOne(f: Fleet, move: Move)
    ensures Moves(f, [move]) == MoveOnce(f, move)
  {
    assert [move][..0] == [];
    assert Moves(f, []) == f;
  }

  // A move changes its own loadpoint only.
  lemma {:induction false} MovesLocal(f: Fleet, moves: seq<Move>, lp: Owner, other: Owner)
    requires other != lp && forall i :: 0 <= i < |moves| ==> moves[i].lp == lp
    ensures ActiveAt(Moves(f, moves), other) == ActiveAt(f, other)
  {
    if moves != [] { MovesLocal(f, moves[..|moves| - 1], lp, other); }
  }

  // At most two moves, all of them the loadpoint's own
  lemma CallMovesOwn(cfg: Config, s: State, lp: Owner, call: Call, statuses: Statuses)
    ensures |CallMoves(cfg, s, lp, call, statuses)| <= 2
    ensures forall i :: 0 <= i < |CallMoves(cfg, s, lp, call, statuses)| ==> CallMoves(cfg, s, lp, call, statuses)[i].lp == lp
  {
    if call.DoUpdate? && call.inp.status.Some? {
      MetersFrame(cfg, s, call.inp);
      StatusFrame(cfg, ReadMeters(cfg, s, call.inp), call.inp.status.value);
    }
  }

  lemma StatusMovesActive(cfg: Config, s: State, f: Fleet, lp: Owner, inp: Inputs)
    requires ActiveAt(f, lp) == s.vehicle && inp.status.Some?
    ensures ActiveAt(Moves(f, StatusMoves(cfg, s, lp, inp.status.value)), lp) == AtStatus(cfg, s, inp).vehicle
  {
    MetersFrame(cfg, s, inp);
    StatusFrame(cfg, ReadMeters(cfg, s, inp), inp.status.value);
    MovesOne(f, Unplug(lp));
  }

  lemma ChargerMovesActive(s: State, f: Fleet, lp: Owner, inp: Inputs)
    requires ActiveAt(f, lp) == s.vehicle && Connected(s)
    ensures ActiveAt(Moves(f, ChargerMoves(s, lp, inp)), lp) == if News(s, inp) then inp.known else s.vehicle
  {
    if News(s, inp) { MovesOne(f, Directly(lp, inp.known.value)); }
  }

  lemma SearchMovesActive(cfg: Config, s: State, f: Fleet, lp: Owner, inp: Inputs, statuses: Statuses)
    requires ActiveAt(f, lp) == s.vehicle && Connected(s)
    requires inp.pick == Pick(f.tracked, lp, statuses, cfg.vehicles)
    ensures ActiveAt(Moves(f, SearchMoves(cfg, s, lp, statuses)), lp) == VehicleByStatus(cfg, s, inp)
  {
    if Unidentified(cfg, s) { MovesOne(f, ByStatus(lp, cfg.vehicles, statuses)); }
  }

  lemma EarlyMovesActive(cfg: Config, s: State, f: Fleet, lp: Owner, inp: Inputs)
    requires ActiveAt(f, lp) == s.vehicle && inp.status.Some?
    ensures var s1 := AtStatus(cfg, s, inp);
      ActiveAt(Moves(f, EarlyMoves(cfg, s, lp, inp)), lp) ==
        if Connected(s1) then IdentifyByCharger(cfg, s1, inp).vehicle else s1.vehicle
  {
    var s1 := AtStatus(cfg, s, inp);
    var f1 := Moves(f, StatusMoves(cfg, s, lp, inp.status.value));
    StatusMovesActive(cfg, s, f, lp, inp);
    MovesAppend(f, StatusMoves(cfg, s, lp, inp.status.value), ChargerMoves(s1, lp, inp));
    if Connected(s1) {
      ChargerMovesActive(s1, f1, lp, inp);
      ChargerFrame(cfg, s1, inp);
    }
  }

  lemma LateMovesActive(cfg: Config, s: State, f: Fleet, lp: Owner, inp: Inputs, statuses: Statuses)
    requires ActiveAt(f, lp) == if Connected(s) then IdentifyByCharger(cfg, s, inp).vehicle else s.vehicle
    requires inp.pick == Pick(f.tracked, lp, statuses, cfg.vehicles)
    ensures ActiveAt(Moves(f, SearchMoves(cfg, s, lp, statuses)), lp) == Identify(cfg, s, inp).vehicle
  {
    if Connected(s) {
      var s1 := IdentifyByCharger(cfg, s, inp);
      ChargerFrame(cfg, s, inp);
      assert SearchMoves(cfg, s, lp, statuses) == SearchMoves(cfg, s1, lp, statuses);
      SearchMovesActive(cfg, s1, f, lp, inp, statuses);
    } else {
      assert Moves(f, []) == f;
    }
  }

  // The moves of an update end at the vehicle the loadpoint has after it.
  lemma UpdateIsMoves(cfg: Config, s: State, f: Fleet, lp: Owner, inp: Inputs, statuses: Statuses)
    requires ActiveAt(f, lp) == s.vehicle && Coordinated(cfg, s, f, lp, DoUpdate(inp), statuses)
    ensures ActiveAt(Moves(f, CallMoves(cfg, s, lp, DoUpdate(inp), statuses)), lp) == Update(cfg, s, inp).vehicle
  {
    if inp.status.Some? {
      var f1 := Moves(f, EarlyMoves(cfg, s, lp, inp));
      EarlyMovesActive(cfg, s, f, lp, inp);
      LateMovesActive(cfg, AtStatus(cfg, s, inp), f1, lp, inp, statuses);
      MovesAppend(f, EarlyMoves(cfg, s, lp, inp), SearchMoves(cfg, AtStatus(cfg, s, inp), lp, statuses));
      UpdateIdentifies(cfg, s, inp);
    } else {
      MetersFrame(cfg, s, inp);
      assert Moves(f, []) == f;
    }
  }

  lemma CallIsMoves(cfg: Config, s: State, f: Fleet, lp: Owner, call: Call, statuses: Statuses)
    requires ActiveAt(f, lp) == s.vehicle && Coordinated(cfg, s, f, lp, call, statuses)
    ensures ActiveAt(Moves(f, CallMoves(cfg, s, lp, call, statuses)), lp) == Apply(cfg, s, call).vehicle
  {
    match call
    case DoUpdate(inp) => UpdateIsMoves(cfg, s, f, lp, inp, statuses);
    case DoSetMode(mode) => SetModeFrame(cfg, s, mode);
    case DoSetPhases(phases, reply) => ScaleFrame(cfg, s, phases, false, reply);
    case _ =>
  }

  // ---------------------------------------------------------------- runs of several loadpoints

  // The loadpoints, and what the coordinator and they together hold of vehicles
  datatype Joint = Joint(lps: seq<State>, fleet: Fleet)

  // A loadpoint is started, or makes a step of its run.
  datatype Action =
    | Start(lp: nat, enabled: Option<bool>, reply: Reply)
    | Act(lp: nat, step: Step, statuses: Statuses)

  function ActionMoves(cfgs: seq<Config>, j: Joint, a: Action): seq<Move>
    requires a.lp < |cfgs| == |j.lps|
  {
    match a
    case Start(lp, _, _) => if |cfgs[lp].vehicles| == 1 then [Directly(lp, cfgs[lp].vehicles[0])] else []
    case Act(lp, step, statuses) => CallMoves(cfgs[lp], Wait(j.lps[lp], step.wait), lp, step.call, statuses)
  }

  predicate Proper(cfgs: seq<Config>, j: Joint, a: Action)
    requires |cfgs| == |j.lps|
  {
    && a.lp < |cfgs|
    && (a.Act? ==> Coordinated(cfgs[a.lp], Wait(j.lps[a.lp], a.step.wait), j.fleet, a.lp, a.step.call, a.statuses))
  }

  function ActOnce(cfgs: seq<Config>, j: Joint, a: Action): (j1: Joint)
    requires a.lp < |cfgs| == |j.lps|
    ensures |j1.lps| == |j.lps|
  {
    var s := match a
      case Start(lp, enabled, reply) => Prepare(cfgs[lp], j.lps[lp], enabled, reply)
      case Act(lp, step, _) => StepOnce(cfgs[lp], j.lps[lp], step);
    Joint(j.lps[a.lp := s], Moves(j.fleet, ActionMoves(cfgs, j, a)))
  }

  // An action at no loadpoint does nothing.
  function JointRun(cfgs: seq<Config>, lps: seq<State>, actions: seq<Action>): (j: Joint)
    requires |cfgs| == |lps|
    ensures |j.lps| == |lps|
  {
    if actions == [] then Joint(lps, NOBODY)
    else
      var j, a := JointRun(cfgs, lps, actions[..|actions| - 1]), actions[|actions| - 1];
      if a.lp < |lps| then ActOnce(cfgs, j, a) else j
  }

  // Every update sees the coordinator's pick.
  predicate ProperRun(cfgs: seq<Config>, lps: seq<State>, actions: seq<Action>)
    requires |cfgs| == |lps|
  {
    if actions == [] then true
    else
      var before, a := actions[..|actions| - 1], actions[|actions| - 1];
      ProperRun(cfgs, lps, before) && (a.lp < |lps| ==> Proper(cfgs, JointRun(cfgs, lps, before), a))
  }

  function RunMoves(cfgs: seq<Config>, lps: seq<State>, actions: seq<Action>): seq<Move>
    requires |cfgs| == |lps|
  {
    if actions == [] then []
    else
      var before, a := actions[..|actions| - 1], actions[|actions| - 1];
      RunMoves(cfgs, lps, before) + if a.lp < |lps| then ActionMoves(cfgs, JointRun(cfgs, lps, before), a) else []
  }

  // The fleet holds what the loadpoints have.
  predicate Agrees(j: Joint) {
    && (forall i :: 0 <= i < |j.lps| ==> ActiveAt(j.fleet, i) == j.lps[i].vehicle)
    && (forall lp :: lp in j.fleet.active ==> lp < |j.lps|)
  }

  lemma StartIsMove(cfg: Config, s: State, f: Fleet, lp: Owner, enabled: Option<bool>, reply: Reply)
    requires ActiveAt(f, lp) == s.vehicle
    ensures var moves := if |cfg.vehicles| == 1 then [Directly(lp, cfg.vehicles[0])] else [];
      ActiveAt(Moves(f, moves), lp) == Prepare(cfg, s, enabled, reply).vehicle
  {
    if |cfg.vehicles| == 1 { MovesOne(f, Directly(lp, cfg.vehicles[0])); }
    if enabled.Some? {
      var s1 := Adopt(AssumeAllPhases(cfg, s), enabled.value);
      SetLimitFrame(cfg, s1, s1.minCurrent, false, reply);
    }
  }

  lemma ActionActive(cfgs: seq<Config>, j: Joint, a: Action)
    requires |cfgs| == |j.lps| && Proper(cfgs, j, a) && ActiveAt(j.fleet, a.lp) == j.lps[a.lp].vehicle
    ensures ActiveAt(ActOnce(cfgs, j, a).fleet, a.lp) == ActOnce(cfgs, j, a).lps[a.lp].vehicle
    ensures forall i :: 0 <= i < |ActionMoves(cfgs, j, a)| ==> ActionMoves(cfgs, j, a)[i].lp == a.lp
  {
    match a
    case Start(lp, enabled, reply) => StartIsMove(cfgs[lp], j.lps[lp], j.fleet, lp, enabled, reply);
    case Act(lp, step, statuses) =>
      var s := Wait(j.lps[lp], step.wait);
      CallIsMoves(cfgs[lp], s, j.fleet, lp, step.call, statuses);
      CallMovesOwn(cfgs[lp], s, lp, step.call, statuses);
  }

  lemma ActionAgrees(cfgs: seq<Config>, j: Joint, a: Action)
    requires |cfgs| == |j.lps| && Proper(cfgs, j, a) && Agrees(j)
    ensures Agrees(ActOnce(cfgs, j, a))
  {
    ActionActive(cfgs, j, a);
    var j1 := ActOnce(cfgs, j, a);
    var moves := ActionMoves(cfgs, j, a);
    forall i | 0 <= i < |j1.lps| ensures ActiveAt(j1.fleet, i) == j1.lps[i].vehicle {
      if i != a.lp { MovesLocal(j.fleet, moves, a.lp, i); }
    }
    forall lp | lp in j1.fleet.active ensures lp < |j1.lps| {
      if lp != a.lp {
        MovesLocal(j.fleet, moves, a.lp, lp);
        assert ActiveAt(j1.fleet, lp).Some?;
      }
    }
  }

  // Nobody has a vehicle yet.
  predicate Vacant(lps: seq<State>) { forall i :: 0 <= i < |lps| ==> lps[i].vehicle.None? }

  // Any run of any number of loadpoints, started at any times, with all the updates and API calls,
  // makes its fleet's moves, and the fleet agrees with the loadpoints.
  lemma {:induction false} RunIsMoves(cfgs: seq<Config>, lps: seq<State>, actions: seq<Action>)
    requires |cfgs| == |lps| && Vacant(lps)
    ensures JointRun(cfgs, lps, actions).fleet == Moves(NOBODY, RunMoves(cfgs, lps, actions))
    ensures ProperRun(cfgs, lps, actions) ==> Agrees(JointRun(cfgs, lps, actions))
  {
    if actions != [] {
      var before, a := actions[..|actions| - 1], actions[|actions| - 1];
      RunIsMoves(cfgs, lps, before);
      var j := JointRun(cfgs, lps, before);
      if a.lp < |lps| {
        MovesAppend(NOBODY, RunMoves(cfgs, lps, before), ActionMoves(cfgs, j, a));
        if ProperRun(cfgs, lps, actions) { ActionAgrees(cfgs, j, a); }
      } else {
        assert RunMoves(cfgs, lps, actions) == RunMoves(cfgs, lps, before);
      }
    }
  }

  // So the coordinator tracks only vehicles that are active at the loadpoint they are tracked for.
  predicate TracksActive(j: Joint) {
    forall v :: v in j.fleet.tracked ==>
      j.fleet.tracked[v] < |j.lps| && j.lps[j.fleet.tracked[v]].vehicle == Some(v)
  }

  lemma TrackedInRuns(cfgs: seq<Config>, lps: seq<State>, actions: seq<Action>)
    requires |cfgs| == |lps| && Vacant(lps)
    ensures ProperRun(cfgs, lps, actions) ==> TracksActive(JointRun(cfgs, lps, actions))
  {
    RunIsMoves(cfgs, lps, actions);
    TrackingIsTrue(RunMoves(cfgs, lps, actions));
    if ProperRun(cfgs, lps, actions) { AgreesTracks(JointRun(cfgs, lps, actions)); }
  }

  lemma AgreesTracks(j: Joint)
    requires Agrees(j) && TrackedIsActive(j.fleet)
    ensures TracksActive(j)
  {
    forall v | v in j.fleet.tracked
      ensures j.fleet.tracked[v] < |j.lps| && j.lps[j.fleet.tracked[v]].vehicle == Some(v)
    {
      assert ActiveAt(j.fleet, j.fleet.tracked[v]) == Some(v);
    }
  }

  // No two loadpoints have the same vehicle.
  predicate Apart(lps: seq<State>) {
    forall i, k :: 0 <= i < k < |lps| && lps[i].vehicle.Some? ==> lps[i].vehicle != lps[k].vehicle
  }

  // ... and none share one at any moment of the run, if and only if the chargers' identifications
  // and the starts of loadpoints with a single vehicle only take vehicles that nobody else holds.
  lemma ApartInRuns(cfgs: seq<Config>, lps: seq<State>, actions: seq<Action>)
    requires |cfgs| == |lps| && Vacant(lps)
    ensures NeverShares(RunMoves(cfgs, lps, actions)) <==> AllFree(RunMoves(cfgs, lps, actions))
    ensures ProperRun(cfgs, lps, actions) && AllFree(RunMoves(cfgs, lps, actions)) ==>
      Apart(JointRun(cfgs, lps, actions).lps)
  {
    RunIsMoves(cfgs, lps, actions);
    NobodySharesExactly(RunMoves(cfgs, lps, actions));
    if ProperRun(cfgs, lps, actions) && AllFree(RunMoves(cfgs, lps, actions)) {
      AgreesApart(JointRun(cfgs, lps, actions));
    }
  }

  lemma AgreesApart(j: Joint)
    requires Agrees(j) && NoSharing(j.fleet)
    ensures Apart(j.lps)
  {
    forall i, k | 0 <= i < k < |j.lps| && j.lps[i].vehicle.Some? ensures j.lps[i].vehicle != j.lps[k].vehicle {
      assert ActiveAt(j.fleet, i) == j.lps[i].vehicle && ActiveAt(j.fleet, k) == j.lps[k].vehicle;
    }
  }
}

// core/coordinator.go and setActiveVehicle of core/loadpoint.go: which loadpoint has which vehicle.
module Coordination {
  import opened Base
  import opened Api

  type Owner = nat    // a loadpoint
  type Tracked = map<Vehicle, Owner>

  // A vehicle's answer when asked for its status; None is an error.
  type Statuses = Vehicle -> Option<ChargeStatus>

  predicate Available(tracked: Tracked, owner: Owner, v: Vehicle) {
    v.stateful && (v in tracked ==> tracked[v] == owner)
  }

  predicate PluggedIn(status: Statuses, v: Vehicle) {
    status(v) == Some(StatusB) || status(v) == Some(StatusC)
  }

  predicate Matching(tracked: Tracked, owner: Owner, status: Statuses, v: Vehicle) {
    Available(tracked, owner, v) && PluggedIn(status, v)
  }

  // Position `i` holds the one vehicle that is available and plugged in.
  predicate OnlyMatch(tracked: Tracked, owner: Owner, status: Statuses, vehicles: seq<Vehicle>, i: int) {
    && 0 <= i < |vehicles|
    && Matching(tracked, owner, status, vehicles[i])
    && forall j :: 0 <= j < |vehicles| && Matching(tracked, owner, status, vehicles[j]) ==> j == i
  }

  // The pick of identifyVehicleByStatus.
  ghost predicate Picks(tracked: Tracked, owner: Owner, status: Statuses, vehicles: seq<Vehicle>, res: Option<Vehicle>) {
    forall v :: res == Some(v) <==> exists i :: OnlyMatch(tracked, owner, status, vehicles, i) && vehicles[i] == v
  }

  function AvailableOf(tracked: Tracked, owner: Owner, vehicles: seq<Vehicle>): seq<Vehicle> {
    if vehicles == [] then []
    else
      AvailableOf(tracked, owner, vehicles[..|vehicles| - 1]) +
      if Available(tracked, owner, vehicles[|vehicles| - 1]) then [vehicles[|vehicles| - 1]] else []
  }

  function MatchesOf(tracked: Tracked, owner: Owner, status: Statuses, vehicles: seq<Vehicle>): seq<Vehicle> {
    if vehicles == [] then []
    else
      MatchesOf(tracked, owner, status, vehicles[..|vehicles| - 1]) +
      if Matching(tracked, owner, status, vehicles[|vehicles| - 1]) then [vehicles[|vehicles| - 1]] else []
  }

  function PluggedOf(status: Statuses, vehicles: seq<Vehicle>): seq<Vehicle> {
    if vehicles == [] then []
    else
      PluggedOf(status, vehicles[..|vehicles| - 1]) +
      if PluggedIn(status, vehicles[|vehicles| - 1]) then [vehicles[|vehicles| - 1]] else []
  }

  lemma {:induction false} PluggedAppend(status: Statuses, vehicles: seq<Vehicle>, v: Vehicle)
    ensures PluggedOf(status, vehicles + [v]) == PluggedOf(status, vehicles) + if PluggedIn(status, v) then [v] else []
  {
    assert (vehicles + [v])[..|vehicles|] == vehicles;
  }

  // Filtering in two passes is filtering once.
  lemma {:induction false} TwoPasses(tracked: Tracked, owner: Owner, status: Statuses, vehicles: seq<Vehicle>)
    ensures PluggedOf(status, AvailableOf(tracked, owner, vehicles)) == MatchesOf(tracked, owner, status, vehicles)
  {
    if vehicles != [] {
      var before := vehicles[..|vehicles| - 1];
      TwoPasses(tracked, owner, status, before);
      if Available(tracked, owner, vehicles[|vehicles| - 1]) {
        PluggedAppend(status, AvailableOf(tracked, owner, before), vehicles[|vehicles| - 1]);
      } else {
        assert AvailableOf(tracked, owner, vehicles) == AvailableOf(tracked, owner, before);
      }
    }
  }

  // No match among the first, or a single one, or several.
  lemma {:induction false} CountMatches(tracked: Tracked, owner: Owner, status: Statuses, vehicles: seq<Vehicle>)
    ensures var m := MatchesOf(tracked, owner, status, vehicles);
      && (m == [] <==> forall j :: 0 <= j < |vehicles| ==> !Matching(tracked, owner, status, vehicles[j]))
      && (|m| == 1 <==> exists i :: OnlyMatch(tracked, owner, status, vehicles, i))
      && (forall i :: OnlyMatch(tracked, owner, status, vehicles, i) ==> m == [vehicles[i]])
  {
    if vehicles != [] {
      var n := |vehicles| - 1;
      var before := vehicles[..n];
      CountMatches(tracked, owner, status, before);
      forall i | 0 <= i < n
        ensures OnlyMatch(tracked, owner, status, vehicles, i) <==>
          OnlyMatch(tracked, owner, status, before, i) && !Matching(tracked, owner, status, vehicles[n])
      {
        assert forall j :: 0 <= j < n ==> before[j] == vehicles[j];
      }
      assert OnlyMatch(tracked, owner, status, vehicles, n) <==>
        Matching(tracked, owner, status, vehicles[n]) && MatchesOf(tracked, owner, status, before) == [];
    }
  }

  lemma SingleMatchIsPick(tracked: Tracked, owner: Owner, status: Statuses, vehicles: seq<Vehicle>)
    ensures var m := MatchesOf(tracked, owner, status, vehicles);
      Picks(tracked, owner, status, vehicles, if |m| == 1 then Some(m[0]) else None)
  {
    CountMatches(tracked, owner, status, vehicles);
  }

  // It tells its status, nobody else holds it, and it is connected or charging.
  predicate CanBe(tracked: Tracked, owner: Owner, status: Statuses, v: Vehicle) {
    && v.stateful && (v in tracked ==> tracked[v] == owner)
    && status(v).Some? && (status(v).value == StatusB || status(v).value == StatusC)
  }

  // Position `i` alone holds a vehicle that it can be.
  predicate Alone(tracked: Tracked, owner: Owner, status: Statuses, vehicles: seq<Vehicle>, i: int) {
    0 <= i < |vehicles| && forall j :: 0 <= j < |vehicles| ==> (CanBe(tracked, owner, status, vehicles[j]) <==> j == i)
  }

  // A vehicle is picked exactly if it is alone among those it can be.
  lemma PickExactly(tracked: Tracked, owner: Owner, status: Statuses, vehicles: seq<Vehicle>, res: Option<Vehicle>, v: Vehicle)
    requires Picks(tracked, owner, status, vehicles, res)
    ensures res == Some(v) <==> exists i :: Alone(tracked, owner, status, vehicles, i) && vehicles[i] == v
  {
    forall i ensures OnlyMatch(tracked, owner, status, vehicles, i) <==> Alone(tracked, owner, status, vehicles, i) {
      if 0 <= i < |vehicles| {
        assert forall j :: 0 <= j < |vehicles| ==>
          (Matching(tracked, owner, status, vehicles[j]) <==> CanBe(tracked, owner, status, vehicles[j]));
      }
    }
  }

  // The only available vehicle that is plugged in is the pick.
  lemma PluggedDecides(tracked: Tracked, owner: Owner, status: Statuses, vehicles: seq<Vehicle>)
    ensures var plugged := PluggedOf(status, AvailableOf(tracked, owner, vehicles));
      Picks(tracked, owner, status, vehicles, if |plugged| == 1 then Some(plugged[0]) else None)
  {
    TwoPasses(tracked, owner, status, vehicles);
    SingleMatchIsPick(tracked, owner, status, vehicles);
  }

  class Coordinator {
    var tracked: Tracked

    constructor ()
      ensures tracked == map[]
    {
      tracked := map[];
    }

    method Acquire(owner: Owner, v: Vehicle)
      modifies this
      ensures tracked == old(tracked)[v := owner]
    {
      tracked := tracked[v := owner];
    }

    method Release(v: Vehicle)
      modifies this
      ensures tracked == old(tracked) - {v}
    {
      tracked := tracked - {v};
    }

    method AvailableVehicles(owner: Owner, vehicles: seq<Vehicle>) returns (res: seq<Vehicle>)
      ensures res == AvailableOf(tracked, owner, vehicles)
    {
      res := [];
      for i := 0 to |vehicles|
        invariant res == AvailableOf(tracked, owner, vehicles[..i])
      {
        assert vehicles[..i + 1][..i] == vehicles[..i];
        var v := vehicles[i];
        if v.stateful {
          if v !in tracked || tracked[v] == owner {
            res := res + [v];
          }
        }
      }
      assert vehicles[..|vehicles|] == vehicles;
    }

    // A vehicle is picked if and only if it is the single available vehicle that is plugged in.
    method IdentifyVehicleByStatus(owner: Owner, vehicles: seq<Vehicle>, status: Statuses)
      returns (res: Option<Vehicle>)
      ensures Picks(tracked, owner, status, vehicles, res)
    {
      var available := AvailableVehicles(owner, vehicles);
      res := None;
      for i := 0 to |available|
        invariant PluggedOf(status, available[..i]) == if res.Some? then [res.value] else []
      {
        assert available[..i + 1] == available[..i] + [available[i]];
        PluggedAppend(status, available[..i], available[i]);
        var s := status(available[i]);
        if s.None? {
          continue;
        }
        if s.value == StatusB || s.value == StatusC {
          if res.Some? {
            PluggedGrows(status, available, i + 1);
            PluggedDecides(tracked, owner, status, vehicles);
            return None;
          }
          res := Some(available[i]);
        }
      }
      assert available[..|available|] == available;
      PluggedDecides(tracked, owner, status, vehicles);
    }
  }

  lemma {:induction false} PluggedGrows(status: Statuses, vehicles: seq<Vehicle>, i: nat)
    requires i <= |vehicles|
    ensures |PluggedOf(status, vehicles[..i])| <= |PluggedOf(status, vehicles)|
    decreases |vehicles|
  {
    if i < |vehicles| {
      var before := vehicles[..|vehicles| - 1];
      assert before[..i] == vehicles[..i];
      PluggedGrows(status, before, i);
    } else {
      assert vehicles[..i] == vehicles;
    }
  }

  // ---------------------------------------------------------------- many loadpoints

  // What the coordinator tracks and which vehicle is active at each loadpoint (absent: none).
  datatype Fleet = Fleet(tracked: Tracked, active: map<Owner, Vehicle>)

  function ActiveAt(f: Fleet, lp: Owner): Option<Vehicle> {
    if lp in f.active then Some(f.active[lp]) else None
  }

  // setActiveVehicle
  function SetActive(f: Fleet, lp: Owner, v: Option<Vehicle>): Fleet {
    if ActiveAt(f, lp) == v then f
    else
      var released := if lp in f.active then f.tracked - {f.active[lp]} else f.tracked;
      if v.Some? then Fleet(released[v.value := lp], f.active[lp := v.value])
      else Fleet(released, f.active - {lp})
  }

  // A loadpoint's own part of setActiveVehicle, on the shared coordinator
  class Seat {
    const owner: Owner
    const coordinator: Coordinator
    var vehicle: Option<Vehicle>

    constructor (owner: Owner, coordinator: Coordinator)
      ensures this.owner == owner && this.coordinator == coordinator && vehicle == None
    {
      this.owner, this.coordinator, vehicle := owner, coordinator, None;
    }

    method SetActiveVehicle(v: Option<Vehicle>, ghost f: Fleet)
      requires f.tracked == coordinator.tracked && ActiveAt(f, owner) == vehicle
      modifies this, coordinator
      ensures var f1 := SetActive(f, owner, v);
        coordinator.tracked == f1.tracked && vehicle == ActiveAt(f1, owner)
    {
      if vehicle == v {
        return;
      }
      if vehicle.Some? {
        coordinator.Release(vehicle.value);
      }
      if v.Some? {
        coordinator.Acquire(owner, v.value);
      }
      vehicle := v;
    }
  }

  datatype Move =
      // identifyVehicleByStatus of a loadpoint with these vehicles
    | ByStatus(lp: Owner, vehicles: seq<Vehicle>, status: Statuses)
      // disconnect at a loadpoint with several vehicles
    | Unplug(lp: Owner)
      // identification by the charger, or the only vehicle in Prepare: no availability check
    | Directly(lp: Owner, vehicle: Vehicle)

  function Pick(tracked: Tracked, owner: Owner, status: Statuses, vehicles: seq<Vehicle>): Option<Vehicle> {
    var m := MatchesOf(tracked, owner, status, vehicles);
    if |m| == 1 then Some(m[0]) else None
  }

  function MoveOnce(f: Fleet, move: Move): Fleet {
    match move
    case Unplug(lp) => SetActive(f, lp, None)
    case Directly(lp, v) => SetActive(f, lp, Some(v))
    case ByStatus(lp, vehicles, status) =>
      if |vehicles| <= 1 then f
      else
        var picked := Pick(f.tracked, lp, status, vehicles);
        if picked.Some? then SetActive(f, lp, picked)
        else if lp in f.active && f.active[lp].stateful then SetActive(f, lp, None)
        else f
  }

  function Moves(f: Fleet, moves: seq<Move>): Fleet {
    if moves == [] then f else MoveOnce(Moves(f, moves[..|moves| - 1]), moves[|moves| - 1])
  }

  // What the coordinator tracks is true.
  predicate TrackedIsActive(f: Fleet) {
    forall v :: v in f.tracked ==> ActiveAt(f, f.tracked[v]) == Some(v)
  }

  // Every active vehicle is tracked for its loadpoint.
  predicate ActiveIsTracked(f: Fleet) {
    forall lp :: lp in f.active ==> f.active[lp] in f.tracked && f.tracked[f.active[lp]] == lp
  }

  predicate NoSharing(f: Fleet) {
    forall a, b :: a in f.active && b in f.active && f.active[a] == f.active[b] ==> a == b
  }

  const NOBODY := Fleet(map[], map[])

  // In every run the coordinator tracks only what is so.
  lemma {:induction false} TrackingIsTrue(moves: seq<Move>)
    ensures TrackedIsActive(Moves(NOBODY, moves))
  {
    if moves != [] { TrackingIsTrue(moves[..|moves| - 1]); }
  }

  lemma PickIsAvailable(f: Fleet, lp: Owner, status: Statuses, vehicles: seq<Vehicle>)
    ensures var picked := Pick(f.tracked, lp, status, vehicles);
      picked.Some? ==> Available(f.tracked, lp, picked.value)
  {
    CountMatches(f.tracked, lp, status, vehicles);
  }

  // Assigning a vehicle keeps tracking complete exactly when nobody else holds it.
  lemma AssignmentExactly(f: Fleet, lp: Owner, v: Vehicle)
    requires TrackedIsActive(f) && ActiveIsTracked(f)
    ensures ActiveIsTracked(SetActive(f, lp, Some(v))) <==> (v in f.tracked ==> f.tracked[v] == lp)
  {
    var f1 := SetActive(f, lp, Some(v));
    if v in f.tracked && f.tracked[v] != lp {
      assert f.active[f.tracked[v]] == v;
      assert f1.active[f.tracked[v]] == v && f1.tracked[v] == lp;
    }
  }

  // ... and so does not make loadpoints share a vehicle, exactly then.
  lemma SharingExactly(f: Fleet, lp: Owner, v: Vehicle)
    requires TrackedIsActive(f) && ActiveIsTracked(f)
    ensures NoSharing(SetActive(f, lp, Some(v))) <==> (v in f.tracked ==> f.tracked[v] == lp)
  {
    var f1 := SetActive(f, lp, Some(v));
    if v in f.tracked && f.tracked[v] != lp {
      var other := f.tracked[v];
      assert f.active[other] == v && f1.active[other] == v && f1.active[lp] == v;
    } else {
      AssignmentExactly(f, lp, v);
    }
  }

  // Identification by the charger takes a vehicle that nobody else holds.
  predicate Free(f: Fleet, move: Move) {
    move.Directly? ==> (move.vehicle in f.tracked ==> f.tracked[move.vehicle] == move.lp)
  }

  predicate AllFree(moves: seq<Move>) {
    if moves == [] then true
    else
      var before := moves[..|moves| - 1];
      AllFree(before) && Free(Moves(NOBODY, before), moves[|moves| - 1])
  }

  // At no moment of the run two loadpoints share a vehicle.
  predicate NeverShares(moves: seq<Move>) {
    NoSharing(Moves(NOBODY, moves)) && (moves == [] || NeverShares(moves[..|moves| - 1]))
  }

  lemma MoveTracks(f: Fleet, move: Move)
    requires TrackedIsActive(f) && ActiveIsTracked(f) && Free(f, move)
    ensures ActiveIsTracked(MoveOnce(f, move))
  {
    match move
    case ByStatus(lp, vehicles, status) =>
      if |vehicles| > 1 {
        PickIsAvailable(f, lp, status, vehicles);
        var picked := Pick(f.tracked, lp, status, vehicles);
        if picked.Some? { AssignmentExactly(f, lp, picked.value); }
      }
    case Directly(lp, v) => AssignmentExactly(f, lp, v);
    case Unplug(_) =>
  }

  // While the charger's identifications take free vehicles only, tracking is complete.
  lemma {:induction false} FreeMovesTrack(moves: seq<Move>)
    requires AllFree(moves)
    ensures ActiveIsTracked(Moves(NOBODY, moves))
  {
    if moves != [] {
      var before := moves[..|moves| - 1];
      FreeMovesTrack(before);
      TrackingIsTrue(before);
      MoveTracks(Moves(NOBODY, before), moves[|moves| - 1]);
    }
  }

  // No two loadpoints ever share a vehicle, if and only if identification by the charger only ever
  // takes vehicles that nobody else holds.
  lemma {:induction false} NobodySharesExactly(moves: seq<Move>)
    ensures NeverShares(moves) <==> AllFree(moves)
  {
    if moves != [] {
      var before, move := moves[..|moves| - 1], moves[|moves| - 1];
      NobodySharesExactly(before);
      if AllFree(before) {
        FreeMovesTrack(before);
        TrackingIsTrue(before);
        var f := Moves(NOBODY, before);
        if move.Directly? {
          SharingExactly(f, move.lp, move.vehicle);
        } else {
          MoveTracks(f, move);
        }
      }
    }
  }

  // If vehicles are found by status only, tracking is complete and no two loadpoints share a vehicle.
  lemma {:induction false} ByStatusNobodyShares(moves: seq<Move>)
    requires forall i :: 0 <= i < |moves| ==> !moves[i].Directly?
    ensures AllFree(moves)
    ensures var f := Moves(NOBODY, moves); ActiveIsTracked(f) && NoSharing(f)
  {
    if moves != [] {
      ByStatusNobodyShares(moves[..|moves| - 1]);
    }
    FreeMovesTrack(moves);
  }

  // Identification by the charger is not bound by this: two loadpoints may hold one vehicle, and
  // when the first lets go, the second is no longer tracked and a third may take it as well.
  lemma DirectMovesShare(v: Vehicle)
    ensures !NoSharing(Moves(NOBODY, [Directly(0, v), Directly(1, v)]))
    ensures var f := Moves(NOBODY, [Directly(0, v), Directly(1, v), Unplug(0)]);
      ActiveAt(f, 1) == Some(v) && v !in f.tracked
  {
    var a, b, c := Directly(0, v), Directly(1, v), Unplug(0);
    assert [a][..0] == [] && [a, b][..1] == [a] && [a, b, c][..2] == [a, b];
    assert Moves(NOBODY, []) == NOBODY;
    assert Moves(NOBODY, [a]) == MoveOnce(NOBODY, a);
    var f2 := Moves(NOBODY, [a, b]);
    assert f2 == MoveOnce(Moves(NOBODY, [a]), b);
    assert f2.active[0] == v && f2.active[1] == v;
    assert Moves(NOBODY, [a, b, c]) == MoveOnce(f2, c);
  }
}

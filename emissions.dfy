/**
 * One step of the decision rule (`get_emissions`): for each area of the grid, in order, the
 * emissions of the vehicles inside it are added up and appended to its history, the total is
 * pushed into its window, and the window sum decides between applying the guarded actions and
 * reversing them.
 */
module Emissions {
  import opened Wrappers
  import opened Geometry
  import opened Window
  import opened Model
  import opened Gateway
  import opened Actions
  import opened Configuration
  import opened Writes

  /** The emissions of the vehicles whose position lies in the rectangle, added in vehicle order. */
  function AreaTotal(vehicles: seq<Vehicle>, rect: Quad): Emission {
    if vehicles == [] then Zero()
    else
      var v := vehicles[|vehicles| - 1];
      if Contains(rect, v.pos) then AreaTotal(vehicles[..|vehicles| - 1], rect).Plus(v.emissions)
      else AreaTotal(vehicles[..|vehicles| - 1], rect)
  }

  /** The vehicles inside the rectangle, in order. */
  function Inside(vehicles: seq<Vehicle>, rect: Quad): (r: seq<Vehicle>)
    ensures forall v :: v in r <==> v in vehicles && Contains(rect, v.pos)
  {
    if vehicles == [] then []
    else
      var v := vehicles[|vehicles| - 1];
      Inside(vehicles[..|vehicles| - 1], rect) + (if Contains(rect, v.pos) then [v] else [])
  }

  /** The emissions of each vehicle, in order. */
  function EmissionsOf(vehicles: seq<Vehicle>): (r: seq<Emission>)
    ensures |r| == |vehicles| && forall i :: 0 <= i < |r| ==> r[i] == vehicles[i].emissions
  {
    if vehicles == [] then [] else EmissionsOf(vehicles[..|vehicles| - 1]) + [vehicles[|vehicles| - 1].emissions]
  }

  /** The area total is the sum of the emissions of exactly the vehicles inside the area. */
  lemma {:induction false} AreaTotalIsSumInside(vehicles: seq<Vehicle>, rect: Quad)
    ensures AreaTotal(vehicles, rect) == SumAll(EmissionsOf(Inside(vehicles, rect)))
  {
    if vehicles != [] {
      var init, v := vehicles[..|vehicles| - 1], vehicles[|vehicles| - 1];
      AreaTotalIsSumInside(init, rect);
      if Contains(rect, v.pos) {
        var ins := Inside(init, rect);
        assert EmissionsOf(ins + [v]) == EmissionsOf(ins) + [v.emissions];
        SumAllAppend(EmissionsOf(ins), v.emissions);
      } else {
        assert Inside(vehicles, rect) == Inside(init, rect);
      }
    }
  }

  /** A vehicle outside the rectangle (or on its border) adds nothing. */
  lemma AreaTotalIgnoresOutside(vehicles: seq<Vehicle>, v: Vehicle, rect: Quad)
    requires !Contains(rect, v.pos)
    ensures AreaTotal(vehicles + [v], rect) == AreaTotal(vehicles, rect)
  {
    assert (vehicles + [v])[..|vehicles|] == vehicles;
  }

  /** What one area's turn leaves: the area and the simulation, and the exception if one rose. */
  datatype StepResult = StepResult(out: Outcome, error: Option<WindowError>)

  /** The speed stage: limiting, and retiming nested under it. */
  function LimitStage(o: Outcome, s: Settings): Outcome {
    if s.limitSpeedMode && !o.area.limitedSpeed then
      var limited := LimitSpeed(o, s.speedRf);
      if s.adjustTrafficLightMode && !limited.area.tlsAdjusted then AdjustTrafficLights(limited, s.trafficLightsDurationRf)
      else limited
    else o
  }

  /** The lock stage: only when some vehicle is on the area's lanes. */
  function LockStage(o: Outcome, rd: Readings, s: Settings): Outcome {
    if s.lockAreaMode && !o.area.locked && VehicleCount(o.area.lanes, rd) != 0 then Lock(o) else o
  }

  /** The weight stage. */
  function WeightStage(o: Outcome, net: Network, rd: Readings, s: Settings): Outcome {
    if s.weightRoutingMode && !o.area.weightAdjusted then AdjustEdgesWeights(o, net, rd) else o
  }

  /** The decision on the window sum: the guarded actions at or above the threshold, else `reverse_actions`. */
  function Decide(o: Outcome, windowSum: real, net: Network, rd: Readings, s: Settings): Outcome {
    if windowSum >= s.emissionsThreshold then WeightStage(LockStage(LimitStage(o, s), rd, s), net, rd, s)
    else Reverse(o)
  }

  /** One area's turn in `get_emissions`. */
  function AreaStep(o: Outcome, net: Network, rd: Readings, vehicles: seq<Vehicle>, step: nat, s: Settings): (r: StepResult)
  {
    var appended := o.area.(history := o.area.history + [AreaTotal(vehicles, o.area.rect)]);
    match IntoWindow(appended, step)
    case Failure(e) => StepResult(Outcome(appended, o.sim), Some(e))
    case Success(pushed) =>
      StepResult(Decide(Outcome(pushed, o.sim), Sum(pushed.window), net, rd, s), None)
  }

  /** The areas after the grid loop, the simulation, and the exception that ended the loop, if any. */
  datatype GridResult = GridResult(areas: seq<AreaState>, sim: SimState, error: Option<WindowError>)

  /**
   * The grid after the turns of its first n areas, in grid order; once a turn raised, the
   * later areas are left untouched.
   */
  function GridPrefix(areas: seq<AreaState>, sim: SimState, net: Network, rd: Readings, vehicles: seq<Vehicle>, step: nat, s: Settings, n: nat): (g: GridResult)
    requires n <= |areas|
    ensures |g.areas| == |areas| && g.areas[n..] == areas[n..]
    decreases n
  {
    if n == 0 then GridResult(areas, sim, None)
    else
      var prev := GridPrefix(areas, sim, net, rd, vehicles, step, s, n - 1);
      if prev.error.Some? then prev
      else
        var r := AreaStep(Outcome(prev.areas[n - 1], prev.sim), net, rd, vehicles, step, s);
        assert prev.areas[n - 1 := r.out.area][n..] == prev.areas[n..];
        GridResult(prev.areas[n - 1 := r.out.area], r.out.sim, r.error)
  }

  /** `get_emissions` on values: every area takes its turn, unless an earlier one raised. */
  function GridStep(areas: seq<AreaState>, sim: SimState, net: Network, rd: Readings, vehicles: seq<Vehicle>, step: nat, s: Settings): GridResult
  {
    GridPrefix(areas, sim, net, rd, vehicles, step, s, |areas|)
  }

  // ----- properties -----

  /** Everything of an area but its four flags. */
  predicate SameContents(a: AreaState, b: AreaState) {
    a.rect == b.rect && a.name == b.name && a.history == b.history && a.window == b.window &&
    a.capacity == b.capacity && a.lanes == b.lanes && a.tls == b.tls
  }

  /** The decision only changes the flags of the area. */
  lemma DecideKeeps(o: Outcome, windowSum: real, net: Network, rd: Readings, s: Settings)
    ensures SameContents(Decide(o, windowSum, net, rd, s).area, o.area)
  {
    if windowSum >= s.emissionsThreshold {
      var o1 := LimitStage(o, s);
      assert SameContents(o1.area, o.area);
      var o2 := LockStage(o1, rd, s);
      assert SameContents(o2.area, o1.area);
      assert SameContents(WeightStage(o2, net, rd, s).area, o2.area);
    } else {
      ReverseFlags(o);
    }
  }

  /**
   * One area's turn appends exactly one entry, the total of the vehicles inside it; it fails
   * exactly when the window was never sized or the step is past the end of the history.
   */
  lemma AreaStepHistory(o: Outcome, net: Network, rd: Readings, vehicles: seq<Vehicle>, step: nat, s: Settings)
    ensures var r := AreaStep(o, net, rd, vehicles, step, s);
            r.out.area.history == o.area.history + [AreaTotal(vehicles, o.area.rect)] &&
            (r.error.Some? <==> o.area.capacity.None? || step > |o.area.history|) &&
            r.out.area.lanes == o.area.lanes && r.out.area.tls == o.area.tls && r.out.area.name == o.area.name &&
            r.out.area.rect == o.area.rect && (WindowBounded(o.area) ==> WindowBounded(r.out.area))
  {
    var appended := o.area.(history := o.area.history + [AreaTotal(vehicles, o.area.rect)]);
    if IntoWindow(appended, step).Success? {
      var pushed := IntoWindow(appended, step).value;
      DecideKeeps(Outcome(pushed, o.sim), Sum(pushed.window), net, rd, s);
    }
  }

  /** At or above the threshold, speed limiting is applied exactly when the mode is on and the area is not yet limited. */
  lemma LimitGuard(o: Outcome, windowSum: real, net: Network, rd: Readings, s: Settings)
    requires windowSum >= s.emissionsThreshold
    ensures Decide(o, windowSum, net, rd, s).area.limitedSpeed == (o.area.limitedSpeed || s.limitSpeedMode)
    ensures Decide(o, windowSum, net, rd, s).sim.maxSpeed ==
              if s.limitSpeedMode && !o.area.limitedSpeed then Apply(o.sim.maxSpeed, SpeedLimitWrites(o.area.lanes, s.speedRf))
              else o.sim.maxSpeed
  {
  }

  /**
   * Retiming is nested under speed limiting: it happens only in the step where the speed limit
   * is newly applied, and only if the lights are not already retimed.
   */
  lemma RetimeNested(o: Outcome, windowSum: real, net: Network, rd: Readings, s: Settings)
    requires windowSum >= s.emissionsThreshold
    ensures var retimed := s.limitSpeedMode && !o.area.limitedSpeed && s.adjustTrafficLightMode && !o.area.tlsAdjusted;
            Decide(o, windowSum, net, rd, s).area.tlsAdjusted == (o.area.tlsAdjusted || retimed) &&
            Decide(o, windowSum, net, rd, s).sim.program ==
              if retimed then Apply(o.sim.program, RetimeWrites(o.area.tls, s.trafficLightsDurationRf)) else o.sim.program
  {
  }

  /**
   * A stage of limiting (and the retiming nested in it) followed by `reverse_actions` leaves no
   * trace of the stage: the speeds are the restoring ones wherever the area is or became limited,
   * the programs the stored ones wherever it is or became retimed, and all three flags are down.
   */
  lemma LimitStageThenReverse(o: Outcome, s: Settings)
    ensures var r := Reverse(LimitStage(o, s));
            var limited := o.area.limitedSpeed || s.limitSpeedMode;
            var retimed := s.limitSpeedMode && !o.area.limitedSpeed && s.adjustTrafficLightMode && !o.area.tlsAdjusted;
            r.area == o.area.(limitedSpeed := false, tlsAdjusted := false, locked := false) &&
            r.sim.maxSpeed == (if limited then Apply(o.sim.maxSpeed, SpeedRestoreWrites(o.area.lanes)) else o.sim.maxSpeed) &&
            r.sim.program == (if o.area.tlsAdjusted || retimed then Apply(o.sim.program, BaselineWrites(o.area.tls)) else o.sim.program)
  {
    if s.limitSpeedMode && !o.area.limitedSpeed {
      var limited := LimitSpeed(o, s.speedRf);
      LimitThenReverse(o, s.speedRf);
      if s.adjustTrafficLightMode && !limited.area.tlsAdjusted {
        RetimeThenReverse(limited, s.trafficLightsDurationRf);
        var t := AdjustTrafficLights(limited, s.trafficLightsDurationRf);
        assert Reverse(t).sim.maxSpeed == Reverse(limited).sim.maxSpeed;
      }
    }
  }

  /** Locking needs the mode, an unlocked area, and at least one vehicle on the area's lanes. */
  lemma LockGuard(o: Outcome, windowSum: real, net: Network, rd: Readings, s: Settings)
    requires windowSum >= s.emissionsThreshold
    ensures var locking := s.lockAreaMode && !o.area.locked && VehicleCount(o.area.lanes, rd) != 0;
            Decide(o, windowSum, net, rd, s).area.locked == (o.area.locked || locking) &&
            Decide(o, windowSum, net, rd, s).sim.permission ==
              if locking then Apply(o.sim.permission, PermissionWrites(o.area.lanes, Disallowed("passenger"))) else o.sim.permission
  {
  }

  /**
   * Nothing clears `weight_adjusted`: once set it stays set, and the efforts and reroutes are
   * never touched again; so weights are adjusted at most once per area and run.
   */
  lemma WeightAdjustedOnce(o: Outcome, windowSum: real, net: Network, rd: Readings, s: Settings)
    ensures o.area.weightAdjusted ==> Decide(o, windowSum, net, rd, s).area.weightAdjusted
    ensures o.area.weightAdjusted ==>
              Decide(o, windowSum, net, rd, s).sim.effort == o.sim.effort &&
              Decide(o, windowSum, net, rd, s).sim.rerouted == o.sim.rerouted
    ensures windowSum >= s.emissionsThreshold ==>
              Decide(o, windowSum, net, rd, s).area.weightAdjusted == (o.area.weightAdjusted || s.weightRoutingMode)
  {
  }

  /** Below the threshold the area is reversed. */
  lemma BelowThresholdReverses(o: Outcome, windowSum: real, net: Network, rd: Readings, s: Settings)
    requires windowSum < s.emissionsThreshold
    ensures Decide(o, windowSum, net, rd, s) == Reverse(o)
  {
  }

  /** Under normalised settings, weight routing is the only action that can fire. */
  lemma NormalisedWeightRoutingAlone(o: Outcome, windowSum: real, net: Network, rd: Readings, s: Settings)
    requires Normalised(s) && s.weightRoutingMode && windowSum >= s.emissionsThreshold
    ensures var r := Decide(o, windowSum, net, rd, s);
            r.sim.maxSpeed == o.sim.maxSpeed && r.sim.program == o.sim.program && r.sim.permission == o.sim.permission &&
            r.area.limitedSpeed == o.area.limitedSpeed && r.area.tlsAdjusted == o.area.tlsAdjusted && r.area.locked == o.area.locked
  {
  }

  /** In the reference simulation no action fires, only reversals. */
  lemma ReferenceRunActsNever(o: Outcome, windowSum: real, net: Network, rd: Readings, s: Settings)
    requires Normalised(s) && s.withoutActionsMode && windowSum >= s.emissionsThreshold
    ensures Decide(o, windowSum, net, rd, s) == o
  {
  }

  /**
   * With one call per step (the history had one entry per earlier step and the window saw each
   * of them), the window after the turn holds the trailing values and its sum is the sum of the
   * last min(k, step + 1) totals.
   */
  lemma AreaStepWindow(o: Outcome, net: Network, rd: Readings, vehicles: seq<Vehicle>, step: nat, s: Settings)
    requires o.area.capacity.Some? && step == |o.area.history|
    requires o.area.window == WindowAfter(Values(o.area.history), o.area.capacity.value)
    ensures var r := AreaStep(o, net, rd, vehicles, step, s).out.area;
            var k := o.area.capacity.value;
            r.window == WindowAfter(Values(r.history), k) &&
            Sum(r.window) == Sum(Values(r.history)[|r.history| - MinNat(k, |r.history|)..])
  {
    AreaStepPush(o, net, rd, vehicles, step, s);
    PushTrailing(o.area.history, o.area.window, AreaTotal(vehicles, o.area.rect), o.area.capacity.value);
  }

  /** A turn at the step just past the history pushes the new total into the window. */
  lemma AreaStepPush(o: Outcome, net: Network, rd: Readings, vehicles: seq<Vehicle>, step: nat, s: Settings)
    requires o.area.capacity.Some? && step == |o.area.history|
    ensures var r := AreaStep(o, net, rd, vehicles, step, s).out.area;
            var x := AreaTotal(vehicles, o.area.rect);
            r.history == o.area.history + [x] && r.window == PushFront(o.area.window, x.Value(), o.area.capacity.value)
  {
    var appended := o.area.(history := o.area.history + [AreaTotal(vehicles, o.area.rect)]);
    var pushed := IntoWindow(appended, step).value;
    DecideKeeps(Outcome(pushed, o.sim), Sum(pushed.window), net, rd, s);
  }

  /**
   * After n turns without an exception, each of the first n areas has gained exactly one history
   * entry, its own total, and the others none; no turn changes an area's lanes, name or rectangle.
   */
  lemma {:induction false} GridPrefixHistories(areas: seq<AreaState>, sim: SimState, net: Network, rd: Readings, vehicles: seq<Vehicle>, step: nat, s: Settings, n: nat)
    requires n <= |areas|
    ensures var g := GridPrefix(areas, sim, net, rd, vehicles, step, s, n);
            (forall j :: 0 <= j < |areas| ==>
               g.areas[j].lanes == areas[j].lanes && g.areas[j].name == areas[j].name && g.areas[j].rect == areas[j].rect) &&
            (g.error.None? ==> forall j :: 0 <= j < n ==>
               g.areas[j].history == areas[j].history + [AreaTotal(vehicles, areas[j].rect)])
    decreases n
  {
    if n > 0 {
      GridPrefixHistories(areas, sim, net, rd, vehicles, step, s, n - 1);
      var prev := GridPrefix(areas, sim, net, rd, vehicles, step, s, n - 1);
      if prev.error.None? {
        assert prev.areas[n - 1] == areas[n - 1] by {
          assert prev.areas[n - 1..][0] == areas[n - 1..][0];
        }
        AreaStepHistory(Outcome(prev.areas[n - 1], prev.sim), net, rd, vehicles, step, s);
      }
    }
  }

  /** So after a whole call without an exception, every area of the grid holds one more entry. */
  lemma GridStepHistories(areas: seq<AreaState>, sim: SimState, net: Network, rd: Readings, vehicles: seq<Vehicle>, step: nat, s: Settings)
    ensures var g := GridStep(areas, sim, net, rd, vehicles, step, s);
            |g.areas| == |areas| &&
            (forall j :: 0 <= j < |areas| ==>
               g.areas[j].lanes == areas[j].lanes && g.areas[j].name == areas[j].name && g.areas[j].rect == areas[j].rect) &&
            (g.error.None? ==> forall j :: 0 <= j < |areas| ==>
               g.areas[j].history == areas[j].history + [AreaTotal(vehicles, areas[j].rect)])
  {
    GridPrefixHistories(areas, sim, net, rd, vehicles, step, s, |areas|);
  }

  /**
   * An area whose window has capacity k and whose history holds one entry per step so far: the
   * window then holds the values of the last (at most k) entries, newest first.
   */
  predicate Tracks(a: AreaState, step: nat, k: nat) {
    a.capacity == Some(k) && |a.history| == step && a.window == WindowAfter(Values(a.history), k)
  }

  /**
   * When every area tracks its history at this step, no area raises, and every area that has
   * taken its turn tracks its history at the next step.
   */
  lemma {:induction false} GridPrefixTracks(areas: seq<AreaState>, sim: SimState, net: Network, rd: Readings, vehicles: seq<Vehicle>, step: nat, s: Settings, k: nat, n: nat)
    requires n <= |areas| && forall j :: 0 <= j < |areas| ==> Tracks(areas[j], step, k)
    ensures var g := GridPrefix(areas, sim, net, rd, vehicles, step, s, n);
            g.error.None? && forall j :: 0 <= j < n ==> Tracks(g.areas[j], step + 1, k)
    decreases n
  {
    if n > 0 {
      GridPrefixTracks(areas, sim, net, rd, vehicles, step, s, k, n - 1);
      var prev := GridPrefix(areas, sim, net, rd, vehicles, step, s, n - 1);
      assert prev.areas[n - 1] == areas[n - 1] by {
        assert prev.areas[n - 1..][0] == areas[n - 1..][0];
      }
      var o := Outcome(prev.areas[n - 1], prev.sim);
      AreaStepHistory(o, net, rd, vehicles, step, s);
      AreaStepWindow(o, net, rd, vehicles, step, s);
      var h := o.area.history + [AreaTotal(vehicles, o.area.rect)];
      var pushed := IntoWindow(o.area.(history := h), step).value;
      DecideKeeps(Outcome(pushed, o.sim), Sum(pushed.window), net, rd, s);
    }
  }

  /** Once a turn has raised, no later area takes its turn. */
  lemma {:induction false} ErrorStops(areas: seq<AreaState>, sim: SimState, net: Network, rd: Readings, vehicles: seq<Vehicle>, step: nat, s: Settings, n: nat, m: nat)
    requires n <= m <= |areas|
    requires GridPrefix(areas, sim, net, rd, vehicles, step, s, n).error.Some?
    ensures GridPrefix(areas, sim, net, rd, vehicles, step, s, m) == GridPrefix(areas, sim, net, rd, vehicles, step, s, n)
    decreases m
  {
    if m > n {
      ErrorStops(areas, sim, net, rd, vehicles, step, s, n, m - 1);
      GridPrefixRaised(areas, sim, net, rd, vehicles, step, s, m);
    }
  }

  /** A turn after one that raised does not happen. */
  lemma GridPrefixRaised(areas: seq<AreaState>, sim: SimState, net: Network, rd: Readings, vehicles: seq<Vehicle>, step: nat, s: Settings, n: nat)
    requires 0 < n <= |areas|
    requires GridPrefix(areas, sim, net, rd, vehicles, step, s, n - 1).error.Some?
    ensures GridPrefix(areas, sim, net, rd, vehicles, step, s, n) == GridPrefix(areas, sim, net, rd, vehicles, step, s, n - 1)
  {
  }

  /** Why `get_reduction_percentage` raises: a reference total of 0 (ZeroDivisionError). */
  datatype PercentageError = ZeroReference

  /** `get_reduction_percentage(ref, total)`: `(ref - total) / ref * 100`. */
  function ReductionPercentage(ref: real, total: real): (r: Result<real, PercentageError>)
    ensures r.Failure? <==> ref == 0.0
    ensures r.Success? ==> r.value * ref == 100.0 * (ref - total)
  {
    if ref == 0.0 then Failure(ZeroReference) else Success((ref - total) / ref * 100.0)
  }

  /** A simulation that emits as much as its reference shows no reduction, and less emission is a positive one. */
  lemma ReductionSign(ref: real, total: real)
    requires ref > 0.0
    ensures ReductionPercentage(ref, total) == Success(0.0) <==> total == ref
    ensures ReductionPercentage(ref, total).value > 0.0 <==> total < ref
  {
    var v := ReductionPercentage(ref, total).value;
    assert v * ref == 100.0 * (ref - total);
  }

  /** 80000 mg against a reference of 100000 mg is a 20 % reduction. */
  lemma ReductionExample()
    ensures ReductionPercentage(100000.0, 80000.0) == Success(20.0)
  {
  }

  /** The vehicles of a step, in the engine's order, with their positions and emissions. */
  function Snapshot(rd: Readings): (vehicles: seq<Vehicle>)
    ensures |vehicles| == |rd.vehicleIds|
    ensures forall i :: 0 <= i < |vehicles| ==>
              vehicles[i] == Vehicle(rd.vehicleIds[i], rd.position(rd.vehicleIds[i]), rd.vehicleEmission(rd.vehicleIds[i]))
  {
    seq(|rd.vehicleIds|, i requires 0 <= i < |rd.vehicleIds| =>
      Vehicle(rd.vehicleIds[i], rd.position(rd.vehicleIds[i]), rd.vehicleEmission(rd.vehicleIds[i])))
  }

  // ----- the methods -----

  /** `get_all_vehicles`: a snapshot of every vehicle of the step, in the engine's order. */
  method GetAllVehicles(gw: Gateway) returns (vehicles: seq<Vehicle>)
    ensures vehicles == Snapshot(gw.readings)
  {
    vehicles := [];
    var ids := gw.readings.vehicleIds;
    var i := 0;
    while i < |ids|
      invariant 0 <= i <= |ids| && |vehicles| == i
      invariant forall k :: 0 <= k < i ==>
                  vehicles[k] == Vehicle(ids[k], gw.readings.position(ids[k]), gw.readings.vehicleEmission(ids[k]))
    {
      var id := ids[i];
      vehicles := vehicles + [Vehicle(id, gw.readings.position(id), gw.readings.vehicleEmission(id))];
      i := i + 1;
    }
  }

  /** The accumulation of `total_emissions` over the vehicles. */
  method TotalInArea(area: Area, vehicles: seq<Vehicle>) returns (total: Emission)
    ensures total == AreaTotal(vehicles, area.rect)
  {
    total := Zero();
    var i := 0;
    while i < |vehicles|
      invariant 0 <= i <= |vehicles|
      invariant total == AreaTotal(vehicles[..i], area.rect)
    {
      assert vehicles[..i + 1][..i] == vehicles[..i];
      if area.Contains(vehicles[i].pos) {
        total := total.Plus(vehicles[i].emissions);
      }
      i := i + 1;
    }
    assert vehicles[..i] == vehicles;
  }

  method LimitStageOf(area: Area, gw: Gateway, s: Settings)
    modifies area`limitedSpeed, area`tlsAdjusted, gw`maxSpeed, gw`program
    ensures Outcome(area.State(), gw.Sim()) == LimitStage(Outcome(old(area.State()), old(gw.Sim())), s)
  {
    if s.limitSpeedMode && !area.limitedSpeed {
      LimitSpeedIntoArea(area, gw, s.speedRf);
      if s.adjustTrafficLightMode && !area.tlsAdjusted {
        AdjustTrafficLightPhaseDuration(area, gw, s.trafficLightsDurationRf);
      }
    }
  }

  method LockStageOf(area: Area, gw: Gateway, s: Settings)
    modifies area`locked, gw`permission
    ensures Outcome(area.State(), gw.Sim()) == LockStage(Outcome(old(area.State()), old(gw.Sim())), gw.readings, s)
  {
    if s.lockAreaMode && !area.locked {
      var count := CountVehiclesInArea(area, gw);
      if count != 0 {
        LockArea(area, gw);
      }
    }
  }

  method WeightStageOf(area: Area, gw: Gateway, s: Settings)
    modifies area`weightAdjusted, gw`effort, gw`rerouted
    ensures Outcome(area.State(), gw.Sim()) == WeightStage(Outcome(old(area.State()), old(gw.Sim())), gw.net, gw.readings, s)
  {
    if s.weightRoutingMode && !area.weightAdjusted {
      AdjustEdgesWeightsOf(area, gw);
    }
  }

  /** The decision for one area, once its window sum is known. */
  method DecideFor(area: Area, gw: Gateway, windowSum: real, s: Settings)
    modifies area`limitedSpeed, area`tlsAdjusted, area`locked, area`weightAdjusted
    modifies gw`maxSpeed, gw`program, gw`permission, gw`effort, gw`rerouted
    ensures Outcome(area.State(), gw.Sim()) == Decide(Outcome(old(area.State()), old(gw.Sim())), windowSum, gw.net, gw.readings, s)
  {
    if windowSum >= s.emissionsThreshold {
      LimitStageOf(area, gw, s);
      LockStageOf(area, gw, s);
      WeightStageOf(area, gw, s);
    } else {
      ReverseActions(area, gw);
    }
  }

  /** One area's turn: aggregate, append, push into the window, decide. */
  method ProcessArea(area: Area, gw: Gateway, vehicles: seq<Vehicle>, step: nat, s: Settings) returns (error: Option<WindowError>)
    modifies area, gw
    ensures gw.readings == old(gw.readings)
    ensures StepResult(Outcome(area.State(), gw.Sim()), error) ==
              AreaStep(Outcome(old(area.State()), old(gw.Sim())), gw.net, gw.readings, vehicles, step, s)
  {
    var total := TotalInArea(area, vehicles);
    area.history := area.history + [total];
    var windowSum := area.SumEmissionsIntoWindow(step);
    if windowSum.Failure? {
      return Some(windowSum.error);
    }
    DecideFor(area, gw, windowSum.value, s);
    error := None;
  }

  /** `get_emissions(grid, vehicles, current_step, config, logger)` */
  method GetEmissions(grid: seq<Area>, gw: Gateway, vehicles: seq<Vehicle>, step: nat, s: Settings) returns (error: Option<WindowError>)
    requires DistinctAreas(grid)
    modifies grid, gw
    ensures gw.readings == old(gw.readings)
    ensures GridResult(States(grid), gw.Sim(), error) ==
              GridStep(old(States(grid)), old(gw.Sim()), gw.net, gw.readings, vehicles, step, s)
  {
    ghost var s0 := States(grid);
    ghost var sim0 := gw.Sim();
    ghost var cur := s0;
    error := None;
    var i := 0;
    while i < |grid|
      invariant 0 <= i <= |grid| && |cur| == |grid| && gw.readings == old(gw.readings) && error.None?
      invariant forall j :: 0 <= j < |grid| ==> grid[j].State() == cur[j]
      invariant GridResult(cur, gw.Sim(), None) == GridPrefix(s0, sim0, gw.net, gw.readings, vehicles, step, s, i)
    {
      error, cur := ProcessAt(grid, i, gw, vehicles, step, s, cur);
      if error.Some? {
        ErrorStops(s0, sim0, gw.net, gw.readings, vehicles, step, s, i + 1, |grid|);
        StatesAre(grid, cur);
        return;
      }
      i := i + 1;
    }
    StatesAre(grid, cur);
  }

  /** The turn of the area at index `i`, with the grid's states tracked as values. */
  method ProcessAt(grid: seq<Area>, i: nat, gw: Gateway, vehicles: seq<Vehicle>, step: nat, s: Settings,
                   ghost cur: seq<AreaState>) returns (error: Option<WindowError>, ghost next: seq<AreaState>)
    requires DistinctAreas(grid) && i < |grid| && |cur| == |grid|
    requires forall j :: 0 <= j < |grid| ==> grid[j].State() == cur[j]
    modifies grid[i], gw
    ensures gw.readings == old(gw.readings)
    ensures var r := AreaStep(Outcome(cur[i], old(gw.Sim())), gw.net, gw.readings, vehicles, step, s);
            next == cur[i := r.out.area] && gw.Sim() == r.out.sim && error == r.error
    ensures forall j :: 0 <= j < |grid| ==> grid[j].State() == next[j]
  {
    ghost var r := AreaStep(Outcome(cur[i], gw.Sim()), gw.net, gw.readings, vehicles, step, s);
    DistinctAt(grid, i);
    label before:
    error := ProcessArea(grid[i], gw, vehicles, step, s);
    assert StepResult(Outcome(grid[i].State(), gw.Sim()), error) == r;
    next := cur[i := r.out.area];
    forall j | 0 <= j < |grid| ensures grid[j].State() == next[j] {
      if j != i {
        assert grid[j].State() == old@before(grid[j].State()) == cur[j];
      }
    }
  }

  /** The states of the grid's areas are the given ones. */
  lemma StatesAre(grid: seq<Area>, cur: seq<AreaState>)
    requires |cur| == |grid| && forall j :: 0 <= j < |grid| ==> grid[j].State() == cur[j]
    ensures States(grid) == cur
  {
  }

}

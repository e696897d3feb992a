/**
 * The mitigation actions on one area. Each sets a flag of the area and writes into the
 * simulation: lane maximum speeds, traffic-light programs, lane permissions, edge efforts.
 * `reverse_actions` clears the flags again and writes the baselines back.
 *
 * Each action is first given as a function on values (an `Outcome`: the area's state and the
 * simulation's), about which the properties are proved; the methods on `Model.Area` and
 * `Gateway.Gateway` issue the same calls one by one and are proved to reach that outcome.
 */
module Actions {
  import opened Wrappers
  import opened Model
  import opened Gateway
  import opened Writes

  /** An area and the simulation, after (or before) an action. */
  datatype Outcome = Outcome(area: AreaState, sim: SimState)


  /** The calls `setMaxSpeed(lane, rf * initial_max_speed)`, one per lane, in order. */
  function SpeedLimitWrites(lanes: seq<Lane>, rf: real): seq<(LaneId, real)> {
    seq(|lanes|, i requires 0 <= i < |lanes| => (lanes[i].laneId, Scale(lanes[i].initialMaxSpeed, rf)))
  }

  /** The calls `setMaxSpeed(lane, initial_max_speed)`, one per lane, in order. */
  function SpeedRestoreWrites(lanes: seq<Lane>): seq<(LaneId, real)> {
    seq(|lanes|, i requires 0 <= i < |lanes| => (lanes[i].laneId, lanes[i].initialMaxSpeed))
  }

  /** One permission call per lane, in order. */
  function PermissionWrites(lanes: seq<Lane>, p: Permission): seq<(LaneId, Permission)> {
    seq(|lanes|, i requires 0 <= i < |lanes| => (lanes[i].laneId, p))
  }

  /** `compute_edge_weight`: the five pollutant readings of the edge added up. */
  function ComputeEdgeWeight(rd: Readings, edge: EdgeId): (w: real)
    ensures w == rd.edgeEmission(edge).Value()
  {
    var e := rd.edgeEmission(edge);
    e.co2 + e.co + e.nox + e.hc + e.pmx
  }

  /** The calls `setEffort(edge_of(lane), compute_edge_weight(edge_of(lane)))`, one per lane. */
  function EffortWrites(lanes: seq<Lane>, net: Network, rd: Readings): seq<(EdgeId, real)> {
    seq(|lanes|, i requires 0 <= i < |lanes| =>
      (net.laneEdge(lanes[i].laneId), ComputeEdgeWeight(rd, net.laneEdge(lanes[i].laneId))))
  }

  /** Each phase with its three durations multiplied by `rf`, its definition kept. */
  function ScaledPhases(phases: seq<Phase>, rf: real): (r: seq<Phase>)
    ensures |r| == |phases|
    ensures forall i :: 0 <= i < |phases| ==>
              r[i] == Phase(Scale(phases[i].duration, rf), Scale(phases[i].minDuration, rf), Scale(phases[i].maxDuration, rf), phases[i].phaseDef)
  {
    if phases == [] then []
    else
      var p := phases[|phases| - 1];
      ScaledPhases(phases[..|phases| - 1], rf) + [Phase(Scale(p.duration, rf), Scale(p.minDuration, rf), Scale(p.maxDuration, rf), p.phaseDef)]
  }

  /** `modifyLogic`: a program named "new-program", of type, sub-parameter and current index 0. */
  function ModifiedLogic(logic: Logic, rf: real): SumoLogic {
    SumoLogic("new-program", 0, 0, 0, ScaledPhases(logic.phases, rf))
  }

  /** The calls installing the retimed version of each captured logic of one traffic light. */
  function TlRetimeWrites(tl: TrafficLight, rf: real): seq<(TlId, SumoLogic)> {
    seq(|tl.logics|, k requires 0 <= k < |tl.logics| => (tl.tlId, ModifiedLogic(tl.logics[k], rf)))
  }

  /** The calls installing each captured logic of one traffic light as it was captured. */
  function TlBaselineWrites(tl: TrafficLight): seq<(TlId, SumoLogic)> {
    seq(|tl.logics|, k requires 0 <= k < |tl.logics| => (tl.tlId, tl.logics[k].sumoLogic))
  }

  /** The retiming calls for all traffic lights, light after light. */
  function RetimeWrites(tls: seq<TrafficLight>, rf: real): seq<(TlId, SumoLogic)> {
    if tls == [] then [] else RetimeWrites(tls[..|tls| - 1], rf) + TlRetimeWrites(tls[|tls| - 1], rf)
  }

  /** The restoring calls for all traffic lights, light after light. */
  function BaselineWrites(tls: seq<TrafficLight>): seq<(TlId, SumoLogic)> {
    if tls == [] then [] else BaselineWrites(tls[..|tls| - 1]) + TlBaselineWrites(tls[|tls| - 1])
  }

  /** `limit_speed_into_area` */
  function LimitSpeed(o: Outcome, rf: real): Outcome {
    Outcome(o.area.(limitedSpeed := true),
            o.sim.(maxSpeed := Apply(o.sim.maxSpeed, SpeedLimitWrites(o.area.lanes, rf))))
  }

  /** `adjust_traffic_light_phase_duration` */
  function AdjustTrafficLights(o: Outcome, rf: real): Outcome {
    Outcome(o.area.(tlsAdjusted := true),
            o.sim.(program := Apply(o.sim.program, RetimeWrites(o.area.tls, rf))))
  }

  /** `lock_area`: the passenger class is disallowed on every lane of the area. */
  function Lock(o: Outcome): Outcome {
    Outcome(o.area.(locked := true),
            o.sim.(permission := Apply(o.sim.permission, PermissionWrites(o.area.lanes, Disallowed("passenger")))))
  }

  /** `adjust_edges_weights`: efforts of the area's edges, then a reroute of every vehicle. */
  function AdjustEdgesWeights(o: Outcome, net: Network, rd: Readings): Outcome {
    Outcome(o.area.(weightAdjusted := true),
            o.sim.(effort := Apply(o.sim.effort, EffortWrites(o.area.lanes, net, rd)),
                   rerouted := o.sim.rerouted + rd.vehicleIds))
  }

  /** The speed part of `reverse_actions`. */
  function RestoreSpeeds(o: Outcome): Outcome {
    if o.area.limitedSpeed then
      Outcome(o.area.(limitedSpeed := false),
              o.sim.(maxSpeed := Apply(o.sim.maxSpeed, SpeedRestoreWrites(o.area.lanes))))
    else o
  }

  /** The traffic-light part of `reverse_actions`. */
  function RestorePrograms(o: Outcome): Outcome {
    if o.area.tlsAdjusted then
      Outcome(o.area.(tlsAdjusted := false),
              o.sim.(program := Apply(o.sim.program, BaselineWrites(o.area.tls))))
    else o
  }

  /** The unlocking part of `reverse_actions`: the empty class list allows every class. */
  function Unlock(o: Outcome): Outcome {
    if o.area.locked then
      Outcome(o.area.(locked := false),
              o.sim.(permission := Apply(o.sim.permission, PermissionWrites(o.area.lanes, Allowed("")))))
    else o
  }

  /** `reverse_actions`: speeds, then traffic lights, then the lock. */
  function Reverse(o: Outcome): Outcome {
    Unlock(RestorePrograms(RestoreSpeeds(o)))
  }

  /** The last-step vehicle counts of the lanes, added up. */
  function VehicleCount(lanes: seq<Lane>, rd: Readings): nat {
    if lanes == [] then 0 else VehicleCount(lanes[..|lanes| - 1], rd) + rd.laneVehicleCount(lanes[|lanes| - 1].laneId)
  }

  // ----- properties -----

  lemma SpeedLimitKeys(lanes: seq<Lane>, rf: real)
    ensures KeysOf(SpeedLimitWrites(lanes, rf)) == KeysOf(SpeedRestoreWrites(lanes))
    ensures UniqueLaneIds(lanes) ==> DistinctKeys(SpeedLimitWrites(lanes, rf)) && DistinctKeys(SpeedRestoreWrites(lanes))
  {
    var a, b := SpeedLimitWrites(lanes, rf), SpeedRestoreWrites(lanes);
    forall k | k in KeysOf(a) ensures k in KeysOf(b) {
      var i :| 0 <= i < |a| && a[i].0 == k;
      assert b[i].0 == k;
    }
    forall k | k in KeysOf(b) ensures k in KeysOf(a) {
      var i :| 0 <= i < |b| && b[i].0 == k;
      assert a[i].0 == k;
    }
  }

  /**
   * Limiting sets every lane of the area to rf times its initial maximum speed (never to a
   * multiple of its current speed) and changes no other lane; the flag is set and nothing else
   * of the area changes.
   */
  lemma LimitSpeedEffect(o: Outcome, rf: real, id: LaneId)
    requires UniqueLaneIds(o.area.lanes)
    ensures LimitSpeed(o, rf).area == o.area.(limitedSpeed := true)
    ensures forall l :: l in o.area.lanes ==>
              l.laneId in LimitSpeed(o, rf).sim.maxSpeed && LimitSpeed(o, rf).sim.maxSpeed[l.laneId] == Scale(l.initialMaxSpeed, rf)
    ensures (forall l :: l in o.area.lanes ==> l.laneId != id) ==>
              (id in LimitSpeed(o, rf).sim.maxSpeed <==> id in o.sim.maxSpeed) &&
              (id in o.sim.maxSpeed ==> LimitSpeed(o, rf).sim.maxSpeed[id] == o.sim.maxSpeed[id])
  {
    var lanes := o.area.lanes;
    var w := SpeedLimitWrites(lanes, rf);
    SpeedLimitKeys(lanes, rf);
    forall l | l in lanes
      ensures l.laneId in LimitSpeed(o, rf).sim.maxSpeed && LimitSpeed(o, rf).sim.maxSpeed[l.laneId] == Scale(l.initialMaxSpeed, rf)
    {
      var i :| 0 <= i < |lanes| && lanes[i] == l;
      LastWriteOfDistinct(w, i);
      ApplyLookup(o.sim.maxSpeed, w, l.laneId);
    }
    if forall l :: l in lanes ==> l.laneId != id {
      ApplyLookup(o.sim.maxSpeed, w, id);
    }
  }

  /** Limiting twice gives the speeds limiting once gives. */
  lemma LimitSpeedIdempotent(o: Outcome, rf: real)
    ensures LimitSpeed(LimitSpeed(o, rf), rf) == LimitSpeed(o, rf)
  {
    ApplyIdempotent(o.sim.maxSpeed, SpeedLimitWrites(o.area.lanes, rf));
  }

  /**
   * `reverse_actions` clears the speed, traffic-light and lock flags and leaves `weight_adjusted`,
   * the history, the window, the lanes and the traffic lights alone; it never touches efforts
   * nor reroutes.
   */
  lemma ReverseFlags(o: Outcome)
    ensures Reverse(o).area == o.area.(limitedSpeed := false, tlsAdjusted := false, locked := false)
    ensures Reverse(o).sim.effort == o.sim.effort && Reverse(o).sim.rerouted == o.sim.rerouted
  {
  }

  /** Reversing a limited area sets each of its lanes back to exactly its initial maximum speed. */
  lemma ReverseRestoresSpeeds(o: Outcome)
    requires o.area.limitedSpeed && UniqueLaneIds(o.area.lanes)
    ensures forall l :: l in o.area.lanes ==>
              l.laneId in Reverse(o).sim.maxSpeed && Reverse(o).sim.maxSpeed[l.laneId] == l.initialMaxSpeed
  {
    var lanes := o.area.lanes;
    var w := SpeedRestoreWrites(lanes);
    SpeedLimitKeys(lanes, 1.0);
    forall l | l in lanes
      ensures l.laneId in Reverse(o).sim.maxSpeed && Reverse(o).sim.maxSpeed[l.laneId] == l.initialMaxSpeed
    {
      var i :| 0 <= i < |lanes| && lanes[i] == l;
      LastWriteOfDistinct(w, i);
      ApplyLookup(o.sim.maxSpeed, w, l.laneId);
    }
  }

  /** Reversing an area whose speed is not limited changes no lane speed. */
  lemma ReverseKeepsSpeedsWhenNotLimited(o: Outcome)
    requires !o.area.limitedSpeed
    ensures Reverse(o).sim.maxSpeed == o.sim.maxSpeed
  {
  }

  /** Limiting and then reversing leaves no trace of the limit: the speeds are the restoring ones. */
  lemma LimitThenReverse(o: Outcome, rf: real)
    ensures Reverse(LimitSpeed(o, rf)).sim.maxSpeed == Apply(o.sim.maxSpeed, SpeedRestoreWrites(o.area.lanes))
  {
    SpeedLimitKeys(o.area.lanes, rf);
    ApplyOverwrite(o.sim.maxSpeed, SpeedLimitWrites(o.area.lanes, rf), SpeedRestoreWrites(o.area.lanes));
  }

  /**
   * Lanes are shared between areas: when two areas hold the same lane and both are limited,
   * reversing one of them restores the lane's initial speed although the other one is still
   * flagged as limited.
   */
  lemma SharedLaneCaveat(a: AreaState, b: AreaState, sim: SimState, rf: real, l: Lane)
    requires l in a.lanes && l in b.lanes && UniqueLaneIds(a.lanes)
    ensures var first := LimitSpeed(Outcome(a, sim), rf);
            var second := LimitSpeed(Outcome(b, first.sim), rf);
            var undone := Reverse(Outcome(first.area, second.sim));
            second.area.limitedSpeed && l.laneId in undone.sim.maxSpeed && undone.sim.maxSpeed[l.laneId] == l.initialMaxSpeed
  {
    var first := LimitSpeed(Outcome(a, sim), rf);
    var second := LimitSpeed(Outcome(b, first.sim), rf);
    ReverseRestoresSpeeds(Outcome(first.area, second.sim));
  }

  lemma RetimeKeys(tls: seq<TrafficLight>, rf: real)
    ensures KeysOf(RetimeWrites(tls, rf)) == KeysOf(BaselineWrites(tls))
  {
    if tls != [] {
      var init, last := tls[..|tls| - 1], tls[|tls| - 1];
      RetimeKeys(init, rf);
      KeysOfConcat(RetimeWrites(init, rf), TlRetimeWrites(last, rf));
      KeysOfConcat(BaselineWrites(init), TlBaselineWrites(last));
      var a, b := TlRetimeWrites(last, rf), TlBaselineWrites(last);
      forall k | k in KeysOf(a) ensures k in KeysOf(b) {
        var i :| 0 <= i < |a| && a[i].0 == k;
        assert b[i].0 == k;
      }
      forall k | k in KeysOf(b) ensures k in KeysOf(a) {
        var i :| 0 <= i < |b| && b[i].0 == k;
        assert a[i].0 == k;
      }
    }
  }

  /**
   * Retiming and then reversing leaves no trace of the retimed programs: every traffic light
   * ends with the programs the restoring calls install, the stored `logic._logic` objects.
   */
  lemma RetimeThenReverse(o: Outcome, rf: real)
    ensures Reverse(AdjustTrafficLights(o, rf)).sim.program == Apply(o.sim.program, BaselineWrites(o.area.tls))
    ensures Reverse(AdjustTrafficLights(o, rf)).area == o.area.(limitedSpeed := false, tlsAdjusted := false, locked := false)
  {
    RetimeKeys(o.area.tls, rf);
    ApplyOverwrite(o.sim.program, RetimeWrites(o.area.tls, rf), BaselineWrites(o.area.tls));
  }

  /**
   * Locking disallows the passenger class on every lane of the area; reversing then installs
   * `Allowed("")` (every class allowed), not the permission the lane had before the lock.
   */
  lemma LockThenReverse(o: Outcome, l: Lane)
    requires l in o.area.lanes
    ensures l.laneId in Lock(o).sim.permission && Lock(o).sim.permission[l.laneId] == Disallowed("passenger")
    ensures l.laneId in Reverse(Lock(o)).sim.permission && Reverse(Lock(o)).sim.permission[l.laneId] == Allowed("")
  {
    var i :| 0 <= i < |o.area.lanes| && o.area.lanes[i] == l;
    var locking := PermissionWrites(o.area.lanes, Disallowed("passenger"));
    var unlocking := PermissionWrites(o.area.lanes, Allowed(""));
    assert locking[i].0 == l.laneId && unlocking[i].0 == l.laneId;
    LastWriteConstant(locking, l.laneId, Disallowed("passenger"));
    ApplyLookup(o.sim.permission, locking, l.laneId);
    var locked := Lock(o);
    var afterSpeeds := RestorePrograms(RestoreSpeeds(locked));
    LastWriteConstant(unlocking, l.laneId, Allowed(""));
    ApplyLookup(afterSpeeds.sim.permission, unlocking, l.laneId);
  }

  /** So a lane that started with no permission of its own does not return to that state. */
  lemma LockIsNotUndone(o: Outcome, l: Lane)
    requires l in o.area.lanes && l.laneId !in o.sim.permission
    ensures Reverse(Lock(o)).sim.permission != o.sim.permission
  {
    LockThenReverse(o, l);
  }

  /**
   * Weight adjustment gives the edge of every area lane the effort of its current emissions,
   * asks every vehicle of the step to reroute, in order, and sets the flag.
   */
  lemma AdjustEdgesWeightsEffect(o: Outcome, net: Network, rd: Readings)
    ensures AdjustEdgesWeights(o, net, rd).area == o.area.(weightAdjusted := true)
    ensures forall l :: l in o.area.lanes ==>
              net.laneEdge(l.laneId) in AdjustEdgesWeights(o, net, rd).sim.effort &&
              AdjustEdgesWeights(o, net, rd).sim.effort[net.laneEdge(l.laneId)] == rd.edgeEmission(net.laneEdge(l.laneId)).Value()
    ensures AdjustEdgesWeights(o, net, rd).sim.rerouted == o.sim.rerouted + rd.vehicleIds
  {
    var lanes := o.area.lanes;
    var w := EffortWrites(lanes, net, rd);
    forall l | l in lanes
      ensures net.laneEdge(l.laneId) in AdjustEdgesWeights(o, net, rd).sim.effort &&
              AdjustEdgesWeights(o, net, rd).sim.effort[net.laneEdge(l.laneId)] == rd.edgeEmission(net.laneEdge(l.laneId)).Value()
    {
      var e := net.laneEdge(l.laneId);
      var i :| 0 <= i < |lanes| && lanes[i] == l;
      assert w[i].0 == e;
      LastWriteConstant(w, e, ComputeEdgeWeight(rd, e));
      ApplyLookup(o.sim.effort, w, e);
    }
  }

  /** The count is zero exactly when no lane of the area had a vehicle in the last step. */
  lemma {:induction false} VehicleCountZero(lanes: seq<Lane>, rd: Readings)
    ensures VehicleCount(lanes, rd) == 0 <==> forall l :: l in lanes ==> rd.laneVehicleCount(l.laneId) == 0
  {
    if lanes != [] {
      var init := lanes[..|lanes| - 1];
      VehicleCountZero(init, rd);
      assert forall l :: l in lanes <==> l in init || l == lanes[|lanes| - 1];
    }
  }

  /** The cycle of a program: its phase durations added up. */
  function CycleDuration(phases: seq<Phase>): real {
    if phases == [] then 0.0 else CycleDuration(phases[..|phases| - 1]) + phases[|phases| - 1].duration
  }

  /** Retiming by rf multiplies the whole cycle by rf. */
  lemma {:induction false} RetimedCycle(phases: seq<Phase>, rf: real)
    ensures CycleDuration(ScaledPhases(phases, rf)) == rf * CycleDuration(phases)
  {
    if phases != [] {
      var init := phases[..|phases| - 1];
      var scaled := ScaledPhases(phases, rf);
      RetimedCycle(init, rf);
      assert scaled[..|init|] == ScaledPhases(init, rf);
      var c, d := CycleDuration(init), phases[|init|].duration;
      assert CycleDuration(scaled) == rf * c + Scale(d, rf);
      assert rf * c + d * rf == rf * (c + d);
    }
  }

  // ----- the actions on the objects -----

  /** `modifyLogic`: builds the list of scaled phases by appending, one phase after another. */
  method ModifyLogic(logic: Logic, rf: real) returns (r: SumoLogic)
    ensures r == ModifiedLogic(logic, rf)
    ensures r.subId == "new-program" && r.kind == 0 && r.subParameter == 0 && r.currentPhaseIndex == 0
    ensures |r.phases| == |logic.phases|
    ensures forall i :: 0 <= i < |logic.phases| ==>
              r.phases[i].duration == logic.phases[i].duration * rf &&
              r.phases[i].minDuration == logic.phases[i].minDuration * rf &&
              r.phases[i].maxDuration == logic.phases[i].maxDuration * rf &&
              r.phases[i].phaseDef == logic.phases[i].phaseDef
  {
    var newPhases: seq<Phase> := [];
    var i := 0;
    while i < |logic.phases|
      invariant 0 <= i <= |logic.phases|
      invariant newPhases == ScaledPhases(logic.phases[..i], rf)
    {
      var p := logic.phases[i];
      assert logic.phases[..i + 1][..i] == logic.phases[..i];
      newPhases := newPhases + [Phase(Scale(p.duration, rf), Scale(p.minDuration, rf), Scale(p.maxDuration, rf), p.phaseDef)];
      i := i + 1;
    }
    assert logic.phases[..i] == logic.phases;
    r := SumoLogic("new-program", 0, 0, 0, newPhases);
  }

  method LimitSpeedIntoArea(area: Area, gw: Gateway, speedRf: real)
    modifies area`limitedSpeed, gw`maxSpeed
    ensures Outcome(area.State(), gw.Sim()) == LimitSpeed(Outcome(old(area.State()), old(gw.Sim())), speedRf)
  {
    area.limitedSpeed := true;
    var lanes := area.lanes;
    ghost var w := SpeedLimitWrites(lanes, speedRf);
    var i := 0;
    while i < |lanes|
      invariant 0 <= i <= |lanes|
      invariant area.limitedSpeed
      invariant gw.maxSpeed == Apply(old(gw.maxSpeed), w[..i])
    {
      gw.SetMaxSpeed(lanes[i].laneId, Scale(lanes[i].initialMaxSpeed, speedRf));
      assert w[i] == (lanes[i].laneId, Scale(lanes[i].initialMaxSpeed, speedRf));
      ApplySnoc(old(gw.maxSpeed), w, i);
      i := i + 1;
    }
    assert w[..i] == w;
  }

  /** Installs the retimed program of every captured logic of one traffic light. */
  method RetimeTrafficLight(tl: TrafficLight, gw: Gateway, rf: real)
    modifies gw`program
    ensures gw.program == Apply(old(gw.program), TlRetimeWrites(tl, rf))
  {
    ghost var w := TlRetimeWrites(tl, rf);
    var k := 0;
    while k < |tl.logics|
      invariant 0 <= k <= |tl.logics|
      invariant gw.program == Apply(old(gw.program), w[..k])
    {
      var newLogic := ModifyLogic(tl.logics[k], rf);
      gw.SetProgram(tl.tlId, newLogic);
      ApplySnoc(old(gw.program), w, k);
      k := k + 1;
    }
    assert w[..k] == w;
  }

  method AdjustTrafficLightPhaseDuration(area: Area, gw: Gateway, reductionFactor: real)
    modifies area`tlsAdjusted, gw`program
    ensures Outcome(area.State(), gw.Sim()) == AdjustTrafficLights(Outcome(old(area.State()), old(gw.Sim())), reductionFactor)
  {
    area.tlsAdjusted := true;
    var tls := area.tls;
    var i := 0;
    while i < |tls|
      invariant 0 <= i <= |tls|
      invariant area.tlsAdjusted
      invariant gw.program == Apply(old(gw.program), RetimeWrites(tls[..i], reductionFactor))
    {
      ghost var before := gw.program;
      RetimeTrafficLight(tls[i], gw, reductionFactor);
      assert tls[..i + 1][..i] == tls[..i];
      ApplyConcat(old(gw.program), RetimeWrites(tls[..i], reductionFactor), TlRetimeWrites(tls[i], reductionFactor));
      i := i + 1;
    }
    assert tls[..i] == tls;
  }

  /** The number of vehicles on the area's lanes in the last step. */
  method CountVehiclesInArea(area: Area, gw: Gateway) returns (n: nat)
    ensures n == VehicleCount(area.lanes, gw.readings)
  {
    n := 0;
    var i := 0;
    while i < |area.lanes|
      invariant 0 <= i <= |area.lanes|
      invariant n == VehicleCount(area.lanes[..i], gw.readings)
    {
      assert area.lanes[..i + 1][..i] == area.lanes[..i];
      n := n + gw.readings.laneVehicleCount(area.lanes[i].laneId);
      i := i + 1;
    }
    assert area.lanes[..i] == area.lanes;
  }

  /** Issues one permission call per lane. */
  method SetPermissions(lanes: seq<Lane>, gw: Gateway, p: Permission)
    modifies gw`permission
    ensures gw.permission == Apply(old(gw.permission), PermissionWrites(lanes, p))
  {
    ghost var w := PermissionWrites(lanes, p);
    var i := 0;
    while i < |lanes|
      invariant 0 <= i <= |lanes|
      invariant gw.permission == Apply(old(gw.permission), w[..i])
    {
      if p.Disallowed? {
        gw.SetDisallowed(lanes[i].laneId, p.vclasses);
      } else {
        gw.SetAllowed(lanes[i].laneId, p.vclasses);
      }
      ApplySnoc(old(gw.permission), w, i);
      i := i + 1;
    }
    assert w[..i] == w;
  }

  method LockArea(area: Area, gw: Gateway)
    modifies area`locked, gw`permission
    ensures Outcome(area.State(), gw.Sim()) == Lock(Outcome(old(area.State()), old(gw.Sim())))
  {
    area.locked := true;
    SetPermissions(area.lanes, gw, Disallowed("passenger"));
  }

  method AdjustEdgesWeightsOf(area: Area, gw: Gateway)
    modifies area`weightAdjusted, gw`effort, gw`rerouted
    ensures Outcome(area.State(), gw.Sim()) == AdjustEdgesWeights(Outcome(old(area.State()), old(gw.Sim())), gw.net, gw.readings)
  {
    area.weightAdjusted := true;
    var lanes := area.lanes;
    ghost var w := EffortWrites(lanes, gw.net, gw.readings);
    var i := 0;
    while i < |lanes|
      invariant 0 <= i <= |lanes|
      invariant area.weightAdjusted && gw.rerouted == old(gw.rerouted)
      invariant gw.effort == Apply(old(gw.effort), w[..i])
    {
      var edge := gw.net.laneEdge(lanes[i].laneId);
      var weight := ComputeEdgeWeight(gw.readings, edge);
      gw.SetEffort(edge, weight);
      ApplySnoc(old(gw.effort), w, i);
      i := i + 1;
    }
    assert w[..i] == w;
    var ids := gw.readings.vehicleIds;
    var k := 0;
    while k < |ids|
      invariant 0 <= k <= |ids|
      invariant area.weightAdjusted && gw.effort == Apply(old(gw.effort), w)
      invariant gw.rerouted == old(gw.rerouted) + ids[..k]
    {
      gw.RerouteEffort(ids[k]);
      assert ids[..k + 1] == ids[..k] + [ids[k]];
      k := k + 1;
    }
    assert ids[..k] == ids;
  }

  /** The speed part of `reverse_actions`. */
  method RestoreSpeedsOf(area: Area, gw: Gateway)
    modifies area`limitedSpeed, gw`maxSpeed
    ensures Outcome(area.State(), gw.Sim()) == RestoreSpeeds(Outcome(old(area.State()), old(gw.Sim())))
  {
    if area.limitedSpeed {
      area.limitedSpeed := false;
      var lanes := area.lanes;
      ghost var w := SpeedRestoreWrites(lanes);
      var i := 0;
      while i < |lanes|
        invariant 0 <= i <= |lanes|
        invariant !area.limitedSpeed
        invariant gw.maxSpeed == Apply(old(gw.maxSpeed), w[..i])
      {
        gw.SetMaxSpeed(lanes[i].laneId, lanes[i].initialMaxSpeed);
        assert w[i] == (lanes[i].laneId, lanes[i].initialMaxSpeed);
        ApplySnoc(old(gw.maxSpeed), w, i);
        i := i + 1;
      }
      assert w[..i] == w;
    }
  }

  /** Installs every captured logic of one traffic light as it was captured. */
  method RestoreTrafficLight(tl: TrafficLight, gw: Gateway)
    modifies gw`program
    ensures gw.program == Apply(old(gw.program), TlBaselineWrites(tl))
  {
    ghost var w := TlBaselineWrites(tl);
    var k := 0;
    while k < |tl.logics|
      invariant 0 <= k <= |tl.logics|
      invariant gw.program == Apply(old(gw.program), w[..k])
    {
      gw.SetProgram(tl.tlId, tl.logics[k].sumoLogic);
      ApplySnoc(old(gw.program), w, k);
      k := k + 1;
    }
    assert w[..k] == w;
  }

  /** The traffic-light part of `reverse_actions`. */
  method RestoreProgramsOf(area: Area, gw: Gateway)
    modifies area`tlsAdjusted, gw`program
    ensures Outcome(area.State(), gw.Sim()) == RestorePrograms(Outcome(old(area.State()), old(gw.Sim())))
  {
    if area.tlsAdjusted {
      area.tlsAdjusted := false;
      var tls := area.tls;
      var i := 0;
      while i < |tls|
        invariant 0 <= i <= |tls|
        invariant !area.tlsAdjusted
        invariant gw.program == Apply(old(gw.program), BaselineWrites(tls[..i]))
      {
        RestoreTrafficLight(tls[i], gw);
        assert tls[..i + 1][..i] == tls[..i];
        ApplyConcat(old(gw.program), BaselineWrites(tls[..i]), TlBaselineWrites(tls[i]));
        i := i + 1;
      }
      assert tls[..i] == tls;
    }
  }

  /** The unlocking part of `reverse_actions`. */
  method UnlockOf(area: Area, gw: Gateway)
    modifies area`locked, gw`permission
    ensures Outcome(area.State(), gw.Sim()) == Unlock(Outcome(old(area.State()), old(gw.Sim())))
  {
    if area.locked {
      area.locked := false;
      SetPermissions(area.lanes, gw, Allowed(""));
    }
  }

  method ReverseActions(area: Area, gw: Gateway)
    modifies area`limitedSpeed, area`tlsAdjusted, area`locked, gw`maxSpeed, gw`program, gw`permission
    ensures Outcome(area.State(), gw.Sim()) == Reverse(Outcome(old(area.State()), old(gw.Sim())))
  {
    RestoreSpeedsOf(area, gw);
    RestoreProgramsOf(area, gw);
    UnlockOf(area, gw);
  }
}

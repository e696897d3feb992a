/**
 * The running simulation as the core sees it through its TraCI calls: a network description it
 * only reads, the readings of the current step, and the state the actions write (lane maximum
 * speeds, lane permissions, traffic-light programs, edge efforts and the vehicles asked to
 * reroute). The engine's own dynamics are not modelled: each step's readings are an input.
 */
module Gateway {
  import opened Geometry
  import opened Model

  /** What `setDisallowed` / `setAllowed` last installed on a lane. */
  datatype Permission = Disallowed(vclasses: string) | Allowed(vclasses: string)

  /** The static network: lanes, their shapes, default speeds and edges, and the traffic lights. */
  datatype Network = Network(
    laneIds: seq<LaneId>,
    laneShape: LaneId -> seq<Point>,
    defaultMaxSpeed: LaneId -> real,
    laneEdge: LaneId -> EdgeId,
    tlIds: seq<TlId>,
    controlledLanes: TlId -> seq<LaneId>,
    definitions: TlId -> seq<SumoLogic>,
    boundary: Bounds)

  /** What the engine reports for the current step. */
  datatype Readings = Readings(
    vehicleIds: seq<VehId>,
    position: VehId -> Point,
    vehicleEmission: VehId -> Emission,
    edgeEmission: EdgeId -> Emission,
    laneVehicleCount: LaneId -> nat)

  /** Everything the actions write into the simulation. */
  datatype SimState = SimState(
    maxSpeed: map<LaneId, real>,
    permission: map<LaneId, Permission>,
    program: map<TlId, SumoLogic>,
    effort: map<EdgeId, real>,
    rerouted: seq<VehId>)

  /** A session with the simulation: nothing has been written yet. */
  function FreshSim(): SimState {
    SimState(map[], map[], map[], map[], [])
  }

  /** `traci.lane.getMaxSpeed`: the last speed written to the lane, else the network's default. */
  function CurrentMaxSpeed(net: Network, sim: SimState, lane: LaneId): real {
    if lane in sim.maxSpeed then sim.maxSpeed[lane] else net.defaultMaxSpeed(lane)
  }

  class Gateway {
    const net: Network
    var readings: Readings
    var maxSpeed: map<LaneId, real>
    var permission: map<LaneId, Permission>
    var program: map<TlId, SumoLogic>
    var effort: map<EdgeId, real>
    var rerouted: seq<VehId>

    /** The written state, as one value. */
    function Sim(): SimState
      reads this
    {
      SimState(maxSpeed, permission, program, effort, rerouted)
    }

    /** `traci.start`: a new session on the network, showing its first readings. */
    constructor (net: Network, first: Readings)
      ensures this.net == net && readings == first && Sim() == FreshSim()
    {
      this.net := net;
      readings := first;
      maxSpeed, permission, program, effort, rerouted := map[], map[], map[], map[], [];
    }

    /** `traci.simulationStep`: the engine advances and reports the next readings. */
    method SimulationStep(next: Readings)
      modifies this`readings
      ensures readings == next
    {
      readings := next;
    }

    method SetMaxSpeed(lane: LaneId, speed: real)
      modifies this`maxSpeed
      ensures maxSpeed == old(maxSpeed)[lane := speed]
    {
      maxSpeed := maxSpeed[lane := speed];
    }

    method SetDisallowed(lane: LaneId, vclasses: string)
      modifies this`permission
      ensures permission == old(permission)[lane := Disallowed(vclasses)]
    {
      permission := permission[lane := Disallowed(vclasses)];
    }

    method SetAllowed(lane: LaneId, vclasses: string)
      modifies this`permission
      ensures permission == old(permission)[lane := Allowed(vclasses)]
    {
      permission := permission[lane := Allowed(vclasses)];
    }

    /** `setCompleteRedYellowGreenDefinition`: the program becomes the light's current one. */
    method SetProgram(tl: TlId, logic: SumoLogic)
      modifies this`program
      ensures program == old(program)[tl := logic]
    {
      program := program[tl := logic];
    }

    method SetEffort(edge: EdgeId, w: real)
      modifies this`effort
      ensures effort == old(effort)[edge := w]
    {
      effort := effort[edge := w];
    }

    /** `traci.vehicle.rerouteEffort`: recorded in the order the requests were made. */
    method RerouteEffort(veh: VehId)
      modifies this`rerouted
      ensures rerouted == old(rerouted) + [veh]
    {
      rerouted := rerouted + [veh];
    }
  }
}

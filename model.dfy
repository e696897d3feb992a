/**
 * The business model: emissions, lanes, traffic-light programs, vehicles and the grid area
 * with its per-step history, its acquisition window, its mitigation flags and the lanes and
 * traffic lights it holds.
 */
module Model {
  import opened Wrappers
  import opened Geometry
  import opened Window

  type LaneId = string
  type TlId = string
  type EdgeId = string
  type VehId = string

  /** Quantities (in mg) of the five pollutants. */
  datatype Emission = Emission(co2: real, co: real, nox: real, hc: real, pmx: real) {

    /** `__add__`: pollutant by pollutant. */
    function Plus(other: Emission): Emission {
      Emission(co2 + other.co2, co + other.co, nox + other.nox, hc + other.hc, pmx + other.pmx)
    }

    /** `value()`: the sum of all pollutants. */
    function Value(): real {
      co2 + co + nox + hc + pmx
    }
  }

  /** `Emission()`: every pollutant defaults to 0. */
  function Zero(): Emission {
    Emission(0.0, 0.0, 0.0, 0.0, 0.0)
  }

  lemma ZeroIsIdentity(e: Emission)
    ensures Zero().Plus(e) == e && e.Plus(Zero()) == e
  {
  }

  /** The value of a sum of emissions is the sum of their values. */
  lemma PlusValue(a: Emission, b: Emission)
    ensures a.Plus(b).Value() == a.Value() + b.Value()
  {
  }

  lemma PlusCommutes(a: Emission, b: Emission)
    ensures a.Plus(b) == b.Plus(a)
  {
  }

  lemma PlusAssociates(a: Emission, b: Emission, c: Emission)
    ensures a.Plus(b).Plus(c) == a.Plus(b.Plus(c))
  {
  }

  /** The scalar value of each entry of a history. */
  function Values(h: seq<Emission>): (v: seq<real>)
    ensures |v| == |h|
    ensures forall i :: 0 <= i < |h| ==> v[i] == h[i].Value()
  {
    if h == [] then [] else Values(h[..|h| - 1]) + [h[|h| - 1].Value()]
  }

  lemma ValuesPrefix(h: seq<Emission>, n: nat)
    requires n <= |h|
    ensures Values(h[..n]) == Values(h)[..n]
  {
  }

  /**
   * A window that saw every entry of a history, pushed one more entry's value, is the window
   * of the longer history, and it sums the last min(k, n) values of the n entries.
   */
  lemma PushTrailing(hist: seq<Emission>, window: seq<real>, x: Emission, k: nat)
    requires window == WindowAfter(Values(hist), k)
    ensures var h := hist + [x];
            PushFront(window, x.Value(), k) == WindowAfter(Values(h), k) &&
            Sum(WindowAfter(Values(h), k)) == Sum(Values(h)[|h| - MinNat(k, |h|)..])
  {
    var h := hist + [x];
    assert h[..|h| - 1] == hist;
    ValuesPrefix(h, |h| - 1);
    WindowSumIsTrailing(Values(h), k);
  }

  /**
   * `sum_all_emissions`: the left fold of `+` over the history starting from `Emission()`;
   * its value is the sum of the values of the entries.
   */
  function SumAll(h: seq<Emission>): Emission {
    if h == [] then Zero() else SumAll(h[..|h| - 1]).Plus(h[|h| - 1])
  }

  /** The value of the total is the sum of the values of the entries. */
  lemma {:induction false} SumAllValue(h: seq<Emission>)
    ensures SumAll(h).Value() == Sum(Values(h))
  {
    if h != [] {
      var init := h[..|h| - 1];
      SumAllValue(init);
      assert Values(h)[..|init|] == Values(init);
      PlusValue(SumAll(init), h[|h| - 1]);
    }
  }

  lemma {:induction false} SumAllAppend(h: seq<Emission>, e: Emission)
    ensures SumAll(h + [e]) == SumAll(h).Plus(e)
  {
    assert (h + [e])[..|h + [e]| - 1] == h;
  }

  /** A quantity multiplied by a reduction factor (speeds and phase durations). */
  function Scale(x: real, rf: real): real {
    x * rf
  }

  datatype Lane = Lane(laneId: LaneId, shape: seq<Point>, initialMaxSpeed: real)

  datatype Phase = Phase(duration: real, minDuration: real, maxDuration: real, phaseDef: string)

  /**
   * The simulator's own program object (`traci.trafficlight.Logic`, whose constructor takes
   * subID, type, subParameter, currentPhaseIndex and phases, in that order).
   */
  datatype SumoLogic = SumoLogic(subId: string, kind: int, subParameter: int, currentPhaseIndex: int, phases: seq<Phase>)

  /** A captured program: the simulator's object and the phases read from it. */
  datatype Logic = Logic(sumoLogic: SumoLogic, phases: seq<Phase>)

  datatype TrafficLight = TrafficLight(tlId: TlId, logics: seq<Logic>)

  /** A vehicle snapshot of one step: its id, its position and what it emitted. */
  datatype Vehicle = Vehicle(vehId: VehId, pos: Point, emissions: Emission)

  /** Why `sum_emissions_into_window` raises. */
  datatype WindowError =
    | NoWindow       // `set_window_size` was never called: AttributeError
    | StepOutOfRange // `emissions_by_step[current_step]` past the end: IndexError

  /** Everything an area holds, as one value. */
  datatype AreaState = AreaState(
    rect: Quad, name: string,
    limitedSpeed: bool, locked: bool, tlsAdjusted: bool, weightAdjusted: bool,
    history: seq<Emission>,
    window: seq<real>, capacity: Option<nat>,
    lanes: seq<Lane>, tls: seq<TrafficLight>)

  /** The state of `Area(coords, name)` just after construction. */
  function NewAreaState(rect: Quad, name: string): AreaState {
    AreaState(rect, name, false, false, false, false, [], [], None, [], [])
  }

  /** No two lanes of the sequence carry the same id. */
  predicate UniqueLaneIds(lanes: seq<Lane>) {
    forall i, j :: 0 <= i < j < |lanes| ==> lanes[i].laneId != lanes[j].laneId
  }

  /** Python's `set.add` on the lane set: the lane goes in unless it is already there. */
  function InsertLane(lanes: seq<Lane>, l: Lane): (r: seq<Lane>)
    ensures forall x :: x in r <==> x in lanes || x == l
    ensures l in lanes ==> r == lanes
  {
    if l in lanes then lanes else lanes + [l]
  }

  /** Every element of `s` except the occurrences of `x`. */
  function Without(s: seq<Lane>, x: Lane): (r: seq<Lane>)
    ensures forall y :: y in r <==> y in s && y != x
    ensures |r| <= |s|
  {
    if s == [] then []
    else if s[|s| - 1] == x then Without(s[..|s| - 1], x)
    else Without(s[..|s| - 1], x) + [s[|s| - 1]]
  }

  /** The window never holds more values than its capacity. */
  predicate WindowBounded(a: AreaState) {
    a.capacity.Some? ==> |a.window| <= a.capacity.value
  }

  /** `sum_emissions_into_window` on a state: push the value of `history[step]`, or fail. */
  function IntoWindow(a: AreaState, step: nat): (r: Result<AreaState, WindowError>)
    ensures r.Failure? <==> a.capacity.None? || step >= |a.history|
    ensures r.Success? ==> r.value == a.(window := PushFront(a.window, a.history[step].Value(), a.capacity.value))
  {
    if a.capacity.None? then Failure(NoWindow)
    else if step >= |a.history| then Failure(StepOutOfRange)
    else Success(a.(window := PushFront(a.window, a.history[step].Value(), a.capacity.value)))
  }

  /** A grid area (`model.Area`), updated in place step after step. */
  class Area {
    const rect: Quad
    const name: string
    var limitedSpeed: bool
    var locked: bool
    var tlsAdjusted: bool
    var weightAdjusted: bool
    var history: seq<Emission>
    var window: seq<real>
    var capacity: Option<nat>
    var lanes: seq<Lane>
    var tls: seq<TrafficLight>

    function State(): AreaState
      reads this
    {
      AreaState(rect, name, limitedSpeed, locked, tlsAdjusted, weightAdjusted, history, window, capacity, lanes, tls)
    }

    /** The window never holds more values than its capacity. */
    ghost predicate Valid()
      reads this
    {
      WindowBounded(State())
    }

    /** `Area(coords, name)`: all four flags false, empty history, no lanes, no traffic lights. */
    constructor (rect: Quad, name: string)
      ensures State() == NewAreaState(rect, name)
      ensures Valid()
    {
      this.rect := rect;
      this.name := name;
      limitedSpeed, locked, tlsAdjusted, weightAdjusted := false, false, false, false;
      history := [];
      window, capacity := [], None;
      lanes, tls := [], [];
    }

    /** `set_window_size(k)`: a fresh, empty deque of capacity k. */
    method SetWindowSize(k: nat)
      modifies this`window, this`capacity
      ensures window == [] && capacity == Some(k)
      ensures Valid()
    {
      window, capacity := [], Some(k);
    }

    /** `__contains__`: the position lies strictly inside the rectangle. */
    predicate Contains(p: Point) {
      Geometry.Contains(rect, p)
    }

    /** `bounds`: the rectangle's `(xmin, ymin, xmax, ymax)`; the area holds exactly the points strictly inside them. */
    function Bounds(): (b: Geometry.Bounds)
      ensures b.xmin <= b.xmax && b.ymin <= b.ymax
      ensures forall p :: Contains(p) <==> b.xmin < p.x < b.xmax && b.ymin < p.y < b.ymax
    {
      BoundsOf(rect)
    }

    method AddLane(l: Lane)
      modifies this`lanes
      ensures lanes == InsertLane(old(lanes), l)
    {
      if l !in lanes {
        lanes := lanes + [l];
      }
    }

    /** `add_tl`: every TrafficLight object is a new one (the class has no `__eq__`), so it is always added. */
    method AddTl(t: TrafficLight)
      modifies this`tls
      ensures tls == old(tls) + [t]
    {
      tls := tls + [t];
    }

    /** `remove_lane`: `set.remove` raises KeyError for a lane that is not there. */
    method RemoveLane(l: Lane) returns (ok: bool)
      modifies this`lanes
      ensures ok <==> l in old(lanes)
      ensures ok ==> lanes == Without(old(lanes), l)
      ensures !ok ==> lanes == old(lanes)
    {
      ok := l in lanes;
      if ok {
        lanes := Without(lanes, l);
      }
    }

    /** `sum_all_emissions`: the loop adds the entries of the history one after another. */
    method SumAllEmissions() returns (r: Emission)
      ensures r == SumAll(history)
    {
      r := Zero();
      var i := 0;
      while i < |history|
        invariant 0 <= i <= |history|
        invariant r == SumAll(history[..i])
      {
        assert history[..i + 1][..i] == history[..i];
        r := r.Plus(history[i]);
        i := i + 1;
      }
      assert history[..i] == history;
    }

    /**
     * `sum_emissions_into_window(step)`: push the value of `history[step]` at the front of the
     * window and return the sum of all window entries.
     */
    method SumEmissionsIntoWindow(step: nat) returns (r: Result<real, WindowError>)
      modifies this`window
      ensures old(Valid()) ==> Valid()
      ensures r.Failure? <==> capacity.None? || step >= |history|
      ensures r.Failure? ==> r.error == if capacity.None? then NoWindow else StepOutOfRange
      ensures r.Failure? ==> window == old(window)
      ensures r.Success? ==> window == PushFront(old(window), history[step].Value(), capacity.value)
      ensures r.Success? ==> r.value == Sum(window)
    {
      if capacity.None? {
        return Failure(NoWindow);
      }
      if step >= |history| {
        return Failure(StepOutOfRange);
      }
      window := PushFront(window, history[step].Value(), capacity.value);
      var sum := 0.0;
      var i := 0;
      while i < |window|
        invariant 0 <= i <= |window|
        invariant sum == Sum(window[..i])
      {
        assert window[..i + 1][..i] == window[..i];
        sum := sum + window[i];
        i := i + 1;
      }
      assert window[..i] == window;
      r := Success(sum);
    }
  }

  /** The states of the areas, in grid order. */
  function States(grid: seq<Area>): (r: seq<AreaState>)
    reads grid
    ensures |r| == |grid| && forall i :: 0 <= i < |grid| ==> r[i] == grid[i].State()
  {
    seq(|grid|, i reads grid requires 0 <= i < |grid| => grid[i].State())
  }

  /** The areas of the grid are distinct objects: none occurs among those before it. */
  predicate DistinctAreas(grid: seq<Area>) {
    grid == [] || (grid[|grid| - 1] !in grid[..|grid| - 1] && DistinctAreas(grid[..|grid| - 1]))
  }

  /** In a grid of distinct areas, the area at index i is no other index's area. */
  lemma {:induction false} DistinctAt(grid: seq<Area>, i: nat)
    requires DistinctAreas(grid) && i < |grid|
    ensures forall j :: 0 <= j < |grid| && j != i ==> grid[j] != grid[i]
  {
    var init := grid[..|grid| - 1];
    if i < |init| {
      DistinctAt(init, i);
      assert grid[i] == init[i];
      assert grid[i] in init;
    } else {
      forall j | 0 <= j < |init| ensures grid[j] != grid[i] {
        assert grid[j] == init[j];
        assert grid[j] in init;
      }
    }
  }

  /** A new area appended to a grid of distinct areas keeps them distinct. */
  lemma DistinctSnoc(grid: seq<Area>, a: Area)
    requires DistinctAreas(grid) && a !in grid
    ensures DistinctAreas(grid + [a])
  {
    assert (grid + [a])[..|grid|] == grid;
  }
}

/**
 * The run of one simulation process (window set-up, the step loop, the total computed in the
 * `finally` block and the CSV export), the command-line checks, the list of configuration files
 * the processes are launched for, and the creation of a data dump.
 */
module Runner {
  import opened Wrappers
  import opened Texts
  import opened Geometry
  import opened Window
  import opened Model
  import opened Gateway
  import opened Configuration
  import opened Emissions
  import opened Data

  // ----- the step loop, on values -----

  /** Why a run stops early. */
  datatype RunError =
    | MissingSetting              // an attribute the run reads is missing or has the wrong type
    | BadWindowSize               // `deque(maxlen=k)` with k < 0: ValueError
    | EngineStopped               // the simulation has no further step to give
    | WindowFailed(reason: WindowError)
    | StartUnbound                // the `finally` block reads `start`, which is bound only once the windows are set

  /** The areas and the simulation after the loop, the iterations completed, and the exception if any. */
  datatype RunResult = RunResult(areas: seq<AreaState>, sim: SimState, steps: nat, error: Option<RunError>)

  /** `range(n)` is empty for a negative n. */
  function StepCount(n: int): nat {
    if n < 0 then 0 else n
  }

  /** Every area with a fresh, empty window of capacity k (`set_window_size(k)`). */
  function Windowed(areas: seq<AreaState>, k: nat): (r: seq<AreaState>)
    ensures |r| == |areas|
    ensures forall j :: 0 <= j < |areas| ==> r[j] == areas[j].(window := [], capacity := Some(k))
  {
    seq(|areas|, j requires 0 <= j < |areas| => areas[j].(window := [], capacity := Some(k)))
  }

  /**
   * The body of one iteration once the engine has advanced: from the areas, the simulation, the
   * readings of the step and its index to the grid after `get_emissions`.
   */
  type Tick = (seq<AreaState>, SimState, Readings, nat) -> GridResult

  /** The iteration of `run`: `get_emissions` on the vehicles read from the step's readings. */
  function GridTick(net: Network, s: Settings): Tick {
    (areas: seq<AreaState>, sim: SimState, rd: Readings, t: nat) => GridStep(areas, sim, net, rd, Snapshot(rd), t, s)
  }

  /**
   * The first n iterations of the step loop: the engine advances to `feed[t]`, then the
   * iteration runs for step t; an exception ends the loop.
   */
  function RunPrefix(areas: seq<AreaState>, sim: SimState, feed: seq<Readings>, tick: Tick, n: nat): (r: RunResult)
    ensures r.steps <= n && (r.error.None? ==> r.steps == n)
    ensures r.error != Some(BadWindowSize)
    decreases n
  {
    if n == 0 then RunResult(areas, sim, 0, None)
    else
      var prev := RunPrefix(areas, sim, feed, tick, n - 1);
      if prev.error.Some? then prev
      else if n - 1 >= |feed| then prev.(error := Some(EngineStopped))
      else
        var g := tick(prev.areas, prev.sim, feed[n - 1], n - 1);
        if g.error.Some? then RunResult(g.areas, g.sim, n - 1, Some(WindowFailed(g.error.value)))
        else RunResult(g.areas, g.sim, n, None)
  }

  /**
   * `run` on values: the windows are set, then `n_steps` iterations unless one raises. Only a
   * `set_window_size` call raises on a negative size, so an empty grid runs whatever the size.
   */
  function RunLoop(areas: seq<AreaState>, sim: SimState, net: Network, feed: seq<Readings>, s: Settings): (r: RunResult)
    ensures r.error == Some(BadWindowSize) <==> s.windowSize < 0 && areas != []
    ensures r.error == Some(BadWindowSize) ==> r.areas == areas && r.sim == sim && r.steps == 0
    ensures r.error != Some(BadWindowSize) ==> r.steps <= StepCount(s.nSteps)
  {
    if s.windowSize < 0 && areas != [] then RunResult(areas, sim, 0, Some(BadWindowSize))
    else RunPrefix(Windowed(areas, WindowCapacity(s)), sim, feed, GridTick(net, s), StepCount(s.nSteps))
  }

  /** The capacity the windows get; a negative size reaches no window (the grid is then empty). */
  function WindowCapacity(s: Settings): nat {
    if s.windowSize < 0 then 0 else s.windowSize
  }

  /**
   * On an empty grid no iteration touches an area or the simulation: the loop runs every step
   * the engine can give, whatever the window size.
   */
  lemma {:induction false} EmptyGridPrefix(sim: SimState, net: Network, feed: seq<Readings>, s: Settings, n: nat)
    ensures var r := RunPrefix([], sim, feed, GridTick(net, s), n);
            r.areas == [] && r.sim == sim &&
            r.steps == (if n <= |feed| then n else |feed|) &&
            r.error == (if n <= |feed| then None else Some(EngineStopped))
  {
    if n > 0 {
      EmptyGridPrefix(sim, net, feed, s, n - 1);
    }
  }

  /** `run` on an empty grid: no exception but a stopped engine, and all the steps it has. */
  lemma EmptyGridRuns(sim: SimState, net: Network, feed: seq<Readings>, s: Settings)
    ensures var r := RunLoop([], sim, net, feed, s);
            var n := StepCount(s.nSteps);
            r.areas == [] && r.sim == sim &&
            r.steps == (if n <= |feed| then n else |feed|) &&
            r.error == (if n <= |feed| then None else Some(EngineStopped))
  {
    EmptyGridPrefix(sim, net, feed, s, StepCount(s.nSteps));
  }

  /** Once the loop has raised, later iterations do not happen. */
  lemma {:induction false} RunStops(areas: seq<AreaState>, sim: SimState, feed: seq<Readings>, tick: Tick, n: nat, m: nat)
    requires n <= m
    requires RunPrefix(areas, sim, feed, tick, n).error.Some?
    ensures RunPrefix(areas, sim, feed, tick, m) == RunPrefix(areas, sim, feed, tick, n)
    decreases m
  {
    if m > n {
      RunStops(areas, sim, feed, tick, n, m - 1);
    }
  }

  /** The totals an area records over the first n steps of the feed. */
  function StepTotals(feed: seq<Readings>, rect: Quad, n: nat): (r: seq<Emission>)
    requires n <= |feed|
    ensures |r| == n && forall t :: 0 <= t < n ==> r[t] == AreaTotal(Snapshot(feed[t]), rect)
  {
    seq(n, t requires 0 <= t < n => AreaTotal(Snapshot(feed[t]), rect))
  }

  /** What a run never changes in an area: its lanes, its name and its rectangle. */
  predicate Fixed(a: AreaState, b: AreaState) {
    a.lanes == b.lanes && a.name == b.name && a.rect == b.rect
  }

  /**
   * One iteration's grid: as many areas, none with other lanes, name or rectangle, and, unless
   * it raised, each with the total of the step's vehicles inside it appended to its history.
   */
  predicate AppendsAt(g: GridResult, areas: seq<AreaState>, rd: Readings) {
    && |g.areas| == |areas|
    && (forall j :: 0 <= j < |areas| ==> Fixed(g.areas[j], areas[j]))
    && (g.error.None? ==> forall j :: 0 <= j < |areas| ==>
          g.areas[j].history == areas[j].history + [AreaTotal(Snapshot(rd), areas[j].rect)])
  }

  /** An iteration that appends the step's totals, whatever the grid. */
  ghost predicate Appends(tick: Tick) {
    forall areas: seq<AreaState>, sim: SimState, rd: Readings, t: nat :: AppendsAt(tick(areas, sim, rd, t), areas, rd)
  }

  /** `get_emissions` appends the step's totals. */
  lemma GridTickAppends(net: Network, s: Settings)
    ensures Appends(GridTick(net, s))
  {
    forall areas: seq<AreaState>, sim: SimState, rd: Readings, t: nat ensures AppendsAt(GridTick(net, s)(areas, sim, rd, t), areas, rd) {
      GridStepHistories(areas, sim, net, rd, Snapshot(rd), t, s);
    }
  }

  /**
   * After n iterations of an appending body, no area has other lanes, name or rectangle, and,
   * without an exception, every area's history has gained one entry per step, the total of
   * that step's vehicles inside it.
   */
  lemma {:induction false} RunPrefixHistories(areas: seq<AreaState>, sim: SimState, feed: seq<Readings>, tick: Tick, n: nat)
    requires Appends(tick)
    ensures var r := RunPrefix(areas, sim, feed, tick, n);
            |r.areas| == |areas| && (forall j :: 0 <= j < |areas| ==> Fixed(r.areas[j], areas[j])) &&
            (r.error.None? ==> n <= |feed| && forall j :: 0 <= j < |areas| ==>
               r.areas[j].history == areas[j].history + StepTotals(feed, areas[j].rect, n))
    decreases n
  {
    if n > 0 {
      RunPrefixHistories(areas, sim, feed, tick, n - 1);
      var prev := RunPrefix(areas, sim, feed, tick, n - 1);
      if prev.error.None? && n - 1 < |feed| {
        var rd := feed[n - 1];
        var g := tick(prev.areas, prev.sim, rd, n - 1);
        assert AppendsAt(g, prev.areas, rd);
        if g.error.None? {
          forall j | 0 <= j < |areas|
            ensures g.areas[j].history == areas[j].history + StepTotals(feed, areas[j].rect, n)
          {
            StepTotalsSnoc(areas[j].history, prev.areas[j].history, feed, areas[j].rect, n);
          }
        }
      }
    }
  }

  lemma StepTotalsSnoc(h0: seq<Emission>, h: seq<Emission>, feed: seq<Readings>, rect: Quad, n: nat)
    requires 0 < n <= |feed| && h == h0 + StepTotals(feed, rect, n - 1)
    ensures h + [AreaTotal(Snapshot(feed[n - 1]), rect)] == h0 + StepTotals(feed, rect, n)
  {
    assert StepTotals(feed, rect, n) == StepTotals(feed, rect, n - 1) + [AreaTotal(Snapshot(feed[n - 1]), rect)];
  }

  /** Every area tracks its history at this step with capacity k. */
  predicate TracksAll(areas: seq<AreaState>, step: nat, k: nat) {
    forall j :: 0 <= j < |areas| ==> Tracks(areas[j], step, k)
  }

  /** An iteration that, on a grid tracking its history, does not raise and keeps it tracking. */
  ghost predicate KeepsTracking(tick: Tick, k: nat) {
    forall areas: seq<AreaState>, sim: SimState, rd: Readings, t: nat :: TracksAll(areas, t, k) ==>
      tick(areas, sim, rd, t).error.None? && TracksAll(tick(areas, sim, rd, t).areas, t + 1, k)
  }

  /** `get_emissions` keeps a tracking grid tracking. */
  lemma GridTickTracks(net: Network, s: Settings, k: nat)
    ensures KeepsTracking(GridTick(net, s), k)
  {
    forall areas: seq<AreaState>, sim: SimState, rd: Readings, t: nat | TracksAll(areas, t, k)
      ensures GridTick(net, s)(areas, sim, rd, t).error.None? && TracksAll(GridTick(net, s)(areas, sim, rd, t).areas, t + 1, k)
    {
      GridPrefixTracks(areas, sim, net, rd, Snapshot(rd), t, s, k, |areas|);
    }
  }

  /**
   * Started on areas whose windows track their histories at step 0, a body that keeps them
   * tracking never fails on a window: the loop stops early only when the engine does, and
   * after the completed steps every window holds the last min(k, steps) totals, newest first.
   */
  lemma {:induction false} RunPrefixTracks(areas: seq<AreaState>, sim: SimState, feed: seq<Readings>, tick: Tick, k: nat, n: nat)
    requires KeepsTracking(tick, k) && TracksAll(areas, 0, k)
    ensures var r := RunPrefix(areas, sim, feed, tick, n);
            (r.error.None? || r.error == Some(EngineStopped)) && TracksAll(r.areas, r.steps, k)
    decreases n
  {
    if n > 0 {
      RunPrefixTracks(areas, sim, feed, tick, k, n - 1);
    }
  }

  /** A run on a fresh grid (no history yet) never raises on a window. */
  lemma FreshRunTracks(areas: seq<AreaState>, sim: SimState, net: Network, feed: seq<Readings>, s: Settings)
    requires s.windowSize >= 0
    requires forall j :: 0 <= j < |areas| ==> areas[j].history == []
    ensures var r := RunLoop(areas, sim, net, feed, s);
            (r.error.None? || r.error == Some(EngineStopped)) &&
            forall j :: 0 <= j < |r.areas| ==> Tracks(r.areas[j], r.steps, s.windowSize)
  {
    var w := Windowed(areas, s.windowSize);
    assert TracksAll(w, 0, s.windowSize) by {
      forall j | 0 <= j < |w| ensures Tracks(w[j], 0, s.windowSize) {
        assert Values(w[j].history) == [];
      }
    }
    GridTickTracks(net, s, s.windowSize);
    RunPrefixTracks(w, sim, feed, GridTick(net, s), s.windowSize, StepCount(s.nSteps));
  }

  // ----- the total and the CSV table -----

  /** The `finally` block's total: `Emission()` plus each area's `sum_all_emissions()`, in grid order. */
  function GridTotal(areas: seq<AreaState>): Emission {
    if areas == [] then Zero() else GridTotal(areas[..|areas| - 1]).Plus(SumAll(areas[|areas| - 1].history))
  }

  /** The sum of the values of every entry of every history. */
  function AllValues(areas: seq<AreaState>): real {
    if areas == [] then 0.0 else AllValues(areas[..|areas| - 1]) + Sum(Values(areas[|areas| - 1].history))
  }

  /** The value of the total is the sum of the values of all entries of all histories. */
  lemma {:induction false} GridTotalValue(areas: seq<AreaState>)
    ensures GridTotal(areas).Value() == AllValues(areas)
  {
    if areas != [] {
      var init := areas[..|areas| - 1];
      GridTotalValue(init);
      PlusValue(GridTotal(init), SumAll(areas[|areas| - 1].history));
      SumAllValue(areas[|areas| - 1].history);
    }
  }

  datatype CsvRow = CsvRow(step: nat, values: seq<real>)

  /** The header and the rows of the CSV export (the 3-decimal formatting is not modelled). */
  datatype CsvTable = CsvTable(header: seq<string>, rows: seq<CsvRow>)

  /** `emissions_by_step[step]` past the end of some area's history: IndexError. */
  datatype CsvError = HistoryTooShort

  function Names(areas: seq<AreaState>): (r: seq<string>)
    ensures |r| == |areas| && forall j :: 0 <= j < |areas| ==> r[j] == areas[j].name
  {
    seq(|areas|, j requires 0 <= j < |areas| => areas[j].name)
  }

  function ValuesAt(areas: seq<AreaState>, t: nat): (r: seq<real>)
    requires forall j :: 0 <= j < |areas| ==> t < |areas[j].history|
    ensures |r| == |areas| && forall j :: 0 <= j < |areas| ==> r[j] == areas[j].history[t].Value()
  {
    seq(|areas|, j requires 0 <= j < |areas| && t < |areas[j].history| => areas[j].history[t].Value())
  }

  /**
   * `export_data_to_csv`: the header `Step` and the area names in grid order, then one row per
   * step giving the step and each area's value for it; some history shorter than `n_steps`
   * makes it raise.
   */
  function CsvOf(areas: seq<AreaState>, nSteps: int): (r: Result<CsvTable, CsvError>)
    ensures r.Failure? <==> exists j :: 0 <= j < |areas| && |areas[j].history| < nSteps
    ensures r.Success? ==> r.value.header == ["Step"] + Names(areas) && |r.value.rows| == StepCount(nSteps)
    ensures r.Success? ==> forall t :: 0 <= t < |r.value.rows| ==> r.value.rows[t] == CsvRow(t, ValuesAt(areas, t))
  {
    if exists j :: 0 <= j < |areas| && |areas[j].history| < nSteps then Failure(HistoryTooShort)
    else Success(CsvTable(["Step"] + Names(areas),
                          seq(StepCount(nSteps), t requires 0 <= t < StepCount(nSteps) => CsvRow(t, ValuesAt(areas, t)))))
  }

  /**
   * After a run that completed all its steps on a fresh grid, the export succeeds: row t holds
   * the step-t total of every area.
   */
  lemma CompleteRunExports(areas: seq<AreaState>, sim: SimState, net: Network, feed: seq<Readings>, s: Settings)
    requires forall j :: 0 <= j < |areas| ==> areas[j].history == []
    requires s.windowSize >= 0 && RunLoop(areas, sim, net, feed, s).error.None?
    ensures var r := RunLoop(areas, sim, net, feed, s);
            var csv := CsvOf(r.areas, s.nSteps);
            csv.Success? && |csv.value.rows| == StepCount(s.nSteps) <= |feed| &&
            (forall t :: 0 <= t < |csv.value.rows| ==> |csv.value.rows[t].values| == |areas|) &&
            forall t, j :: 0 <= t < StepCount(s.nSteps) && 0 <= j < |areas| ==>
              csv.value.rows[t].values[j] == AreaTotal(Snapshot(feed[t]), areas[j].rect).Value()
  {
    var w := Windowed(areas, s.windowSize);
    var n := StepCount(s.nSteps);
    GridTickAppends(net, s);
    RunPrefixHistories(w, sim, feed, GridTick(net, s), n);
    var r := RunLoop(areas, sim, net, feed, s);
    assert forall j :: 0 <= j < |areas| ==> r.areas[j].history == StepTotals(feed, areas[j].rect, n) by {
      forall j | 0 <= j < |areas| ensures r.areas[j].history == StepTotals(feed, areas[j].rect, n) {
        assert w[j].history == [] && w[j].rect == areas[j].rect;
      }
    }
    CsvOfTotals(r.areas, areas, feed, s.nSteps);
  }

  /** The export of areas whose histories are the step totals of the feed: row t holds the step-t totals. */
  lemma CsvOfTotals(final: seq<AreaState>, areas: seq<AreaState>, feed: seq<Readings>, nSteps: int)
    requires |final| == |areas| && StepCount(nSteps) <= |feed|
    requires forall j :: 0 <= j < |areas| ==> final[j].history == StepTotals(feed, areas[j].rect, StepCount(nSteps))
    ensures var csv := CsvOf(final, nSteps);
            csv.Success? && |csv.value.rows| == StepCount(nSteps) &&
            (forall t :: 0 <= t < |csv.value.rows| ==> |csv.value.rows[t].values| == |areas|) &&
            forall t, j :: 0 <= t < StepCount(nSteps) && 0 <= j < |areas| ==>
              csv.value.rows[t].values[j] == AreaTotal(Snapshot(feed[t]), areas[j].rect).Value()
  {
    assert !exists j :: 0 <= j < |final| && |final[j].history| < nSteps;
  }

  // ----- the methods -----

  /** The outcome of `run`: the total of the `finally` block, the exception, and the CSV export if asked for. */
  datatype RunReport = RunReport(total: Emission, steps: nat, error: Option<RunError>, csv: Option<Result<CsvTable, CsvError>>)

  /** The `set_window_size` loop over the grid. */
  method SetWindows(grid: seq<Area>, k: nat)
    requires DistinctAreas(grid)
    modifies grid
    ensures States(grid) == Windowed(old(States(grid)), k)
  {
    ghost var s0 := States(grid);
    var i := 0;
    while i < |grid|
      invariant 0 <= i <= |grid|
      invariant forall j :: 0 <= j < i ==> grid[j].State() == s0[j].(window := [], capacity := Some(k))
      invariant forall j :: i <= j < |grid| ==> grid[j].State() == s0[j]
    {
      DistinctAt(grid, i);
      grid[i].SetWindowSize(k);
      i := i + 1;
    }
    StatesAre(grid, Windowed(s0, k));
  }

  /** A body that agrees with `get_emissions` on the step's vehicles, whatever the grid. */
  ghost predicate IsGridTick(tick: Tick, net: Network, s: Settings) {
    forall areas: seq<AreaState>, sim: SimState, rd: Readings, t: nat
      {:trigger GridStep(areas, sim, net, rd, Snapshot(rd), t, s)} ::
      tick(areas, sim, rd, t) == GridStep(areas, sim, net, rd, Snapshot(rd), t, s)
  }

  lemma GridTickIs(net: Network, s: Settings)
    ensures IsGridTick(GridTick(net, s), net, s)
  {
  }

  /**
   * The grid and the simulation, with the iterations done and the exception if any, are the
   * result of the first n iterations of the loop.
   */
  ghost predicate LoopAt(grid: seq<Area>, gw: Gateway, w0: seq<AreaState>, sim0: SimState, feed: seq<Readings>, tick: Tick,
                         steps: nat, error: Option<RunError>, n: nat)
    reads grid, gw
  {
    RunResult(States(grid), gw.Sim(), steps, error) == RunPrefix(w0, sim0, feed, tick, n)
  }

  /** One iteration of the step loop. */
  method RunStep(grid: seq<Area>, gw: Gateway, feed: seq<Readings>, step: nat, s: Settings,
                 ghost tick: Tick, ghost w0: seq<AreaState>, ghost sim0: SimState) returns (error: Option<RunError>)
    requires DistinctAreas(grid) && IsGridTick(tick, gw.net, s)
    requires LoopAt(grid, gw, w0, sim0, feed, tick, step, None, step)
    modifies grid, gw
    ensures LoopAt(grid, gw, w0, sim0, feed, tick, if error.None? then step + 1 else step, error, step + 1)
  {
    if step >= |feed| {
      return Some(EngineStopped);
    }
    ghost var g := GridStep(States(grid), gw.Sim(), gw.net, feed[step], Snapshot(feed[step]), step, s);
    assert tick(States(grid), gw.Sim(), feed[step], step) == g;
    gw.SimulationStep(feed[step]);
    var vehicles := GetAllVehicles(gw);
    var e := GetEmissions(grid, gw, vehicles, step, s);
    assert GridResult(States(grid), gw.Sim(), e) == g;
    error := if e.Some? then Some(WindowFailed(e.value)) else None;
  }

  /** The step loop of `run`, from the windows' set-up on. */
  method StepLoop(grid: seq<Area>, gw: Gateway, feed: seq<Readings>, s: Settings,
                  ghost tick: Tick, ghost w0: seq<AreaState>, ghost sim0: SimState) returns (steps: nat, error: Option<RunError>)
    requires DistinctAreas(grid) && IsGridTick(tick, gw.net, s) && w0 == States(grid) && sim0 == gw.Sim()
    modifies grid, gw
    ensures RunResult(States(grid), gw.Sim(), steps, error) == RunPrefix(w0, sim0, feed, tick, StepCount(s.nSteps))
  {
    steps, error := 0, None;
    while steps < s.nSteps
      invariant steps <= StepCount(s.nSteps) && error.None?
      invariant LoopAt(grid, gw, w0, sim0, feed, tick, steps, None, steps)
    {
      error := RunStep(grid, gw, feed, steps, s, tick, w0, sim0);
      if error.Some? {
        RunStops(w0, sim0, feed, tick, steps + 1, StepCount(s.nSteps));
        return;
      }
      steps := steps + 1;
    }
  }

  /** The body of the `try` block once the settings are known: the windows, then the loop. */
  method RunWith(grid: seq<Area>, gw: Gateway, feed: seq<Readings>, s: Settings) returns (steps: nat, error: Option<RunError>)
    requires DistinctAreas(grid)
    modifies grid, gw
    ensures RunResult(States(grid), gw.Sim(), steps, error) == RunLoop(old(States(grid)), old(gw.Sim()), gw.net, feed, s)
  {
    if s.windowSize < 0 && |grid| > 0 {
      return 0, Some(BadWindowSize);
    }
    SetWindows(grid, WindowCapacity(s));
    GridTickIs(gw.net, s);
    steps, error := StepLoop(grid, gw, feed, s, GridTick(gw.net, s), States(grid), gw.Sim());
  }

  /** The `finally` block's loop adding up the areas' totals. */
  method GridTotalOf(grid: seq<Area>) returns (total: Emission)
    ensures total == GridTotal(States(grid))
  {
    total := Zero();
    var i := 0;
    while i < |grid|
      invariant 0 <= i <= |grid|
      invariant total == GridTotal(States(grid)[..i])
    {
      assert States(grid)[..i + 1][..i] == States(grid)[..i];
      var e := grid[i].SumAllEmissions();
      total := total.Plus(e);
      i := i + 1;
    }
    assert States(grid)[..i] == States(grid);
  }

  /** `export_data_to_csv`: the header, then the rows step by step. */
  method ExportDataToCsv(grid: seq<Area>, nSteps: int) returns (r: Result<CsvTable, CsvError>)
    ensures r == CsvOf(States(grid), nSteps)
  {
    ghost var areas := States(grid);
    var header := ["Step"];
    var j := 0;
    while j < |grid|
      invariant 0 <= j <= |grid| && header == ["Step"] + Names(areas)[..j]
    {
      assert Names(areas)[..j + 1] == Names(areas)[..j] + [grid[j].name];
      header := header + [grid[j].name];
      j := j + 1;
    }
    assert Names(areas)[..j] == Names(areas);
    var rows := [];
    var t := 0;
    while t < nSteps
      invariant 0 <= t <= StepCount(nSteps) && |rows| == t
      invariant forall a :: 0 <= a < |grid| ==> t <= |areas[a].history|
      invariant forall u :: 0 <= u < t ==> rows[u] == CsvRow(u, ValuesAt(areas, u))
    {
      var values := [];
      j := 0;
      while j < |grid|
        invariant 0 <= j <= |grid| && |values| == j
        invariant forall a :: 0 <= a < j ==> t < |areas[a].history| && values[a] == areas[a].history[t].Value()
      {
        if t >= |grid[j].history| {
          assert |areas[j].history| < nSteps;
          return Failure(HistoryTooShort);
        }
        values := values + [grid[j].history[t].Value()];
        j := j + 1;
      }
      assert values == ValuesAt(areas, t);
      rows := rows + [CsvRow(t, values)];
      t := t + 1;
    }
    r := Success(CsvTable(header, rows));
    assert r.value.rows == CsvOf(areas, nSteps).value.rows;
  }

  /** A simulation process: the data it runs on, its configuration, and what to keep. */
  class RunProcess {
    const data: Data
    const config: Config
    const saveLogs: bool
    const csvExport: bool

    constructor (data: Data, config: Config, saveLogs: bool, csvExport: bool)
      ensures this.data == data && this.config == config && this.saveLogs == saveLogs && this.csvExport == csvExport
    {
      this.data := data;
      this.config := config;
      this.saveLogs := saveLogs;
      this.csvExport := csvExport;
    }

    /**
     * `run`: the windows are set, the loop runs `n_steps` steps, and, whatever happened, the
     * total over all areas is computed; the table is exported when asked for, unless setting
     * the windows failed before `start` was bound.
     */
    method Run(gw: Gateway, feed: seq<Readings>) returns (report: RunReport)
      requires DistinctAreas(data.grid)
      modifies data.grid, gw
      ensures SettingsOf(config.attrs).None? ==>
                States(data.grid) == old(States(data.grid)) && gw.Sim() == old(gw.Sim()) &&
                report == RunReport(GridTotal(States(data.grid)), 0, Some(MissingSetting), None)
      ensures SettingsOf(config.attrs).Some? ==>
                var s := SettingsOf(config.attrs).value;
                var r := RunLoop(old(States(data.grid)), old(gw.Sim()), gw.net, feed, s);
                States(data.grid) == r.areas && gw.Sim() == r.sim &&
                report.total == GridTotal(r.areas) && report.steps == r.steps &&
                if r.error == Some(BadWindowSize) then report.error == Some(StartUnbound) && report.csv.None?
                else report.error == r.error &&
                     report.csv == (if csvExport then Some(CsvOf(r.areas, s.nSteps)) else None)
    {
      var grid := data.grid;
      var so := SettingsOf(config.attrs);
      if so.None? {
        var total := GridTotalOf(grid);
        return RunReport(total, 0, Some(MissingSetting), None);
      }
      var s := so.value;
      var steps, error := RunWith(grid, gw, feed, s);
      report := Report(grid, steps, error, s.nSteps, csvExport);
    }
  }

  /**
   * After the loop: the `finally` block's total, then the CSV export when it is asked for. A
   * window size that failed leaves `start` unbound: the block stops at the elapsed time, its
   * UnboundLocalError replaces the ValueError, and nothing is exported.
   */
  method Report(grid: seq<Area>, steps: nat, error: Option<RunError>, nSteps: int, csvExport: bool) returns (report: RunReport)
    ensures report.total == GridTotal(States(grid)) && report.steps == steps
    ensures error == Some(BadWindowSize) ==> report.error == Some(StartUnbound) && report.csv.None?
    ensures error != Some(BadWindowSize) ==>
              report.error == error &&
              report.csv == (if csvExport then Some(CsvOf(States(grid), nSteps)) else None)
  {
    var total := GridTotalOf(grid);
    if error == Some(BadWindowSize) {
      return RunReport(total, steps, Some(StartUnbound), None);
    }
    var csv: Option<Result<CsvTable, CsvError>> := None;
    if csvExport {
      var table := ExportDataToCsv(grid, nSteps);
      csv := Some(table);
    }
    report := RunReport(total, steps, error, csv);
  }

  // ----- the command line -----

  /** The options `add_options` declares; an absent option is `None`. */
  datatype Args = Args(
    newDump: Option<string>, areas: Option<int>, simulationDir: Option<string>,
    run: Option<string>, c: Option<seq<string>>, cDir: Option<string>,
    save: bool, csv: bool)

  /** `check_user_entry` */
  function CheckUserEntry(args: Args): (ok: bool)
    ensures !ok <==> (args.newDump.Some? && (args.areas.None? || args.simulationDir.None?)) ||
                     (args.run.Some? && args.c.None? && args.cDir.None?)
  {
    if args.newDump.Some? && (args.areas.None? || args.simulationDir.None?) then false
    else if args.run.Some? && args.c.None? && args.cDir.None? then false
    else true
  }

  /** A run with a `-c` list and a dump without its options both pass; `-new_dump` alone does not. */
  lemma CheckUserEntryExamples()
    ensures CheckUserEntry(Args(None, None, None, Some("dump.json"), Some(["a.json"]), None, false, false))
    ensures !CheckUserEntry(Args(Some("d"), None, Some("sim"), None, None, None, false, false))
    ensures CheckUserEntry(Args(None, None, None, None, None, None, true, true))
  {
  }

  /** The regular files of a directory listing, joined to the directory, in listing order. */
  function DirFiles(path: string, listing: seq<string>, isFile: string -> bool): (r: seq<string>)
    ensures forall f :: f in r <==> exists g :: g in listing && f == PathJoin(path, g) && isFile(f)
  {
    if listing == [] then []
    else
      var g := listing[|listing| - 1];
      DirFiles(path, listing[..|listing| - 1], isFile) + (if isFile(PathJoin(path, g)) then [PathJoin(path, g)] else [])
  }

  /** The configuration files of `main`: the `-c` files in the given order, then those of `-c_dir`. */
  function ConfigFiles(c: Option<seq<string>>, cDir: Option<string>, listing: seq<string>, isFile: string -> bool): (files: seq<string>)
    ensures c.Some? ==> |c.value| <= |files| && files[..|c.value|] == c.value
    ensures forall f :: f in files <==>
              (c.Some? && f in c.value) || (cDir.Some? && exists g :: g in listing && f == PathJoin(cDir.value, g) && isFile(f))
  {
    (if c.Some? then c.value else []) + (if cDir.Some? then DirFiles(cDir.value, listing, isFile) else [])
  }

  /** The loops of `main` that fill `files`. */
  method BuildFileList(c: Option<seq<string>>, cDir: Option<string>, listing: seq<string>, isFile: string -> bool)
    returns (files: seq<string>)
    ensures files == ConfigFiles(c, cDir, listing, isFile)
  {
    files := [];
    if c.Some? {
      files := AppendAll(files, c.value);
    }
    assert files == if c.Some? then c.value else [];
    if cDir.Some? {
      var bundle := RegularFiles(cDir.value, listing, isFile);
      var joined := JoinEach(cDir.value, bundle);
      assert joined == DirFiles(cDir.value, listing, isFile);
      files := AppendAll(files, joined);
    }
  }

  /** `files.append` for each item, in order. */
  method AppendAll(files: seq<string>, items: seq<string>) returns (r: seq<string>)
    ensures r == files + items
  {
    r := files;
    var i := 0;
    while i < |items|
      invariant 0 <= i <= |items| && r == files + items[..i]
    {
      assert items[..i + 1] == items[..i] + [items[i]];
      r := r + [items[i]];
      i := i + 1;
    }
    assert items[..i] == items;
  }

  /** `[f for f in os.listdir(path) if os.path.isfile(os.path.join(path, f))]` */
  method RegularFiles(path: string, listing: seq<string>, isFile: string -> bool) returns (bundle: seq<string>)
    ensures JoinAll(path, bundle) == DirFiles(path, listing, isFile)
  {
    bundle := [];
    var i := 0;
    while i < |listing|
      invariant 0 <= i <= |listing|
      invariant DirFiles(path, listing[..i], isFile) == JoinAll(path, bundle)
    {
      assert listing[..i + 1][..i] == listing[..i];
      if isFile(PathJoin(path, listing[i])) {
        JoinAllSnoc(path, bundle, listing[i]);
        bundle := bundle + [listing[i]];
      }
      i := i + 1;
    }
    assert listing[..i] == listing;
  }

  /** `os.path.join(path, config)` for each name, in order. */
  method JoinEach(path: string, names: seq<string>) returns (r: seq<string>)
    ensures r == JoinAll(path, names)
  {
    r := [];
    var i := 0;
    while i < |names|
      invariant 0 <= i <= |names| && r == JoinAll(path, names[..i])
    {
      assert names[..i + 1][..i] == names[..i];
      r := r + [PathJoin(path, names[i])];
      i := i + 1;
    }
    assert names[..i] == names;
  }

  /** Each name joined to the directory, in order. */
  function JoinAll(path: string, names: seq<string>): seq<string> {
    if names == [] then [] else JoinAll(path, names[..|names| - 1]) + [PathJoin(path, names[|names| - 1])]
  }

  lemma JoinAllSnoc(path: string, names: seq<string>, g: string)
    ensures JoinAll(path, names + [g]) == JoinAll(path, names) + [PathJoin(path, g)]
  {
    assert (names + [g])[..|names|] == names;
  }

  /** What `main` does with each process, in order. */
  datatype Event = Start(config: string) | Join(config: string)

  /** The launch of one process per configuration file: all are started, then all are joined. */
  method LaunchAll(files: seq<string>) returns (events: seq<Event>)
    ensures |events| == 2 * |files|
    ensures forall i :: 0 <= i < |files| ==> events[i] == Start(files[i]) && events[|files| + i] == Join(files[i])
  {
    events := [];
    var i := 0;
    while i < |files|
      invariant 0 <= i <= |files| && |events| == i
      invariant forall k :: 0 <= k < i ==> events[k] == Start(files[k])
    {
      events := events + [Start(files[i])];
      i := i + 1;
    }
    i := 0;
    while i < |files|
      invariant 0 <= i <= |files| && |events| == |files| + i
      invariant forall k :: 0 <= k < |files| ==> events[k] == Start(files[k])
      invariant forall k :: 0 <= k < i ==> events[|files| + k] == Join(files[k])
    {
      events := events + [Join(files[i])];
      i := i + 1;
    }
  }

  /** No process is joined before every process has been started. */
  lemma StartsBeforeJoins(files: seq<string>, events: seq<Event>, a: nat, b: nat)
    requires |events| == 2 * |files|
    requires forall i :: 0 <= i < |files| ==> events[i] == Start(files[i]) && events[|files| + i] == Join(files[i])
    requires a < |events| && b < |events| && events[a].Start? && events[b].Join?
    ensures a < |files| <= b
  {
    forall e | 0 <= e < |events| ensures events[e].Start? <==> e < |files| {
      if e >= |files| {
        assert events[|files| + (e - |files|)] == Join(files[e - |files|]);
      }
    }
  }

  /**
   * The launches of `main`: with a consistent command line and an existing dump, one process per
   * configuration file; otherwise none.
   */
  method MainLaunches(args: Args, dumpExists: bool, listing: seq<string>, isFile: string -> bool) returns (events: seq<Event>)
    ensures !CheckUserEntry(args) || args.run.None? || !dumpExists ==> events == []
    ensures CheckUserEntry(args) && args.run.Some? && dumpExists ==>
              var files := ConfigFiles(args.c, args.cDir, listing, isFile);
              |events| == 2 * |files| &&
              forall i :: 0 <= i < |files| ==> events[i] == Start(files[i]) && events[|files| + i] == Join(files[i])
  {
    events := [];
    if CheckUserEntry(args) && args.run.Some? && dumpExists {
      var files := BuildFileList(args.c, args.cDir, listing, isFile);
      events := LaunchAll(files);
    }
  }

  // ----- the data dump -----

  /** The last `.sumocfg` file of the listing: each match overwrites `_SUMOCFG`. */
  function LastSumoCfg(listing: seq<string>): (r: Option<string>)
    ensures r.Some? ==> r.value in listing && EndsWith(r.value, ".sumocfg")
    ensures r.None? <==> forall f :: f in listing ==> !EndsWith(f, ".sumocfg")
  {
    if listing == [] then None
    else if EndsWith(listing[|listing| - 1], ".sumocfg") then Some(listing[|listing| - 1])
    else LastSumoCfg(listing[..|listing| - 1])
  }

  /** No entry after index i is a `.sumocfg` file. */
  predicate NoSumoCfgAfter(listing: seq<string>, i: nat) {
    forall m :: i < m < |listing| ==> !EndsWith(listing[m], ".sumocfg")
  }

  /** No file after the one found is a `.sumocfg` file. */
  lemma LastSumoCfgIsLast(listing: seq<string>, k: nat)
    requires k < |listing| && EndsWith(listing[k], ".sumocfg")
    ensures LastSumoCfg(listing).Some?
    ensures exists i :: k <= i < |listing| && listing[i] == LastSumoCfg(listing).value && NoSumoCfgAfter(listing, i)
  {
    var i := LastSumoCfgIndex(listing, k);
  }

  /** The index of the file found: at or after any `.sumocfg` entry k, with none after it. */
  lemma {:induction false} LastSumoCfgIndex(listing: seq<string>, k: nat) returns (i: nat)
    requires k < |listing| && EndsWith(listing[k], ".sumocfg")
    ensures k <= i < |listing| && LastSumoCfg(listing) == Some(listing[i]) && NoSumoCfgAfter(listing, i)
  {
    var last := |listing| - 1;
    if EndsWith(listing[last], ".sumocfg") {
      i := last;
    } else {
      var init := listing[..last];
      assert init[k] == listing[k];
      i := LastSumoCfgIndex(init, k);
      assert listing[i] == init[i];
      forall m | i < m < |listing| ensures !EndsWith(listing[m], ".sumocfg") {
        if m < last { assert listing[m] == init[m]; }
      }
    }
  }

  /** The loop of `create_dump` over the simulation directory. */
  method FindSumoCfg(simDir: string, listing: seq<string>) returns (cfg: Option<string>)
    ensures cfg == (if LastSumoCfg(listing).Some? then Some(PathJoin(simDir, LastSumoCfg(listing).value)) else None)
  {
    cfg := None;
    var i := 0;
    while i < |listing|
      invariant 0 <= i <= |listing|
      invariant cfg == (if LastSumoCfg(listing[..i]).Some? then Some(PathJoin(simDir, LastSumoCfg(listing[..i]).value)) else None)
    {
      assert listing[..i + 1][..i] == listing[..i];
      if EndsWith(listing[i], ".sumocfg") {
        cfg := Some(PathJoin(simDir, listing[i]));
      }
      i := i + 1;
    }
    assert listing[..i] == listing;
  }

  /** The dump file `create_dump` looks for. */
  function DumpPath(simDir: string, dumpName: string): string {
    simDir + "/dump/" + dumpName + ".json"
  }

  datatype DumpOutcome =
    | NoSumoCfg                  // no `.sumocfg` file: `_SUMOCFG` is unbound
    | AlreadyExists              // the dump exists: nothing is built
    | GridFailed(reason: GridError)
    | Created(sumoCfg: string)

  /**
   * `create_dump`: on a session started with the directory's `.sumocfg`, a new Data object with
   * its grid and lanes is built, unless the dump already exists. Saving it is not modelled.
   */
  method CreateDump(dumpName: string, simDir: string, areasNumber: int, listing: seq<string>,
                    isFile: string -> bool, gw: Gateway, intersects: (Quad, seq<Point>) -> bool)
    returns (outcome: DumpOutcome, data: Data?)
    ensures outcome == NoSumoCfg <==> LastSumoCfg(listing).None?
    ensures LastSumoCfg(listing).Some? && isFile(DumpPath(simDir, dumpName)) ==> outcome == AlreadyExists && data == null
    ensures LastSumoCfg(listing).Some? && !isFile(DumpPath(simDir, dumpName)) ==>
              data != null && fresh(data) && data.mapBounds == gw.net.boundary && data.areasNumber == areasNumber &&
              (outcome == GridFailed(NoAreas) <==> areasNumber == 0) &&
              (outcome.Created? ==> outcome.sumoCfg == PathJoin(simDir, LastSumoCfg(listing).value))
    ensures outcome.Created? && areasNumber > 0 ==>
              data != null && |data.grid| == areasNumber * areasNumber &&
              forall k :: 0 <= k < |data.grid| ==>
                var cell := GridCells(areasNumber, data.CellSides().0, data.CellSides().1)[k];
                data.grid[k].State() == AddLanesData(NewAreaState(cell.0, cell.1), gw.net, AllLanes(gw.net, gw.Sim()), intersects)
  {
    data := null;
    var cfg := FindSumoCfg(simDir, listing);
    if cfg.None? {
      return NoSumoCfg, null;
    }
    if isFile(DumpPath(simDir, dumpName)) {
      return AlreadyExists, null;
    }
    data := new Data(gw.net.boundary, areasNumber);
    var grid := data.InitGrid();
    if grid.Failure? {
      return GridFailed(grid.error), data;
    }
    data.AddDataToAreas(gw, intersects);
    outcome := Created(cfg.value);
  }
}

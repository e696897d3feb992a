# The SUMO emissions decision core, modelled in Dafny

The SUMO emissions project runs a road-traffic simulation (SUMO, driven through its TraCI
interface). It splits the map into an n x n grid of areas and sums, at every step, the pollutants
emitted by the vehicles in each area. When an area's moving window of emissions reaches a
threshold, it takes mitigation actions there:
- limiting lane speeds;
- shortening traffic-light phases;
- closing the lanes to passenger cars;
- re-weighting edges for rerouting.

It undoes them when the window sum falls back below the threshold. A companion tool (two
revisions of `configurator.py`) builds a SUMO scenario: it fills the netconvert, polyconvert and
SUMO XML templates, turns `VCLASS=DENSITY` pairs into randomTrips calls and names the route files.

This project models that core and proves properties of it. It has one module per source
concern.

| file | module | models |
|---|---|---|
| `wrappers.dfy` | `Wrappers` | `Option` and `Result` |
| `texts.dfy` | `Texts` | `str(i)`, `str.join`, `str.rfind`, `posixpath.join`, `basename` and `splitext` |
| `geometry.dfy` | `Geometry` | points, four-corner rectangles, `bounds`, strict containment |
| `window.dfy` | `Window` | the bounded `deque` with `appendleft` and its moving sum |
| `writes.dfy` | `Writes` | a sequence of writes into a dictionary (`__setattr__`, `setMaxSpeed`, ...) |
| `model.dfy` | `Model` | `Emission`, `Lane`, `Phase`, `Logic`, `TrafficLight`, `Vehicle` and the `Area` class (`sumo_project/model.py`) |
| `gateway.dfy` | `Gateway` | the simulation as the core reads and writes it over TraCI: a class holding the maps the actions write |
| `actions.dfy` | `Actions` | `sumo_project/actions.py`: each action as a function on values, and as methods on `Area` and `Gateway` |
| `config.dfy` | `Configuration` | `sumo_project/config.py`: the `Config` class over a JSON attribute map, `check_config`, `get_ref_emissions` |
| `emissions.dfy` | `Emissions` | `sumo_project/emissions.py`: `get_emissions`, `get_all_vehicles`, `get_reduction_percentage` |
| `data.dfy` | `Data` | `sumo_project/data.py`: the grid, lane capture and the association of lanes and traffic lights with areas |
| `runner.dfy` | `Runner` | `sumo_project/runner.py`: the step loop, the `finally` total, the CSV table, `check_user_entry`, the configuration file list, the process fan-out order, `create_dump` |
| `dicts.dfy` | `Dicts` | insertion-ordered Python dictionaries |
| `xml.dfy` | `Xml` | a parsed XML template as a set of element paths and a path-to-value map |
| `scenario.dfy` | `Scenario` | what both configurator revisions share: `dict_to_list`, `StoreDictKeyPair`, `vehicle_classes`, the netconvert and polyconvert templates, `_init_trips`' lane length, route-file names, the `generate_mobility` loop, `move_logs` |
| `configurator.py` revisions: `configurator.dfy` | `Configurator` | `sumo_project/configurator.py` |
| `legacy_configurator.dfy` | `LegacyConfigurator` | `configurator/configurator.py` |
| `legacy_area.dfy` | `LegacyArea` | `sumo_project/area.py` |

The files are revisions that do not agree with each other. The model follows one coherent design:
- `model.Area(coords, name)`, with `set_window_size(k)` called by the runner;
- `get_emissions(grid, vehicles, step, config, ...)`;
- `Data(map_bounds, areas_number)`.

Where the code and the project's documentation disagree, the code is followed. The call sites
that do not fit this design are listed under "Inconsistencies in the source".

State that the source changes in place is modelled by classes:
- `Area`, `Gateway`, `Config`, `Data`, `Xml.Tree`, the two `TripsGenerator`s and `RunProcess`;
- their methods carry `modifies` clauses.

Each imperative operation is proved against a function on values: `AreaStep`, `GridStep`,
`LimitSpeed`, `Reverse`, `CheckConfig`, `RunLoop`, `CsvOf`, `Collect`, and so on. The properties
the source promises are proved about those functions as lemmas.

Four kinds of input are parameters:
- the TraCI readings of a step;
- the network description;
- the lane/rectangle intersection test;
- directory listings.

A float parse and the clock value used as seed are parameters too.

## Model

| member | source | states |
|---|---|---|
| Texts.NatToString | sumo_project/data.py:61 | the decimal text of a number is made of digits only, never empty, and one digit long exactly below 10 |
| Texts.NatToStringInjective | sumo_project/data.py:61 | distinct numbers have distinct decimal texts, which area names rely on |
| Texts.PathJoin | sumo_project/configurator.py:185-186 | a relative name is joined to a directory without a trailing slash by exactly one '/' |
| Texts.Basename | sumo_project/config.py:46 | the base name holds no '/' and ends the path |
| Texts.BasenameAfterSlash | sumo_project/config.py:41-46 | the base name of `files/configs/` followed by a plain name is that name |
| Texts.ExtensionIsLog | sumo_project/configurator.py:227 | `splitext(f)[1] == '.log'` exactly when the name ends with `.log` and its last component has a non-dot character before it |
| Geometry.BoundsOf | sumo_project/model.py:191-197 | `bounds` is `(xmin, ymin, xmax, ymax)` with `xmin <= xmax` and `ymin <= ymax` |
| Geometry.BoundsAreExtremes | sumo_project/model.py:191-197 | every corner lies within the bounds and each of the four bounds is attained by a corner |
| Geometry.FromBounds | sumo_project/model.py:253-259 | an axis-aligned rectangle listed around its boundary from `(xmin,ymin)`, with `(xmax,ymax)` the opposite corner; for ordered input its bounds are those given |
| Geometry.BoundsRoundTrip | sumo_project/model.py:253-259 | for ordered bounds, the bounds of the rectangle built from them are those bounds |
| Geometry.ContainsFromBounds | sumo_project/model.py:253-259 | for ordered bounds, the rectangle built from them contains exactly the points strictly inside them |
| Geometry.DegenerateContainsNothing | sumo_project/model.py:184-189 | a rectangle without width or height contains no point (containment is strict) |
| Window.PushFront | sumo_project/model.py:246 | `appendleft` on a deque of capacity k: the new value first, the older ones shifted, length min(k, old length + 1) |
| Window.WindowAfter | sumo_project/model.py:173-174 | a window filled from empty never holds more values than its capacity |
| Window.WindowAfterAt | sumo_project/model.py:246 | after n pushes the window holds min(k, n) values, entry i being the value pushed i pushes ago |
| Window.SumReversed | sumo_project/model.py:248-251 | a sequence and its reverse have the same sum, so the newest-first window sums like the values in time order |
| Window.WindowSumIsTrailing | sumo_project/model.py:240-251 | the window sum is the sum of the last min(k, n) pushed values |
| Window.WindowExample | sumo_project/model.py:240-251 | totals 10, 20, 30, 40, 50 with k = 3 give window sums 10, 30, 60, 90, 120 |
| Writes.LastWrite | sumo_project/config.py:44-45 | a last write to a key, when one exists, is one of the writes |
| Writes.ApplyLookup | sumo_project/config.py:44-45 | after a series of assignments a key is present iff it was present or assigned, and holds its last assigned value, else its old one |
| Writes.ApplyConcat | sumo_project/actions.py:55-56 | issuing two series of writes is issuing their concatenation |
| Writes.ApplyOverwrite | sumo_project/actions.py:55-56 | writes covering every key of earlier writes erase all trace of them |
| Writes.ApplyIdempotent | sumo_project/actions.py:55-56 | issuing the same writes twice gives what issuing them once gives |
| Writes.LastWriteOfDistinct | sumo_project/configurator.py:116-118 | with distinct keys a key's last write is its only write |
| Writes.LastWriteConstant | sumo_project/configurator.py:44-64 | when every write to a key writes v, the last one writes v |
| Model.ZeroIsIdentity | sumo_project/model.py:113-126 | `Emission()` is all zeros and is a left and right identity of `+` |
| Model.PlusValue | sumo_project/model.py:128-141 | `value(a + b) == value(a) + value(b)` |
| Model.PlusCommutes | sumo_project/model.py:128-135 | `+` on emissions is commutative |
| Model.PlusAssociates | sumo_project/model.py:128-135 | `+` on emissions is associative |
| Model.Values | sumo_project/model.py:137-141 | the values of a history, one per entry, in order |
| Model.ValuesPrefix | sumo_project/model.py:137-141 | the values of a prefix are the prefix of the values |
| Model.PushTrailing | sumo_project/model.py:240-251 | a window that saw every entry of a history, pushed the next entry, is the window of the longer history and sums its last min(k, n) values |
| Model.SumAllValue | sumo_project/model.py:230-238 | the value of `sum_all_emissions` is the sum of the values of the history entries |
| Model.SumAllAppend | sumo_project/model.py:230-238 | one more history entry adds exactly that entry to the total |
| Model.InsertLane | sumo_project/model.py:206-212 | `set.add`: the result holds exactly the old lanes and the new one, and is unchanged when the lane was there |
| Model.Without | sumo_project/model.py:222-228 | the set minus one lane: exactly the other lanes, never more of them |
| Model.IntoWindow | sumo_project/model.py:240-251 | fails exactly when no window was set or the step is past the history; otherwise only the window changes, by pushing `history[step].value()` |
| Model.Area.constructor | sumo_project/model.py:156-171 | a new area has its four flags false, an empty history, no window, no lanes and no traffic lights |
| Model.Area.SetWindowSize | sumo_project/model.py:173-174 | the window becomes empty with capacity k |
| Model.Area.Bounds | sumo_project/model.py:191-197 | the bounds are ordered and the area contains exactly the points strictly inside them |
| Model.Area.AddLane | sumo_project/model.py:206-212 | the lane set becomes the set with the lane added |
| Model.Area.AddTl | sumo_project/model.py:214-220 | the traffic light is appended (a new object each time) |
| Model.Area.RemoveLane | sumo_project/model.py:222-228 | succeeds iff the lane is held; it is then removed, otherwise nothing changes (KeyError) |
| Model.Area.SumAllEmissions | sumo_project/model.py:230-238 | the loop's result is the left fold of `+` over the history from zero |
| Model.Area.SumEmissionsIntoWindow | sumo_project/model.py:240-251 | fails without a window or past the history; otherwise pushes `history[step].value()` at the front and returns the sum of all window entries; the window stays within capacity |
| Model.States | sumo_project/model.py:151-171 | the state of each area of the grid, in grid order |
| Model.DistinctAt | sumo_project/data.py:62-63 | in a grid of distinct areas, no other index holds the area at index i |
| Model.DistinctSnoc | sumo_project/data.py:62-63 | appending a new area to a grid of distinct areas keeps them distinct |
| Gateway.Gateway.constructor | sumo_project/runner.py:112 | a new session shows the network and its first readings, with nothing written yet |
| Gateway.Gateway.SimulationStep | sumo_project/runner.py:125 | a step only replaces the readings |
| Gateway.Gateway.SetMaxSpeed | sumo_project/actions.py:56 | only that lane's maximum speed changes, to the given value |
| Gateway.Gateway.SetDisallowed | sumo_project/actions.py:110 | only that lane's permission changes, to the classes disallowed |
| Gateway.Gateway.SetAllowed | sumo_project/actions.py:136 | only that lane's permission changes, to the classes allowed |
| Gateway.Gateway.SetProgram | sumo_project/actions.py:85 | only that light's program changes, to the given logic |
| Gateway.Gateway.SetEffort | sumo_project/actions.py:41 | only that edge's effort changes, to the given weight |
| Gateway.Gateway.RerouteEffort | sumo_project/actions.py:44 | the vehicle is appended to the reroute requests, in request order |
| Actions.ComputeEdgeWeight | sumo_project/actions.py:16-28 | the edge weight is the value of the edge's five pollutant readings |
| Actions.ScaledPhases | sumo_project/actions.py:66-70 | one phase per stored phase, in order, each duration, min and max multiplied by rf, phaseDef kept |
| Actions.SpeedLimitKeys | sumo_project/actions.py:55-56 | the limiting writes touch the same lanes as the restoring writes, each once when lane ids are unique |
| Actions.LimitSpeedEffect | sumo_project/actions.py:47-56 | every area lane gets rf times its initial maximum speed, never a multiple of its current one; no other lane changes; only `limited_speed` changes in the area |
| Actions.LimitSpeedIdempotent | sumo_project/actions.py:47-56 | limiting twice gives the speeds limiting once gives |
| Actions.ReverseFlags | sumo_project/actions.py:113-136 | after reversal `limited_speed`, `tls_adjusted` and `locked` are false; `weight_adjusted`, history, window, lanes and lights are unchanged; efforts and reroutes are untouched |
| Actions.ReverseRestoresSpeeds | sumo_project/actions.py:119-123 | reversing a limited area sets each of its lanes back to exactly its initial maximum speed |
| Actions.ReverseKeepsSpeedsWhenNotLimited | sumo_project/actions.py:120 | reversing an area that is not limited changes no lane speed |
| Actions.LimitThenReverse | sumo_project/actions.py:47-123 | limiting then reversing leaves the restoring speeds, no trace of the limit |
| Emissions.LimitStageThenReverse | sumo_project/emissions.py:83-89 | after a limit stage (with the retiming nested in it) and a reversal, the speeds are the restoring ones iff the area is or became limited, the programs the stored ones iff it is or became retimed, otherwise untouched; all three flags are down |
| Actions.SharedLaneCaveat | sumo_project/actions.py:120-123 | when two limited areas hold the same lane, reversing one restores the lane's speed while the other still counts as limited |
| Actions.RetimeKeys | sumo_project/actions.py:83-85 | the retiming writes touch the same traffic lights as the restoring writes |
| Actions.RetimeThenReverse | sumo_project/actions.py:126-130 | after retiming then reversing, whatever the other flags, each light holds the stored `logic._logic` the restoring calls install, and the three action flags are down |
| Actions.LockThenReverse | sumo_project/actions.py:100-136 | locking disallows `passenger` on every area lane; reversal installs "all classes allowed", not the earlier permission |
| Actions.LockIsNotUndone | sumo_project/actions.py:133-136 | a lane with no permission of its own before the lock does not return to that state |
| Actions.AdjustEdgesWeightsEffect | sumo_project/actions.py:31-44 | each area lane's edge gets the effort of its current emissions, every vehicle of the step is asked to reroute in order, and `weight_adjusted` is set |
| Actions.VehicleCountZero | sumo_project/actions.py:88-97 | the count is zero exactly when no area lane had a vehicle in the last step |
| Actions.RetimedCycle | sumo_project/actions.py:59-72 | a retimed logic's total cycle is rf times the stored cycle |
| Actions.ModifyLogic | sumo_project/actions.py:59-72 | the new logic is program `"new-program"` (0, 0, 0) with the stored phases in order, durations scaled by rf |
| Actions.LimitSpeedIntoArea | sumo_project/actions.py:47-56 | the area and simulation after the loop are those `LimitSpeed` describes |
| Actions.RetimeTrafficLight | sumo_project/actions.py:84-85 | the light's programs become the retimed logics, installed in order |
| Actions.AdjustTrafficLightPhaseDuration | sumo_project/actions.py:75-85 | the area and simulation after the loops are those `AdjustTrafficLights` describes |
| Actions.CountVehiclesInArea | sumo_project/actions.py:88-97 | the loop returns the sum over area lanes of last-step vehicle numbers |
| Actions.SetPermissions | sumo_project/actions.py:108-110 | one permission write per lane, in order |
| Actions.LockArea | sumo_project/actions.py:100-110 | the outcome is the one `Lock` describes |
| Actions.AdjustEdgesWeightsOf | sumo_project/actions.py:31-44 | the outcome is the one `AdjustEdgesWeights` describes |
| Actions.LimitSpeed | sumo_project/actions.py:47-56 | `limit_speed_into_area` on values: rf times the initial speed on every lane of the area, flag set (`LimitSpeedEffect`); idempotent (`LimitSpeedIdempotent`); undone by `Reverse` (`LimitThenReverse`) |
| Actions.AdjustTrafficLights | sumo_project/actions.py:75-85 | `adjust_traffic_light_phase_duration` on values: every captured logic of every light replaced by its retimed copy, flag set; the cycle scales by rf (`RetimedCycle`); undone by `Reverse` (`RetimeThenReverse`) |
| Actions.Lock | sumo_project/actions.py:100-110 | `lock_area` on values: `passenger` disallowed on every lane of the area, flag set (`LockThenReverse`); the prior permission is not restored (`LockIsNotUndone`) |
| Actions.AdjustEdgesWeights | sumo_project/actions.py:31-44 | `adjust_edges_weights` on values: the efforts of the area's edges and one reroute per vehicle, in order (`AdjustEdgesWeightsEffect`) |
| Actions.Reverse | sumo_project/actions.py:113-136 | `reverse_actions` on values: the three flags cleared, efforts and reroutes kept (`ReverseFlags`); initial speeds restored iff limited (`ReverseRestoresSpeeds`, `ReverseKeepsSpeedsWhenNotLimited`) |
| Actions.RestoreSpeedsOf | sumo_project/actions.py:119-123 | the outcome is the speed part of `Reverse` |
| Actions.RestoreTrafficLight | sumo_project/actions.py:129-130 | each stored logic is reinstalled as captured, in order |
| Actions.RestoreProgramsOf | sumo_project/actions.py:125-130 | the outcome is the traffic-light part of `Reverse` |
| Actions.UnlockOf | sumo_project/actions.py:132-136 | the outcome is the unlocking part of `Reverse` |
| Actions.ReverseActions | sumo_project/actions.py:113-136 | the outcome is `Reverse`, about which ReverseFlags and the restoring lemmas hold |
| Configuration.CheckConfig | sumo_project/config.py:49-65 | returns normally iff both `weight_routing_mode` and `without_actions_mode` are set (AttributeError otherwise) |
| Configuration.WeightRoutingExcludesOthers | sumo_project/config.py:54-58 | with weight routing on, the speed, traffic-light and lock modes end false |
| Configuration.WithoutActionsDisablesAll | sumo_project/config.py:61-65 | in the reference simulation all four mode flags end false |
| Configuration.NeitherModeChangesNothing | sumo_project/config.py:49-65 | with neither mode on nothing changes |
| Configuration.CheckConfigFrame | sumo_project/config.py:49-65 | only the four mode flags can change; thresholds, factors, `n_steps`, `window_size` and `without_actions_mode` keep their values and no key disappears |
| Configuration.CheckConfigIdempotent | sumo_project/config.py:49-65 | normalising twice is normalising once |
| Configuration.RefEmissions | sumo_project/config.py:125-130 | `ref200` iff `n_steps == 200`, nothing otherwise, AttributeError without `n_steps` |
| Configuration.SettingsOf | sumo_project/config.py:20-130 | the typed settings read each mode flag as Python truthiness of its attribute |
| Configuration.CheckedSettingsNormalised | sumo_project/config.py:49-65 | settings read after `check_config` obey the mode precedence |
| Configuration.Config.constructor | sumo_project/config.py:30-33 | a new configuration has no instance attribute |
| Configuration.Config.CheckConfigIn | sumo_project/config.py:49-65 | the in-place assignments reach the state `CheckConfig` describes |
| Configuration.Config.ImportConfigFile | sumo_project/config.py:35-47 | one attribute per JSON key, in order, then `config_filename`, then the normalisation |
| Configuration.Config.GetRefEmissions | sumo_project/config.py:125-130 | `ref200` only when `n_steps` is 200, nothing only when it is not |
| Configuration.ImportSetsEachKey | sumo_project/config.py:44-47 | after an import, every key other than the mode flags holds the value the file gave it last |
| Configuration.ConfigFilenameIsBase | sumo_project/config.py:41-46 | the recorded file name is the configuration name plus `.json` |
| Emissions.Inside | sumo_project/emissions.py:73-74 | exactly the listed vehicles whose position is strictly inside the area |
| Emissions.EmissionsOf | sumo_project/emissions.py:75 | the emissions of the vehicles, one per vehicle, in order |
| Emissions.AreaTotalIsSumInside | sumo_project/emissions.py:72-75 | an area's step total is the sum of the emissions of exactly the vehicles inside it |
| Emissions.AreaTotalIgnoresOutside | sumo_project/emissions.py:73-75 | a vehicle outside the area or on its border adds nothing |
| Emissions.GridPrefix | sumo_project/emissions.py:71-103 | the first n turns leave the grid's size unchanged and the later areas untouched |
| Emissions.DecideKeeps | sumo_project/emissions.py:80-103 | the decision changes only the area's flags: history, window, lanes and lights stay |
| Emissions.AreaStepHistory | sumo_project/emissions.py:72-81 | one turn appends exactly one entry, the area's total; it fails exactly without a window or past the history |
| Emissions.LimitGuard | sumo_project/emissions.py:81-85 | at or above the threshold, speeds are limited exactly when the mode is on and the area is not yet limited |
| Emissions.RetimeNested | sumo_project/emissions.py:83-89 | retiming happens only in the step where the speed limit is newly applied and the lights are not already retimed |
| Emissions.LockGuard | sumo_project/emissions.py:91-94 | locking needs the mode, an unlocked area and a nonzero vehicle count on its lanes |
| Emissions.WeightAdjustedOnce | sumo_project/emissions.py:96-97 | `weight_adjusted` is never cleared, so efforts and reroutes are written at most once per area and run |
| Emissions.BelowThresholdReverses | sumo_project/emissions.py:101-102 | below the threshold the outcome is `reverse_actions` |
| Emissions.NormalisedWeightRoutingAlone | sumo_project/emissions.py:81-97 | under normalised settings with weight routing, no other action fires |
| Emissions.ReferenceRunActsNever | sumo_project/emissions.py:81-97 | in the reference simulation the above-threshold branch changes nothing |
| Emissions.AreaStepWindow | sumo_project/emissions.py:78-81 | with one call per step, the window holds the trailing totals and its sum is that of the last min(k, step + 1) totals |
| Emissions.GridPrefixHistories | sumo_project/emissions.py:71-78 | after n turns without error each of the first n areas gained exactly its own total and the others nothing; lanes, names and rectangles stay |
| Emissions.GridStepHistories | sumo_project/emissions.py:71-78 | after a whole call without error every area holds exactly one more entry, its total |
| Emissions.GridPrefixTracks | sumo_project/emissions.py:71-81 | when every window tracks its history no area raises, and each area that took its turn tracks at the next step |
| Emissions.ErrorStops | sumo_project/emissions.py:71-81 | once a turn has raised no later area takes its turn |
| Emissions.ReductionPercentage | sumo_project/emissions.py:106-113 | fails exactly when ref is 0; otherwise the result times ref is 100 (ref - total) |
| Emissions.ReductionSign | sumo_project/emissions.py:106-113 | the reduction is 0 iff total equals ref, and positive iff total is below it |
| Emissions.ReductionExample | sumo_project/emissions.py:106-113 | for ref 100000 and total 80000 it is 20 |
| Emissions.Snapshot | sumo_project/emissions.py:46-57 | one vehicle per id, in the engine's order, with its position and emissions |
| Emissions.GetAllVehicles | sumo_project/emissions.py:46-57 | the loop builds the snapshot of the step |
| Emissions.TotalInArea | sumo_project/emissions.py:72-75 | the accumulated total is the area total |
| Emissions.LimitStageOf | sumo_project/emissions.py:83-89 | the outcome of the speed and nested retiming stage |
| Emissions.LockStageOf | sumo_project/emissions.py:91-94 | the outcome of the locking stage |
| Emissions.WeightStageOf | sumo_project/emissions.py:96-97 | the outcome of the weight stage |
| Emissions.DecideFor | sumo_project/emissions.py:81-103 | the outcome of the threshold decision |
| Emissions.ProcessArea | sumo_project/emissions.py:72-103 | one area's turn reaches the state and error `AreaStep` describes |
| Emissions.GetEmissions | sumo_project/emissions.py:60-103 | the grid and simulation after the call are those of `GridStep`, about which the lemmas above hold |
| Emissions.AreaStep | sumo_project/emissions.py:72-103 | one area's turn on values: one history entry appended and the exact raising condition (`AreaStepHistory`); the window holds the trailing totals (`AreaStepWindow`) |
| Emissions.GridStep | sumo_project/emissions.py:60-103 | `get_emissions` on values: every area gains exactly one entry (`GridStepHistories`); an exception ends the loop over the grid (`ErrorStops`) |
| Emissions.Decide | sumo_project/emissions.py:81-103 | the threshold decision on values: the guards of each action (`LimitGuard`, `RetimeNested`, `LockGuard`, `WeightAdjustedOnce`), and `reverse_actions` below the threshold (`BelowThresholdReverses`) |
| Emissions.ProcessAt | sumo_project/emissions.py:71-103 | the turn of area i changes that area and the simulation only |
| Data.GridCells | sumo_project/data.py:54-61 | n squared cells, i outer and j inner: entry k is cell (k / n, k % n) with its name |
| Data.CellIndex | sumo_project/data.py:56-63 | cell (i, j) is entry i n + j |
| Data.RowSlice | sumo_project/data.py:56-63 | row i is the slice of the cells from i n to (i + 1) n |
| Data.CellBounds | sumo_project/data.py:54-60 | cell (i, j) is the rectangle from (i w, j h) to ((i+1) w, (j+1) h) |
| Data.CellsDisjoint | sumo_project/data.py:54-60 | two different cells share no interior point |
| Data.GridLineInNoCell | sumo_project/data.py:54-60 | a point on a grid line lies in no cell |
| Data.CellCoordinate | sumo_project/data.py:54-60 | a coordinate off the grid lines lies strictly within one cell column |
| Data.CellsCover | sumo_project/data.py:54-60 | every point of the map rectangle off the grid lines lies in some cell |
| Data.NameSplit | sumo_project/data.py:61 | two names of the form digits, comma, rest are equal only part by part |
| Data.AreaNameInjective | sumo_project/data.py:61 | distinct cells have distinct names `Area (i,j)` |
| Data.GridCellsDistinct | sumo_project/data.py:54-63 | two grid entries have different names and no common interior point, so a vehicle counts towards one area at most |
| Data.AllLanes | sumo_project/data.py:67-77 | one lane per lane id, in order, with its shape and current maximum speed as initial speed |
| Data.BaselineIsDefault | sumo_project/data.py:67-77 | captured before any action, each initial speed is the network's default |
| Data.CapturedLogics | sumo_project/data.py:111-116 | one logic per definition, in order, with its phases |
| Data.LaneTlsExactly | sumo_project/data.py:109-117 | the lights added for a lane are exactly those that control it, each with its programs captured |
| Data.AddLanesDataEffect | sumo_project/data.py:104-117 | an area holds a lane iff it held it or the lane meets its rectangle; each light added controls one such lane; nothing else changes |
| Data.AddLanesDataUniqueFrom | sumo_project/data.py:104-108 | lanes drawn from one list with unique ids keep an area's lane ids unique, and every lane it holds comes from that list |
| Data.AddedLanesUnique | sumo_project/data.py:67-77 | when the network lists each lane id once, an area built empty and filled from `get_all_lanes` holds each lane id at most once |
| Data.AddLanesDataAddsTls | sumo_project/data.py:107-117 | a light controlling a meeting lane is added to the area |
| Data.AddLanesDataKeepsRect | sumo_project/data.py:104-108 | the rectangle tested against every lane is the same one |
| Data.SharedLightHeldTwice | sumo_project/data.py:117 | a light controlling two lanes of an area is held twice |
| Data.Data.constructor | sumo_project/data.py:34-39 | the map bounds and number of areas given, no grid yet |
| Data.Data.FillRow | sumo_project/data.py:57-63 | the n cells of row i, j ascending, appended as fresh areas |
| Data.Data.InitGrid | sumo_project/data.py:41-65 | n squared fresh, distinct areas over the cells, i outer and j inner; ZeroDivisionError for n = 0; no area for negative n |
| Data.Data.FillGrid | sumo_project/data.py:56-63 | the two loops build the grid's n squared cells in order |
| Data.Data.AppendCell | sumo_project/data.py:59-63 | the area of cell (i, j) joins the grid at index i n + j |
| Data.Data.GetAllLanes | sumo_project/data.py:67-77 | the loop returns `AllLanes` |
| Data.Data.AddDataToAreas | sumo_project/data.py:98-117 | every area ends as `AddLanesData` of its state over all lanes |
| Data.AddTlsOfLane | sumo_project/data.py:109-117 | the lights controlling the lane are appended, in network order |
| Data.CapturedLogicsOf | sumo_project/data.py:111-116 | the loop returns the captured logics |
| Data.AddLanesTo | sumo_project/data.py:106-117 | one area's loops reach `AddLanesData` |
| Runner.Windowed | sumo_project/runner.py:114-115 | every area gets a fresh, empty window of capacity k, nothing else changes |
| Runner.RunPrefix | sumo_project/runner.py:123-129 | the loop runs at most n iterations, exactly n when nothing raised |
| Runner.RunStops | sumo_project/runner.py:105-133 | once the loop has raised, no later iteration happens |
| Runner.StepTotals | sumo_project/runner.py:123-129 | one total per step, that step's vehicles inside the area |
| Runner.GridTickAppends | sumo_project/runner.py:127-128 | each iteration appends that step's totals |
| Runner.RunPrefixHistories | sumo_project/runner.py:123-129 | after n iterations each history gained one entry per step, that step's total; lanes, names and rectangles stay |
| Runner.GridTickTracks | sumo_project/runner.py:127-128 | an iteration keeps tracking windows tracking |
| Runner.RunPrefixTracks | sumo_project/runner.py:114-129 | started on fresh windows the loop never fails on a window; each window holds the last min(k, steps) totals |
| Runner.FreshRunTracks | sumo_project/runner.py:114-129 | a run on a grid with no history never raises on a window |
| Runner.GridTotalValue | sumo_project/runner.py:136-138 | the value of the total is the sum of the values of all history entries of all areas |
| Runner.Names | sumo_project/runner.py:95 | the area names, in grid order |
| Runner.ValuesAt | sumo_project/runner.py:98 | each area's value at step t, in grid order |
| Runner.CsvOf | sumo_project/runner.py:80-99 | header `Step` and the names; one row per step with the step and each area's value; fails iff some history is shorter than `n_steps` |
| Runner.CompleteRunExports | sumo_project/runner.py:101-153 | after a complete run on a fresh grid, the export succeeds and row t holds every area's step-t total |
| Runner.CsvOfTotals | sumo_project/runner.py:95-99 | for histories made of the step totals, row t holds the step-t totals |
| Runner.SetWindows | sumo_project/runner.py:114-115 | the loop reaches `Windowed` |
| Runner.RunStep | sumo_project/runner.py:124-129 | one iteration extends the loop prefix by one step or raises |
| Runner.StepLoop | sumo_project/runner.py:123-129 | the loop reaches `RunPrefix` for `n_steps` |
| Runner.RunWith | sumo_project/runner.py:105-129 | windows, then loop: `RunLoop`; `BadWindowSize` only when a negative size reaches an area |
| Runner.RunLoop | sumo_project/runner.py:113-129 | `BadWindowSize` iff the size is negative and the grid has an area, then with nothing changed and no step; otherwise at most `n_steps` steps |
| Runner.EmptyGridPrefix | sumo_project/runner.py:123-129 | on an empty grid every iteration leaves the simulation as it is; the loop stops only when the engine has no further step |
| Runner.EmptyGridRuns | sumo_project/runner.py:113-129 | an empty grid runs with any window size: min(`n_steps`, available) steps, no exception unless the engine stops |
| Runner.Report | sumo_project/runner.py:133-153 | the total over all areas of `sum_all_emissions`, whatever the loop did; after a failed window size the unbound `start` replaces the error and nothing is exported; otherwise the error is kept and the CSV exported exactly when asked for |
| Runner.GridTotalOf | sumo_project/runner.py:136-138 | the loop's total is the componentwise sum over areas of `sum_all_emissions` |
| Runner.ExportDataToCsv | sumo_project/runner.py:80-99 | the loops build `CsvOf` |
| Runner.RunProcess.constructor | sumo_project/runner.py:38-50 | the data, configuration and options given |
| Runner.RunProcess.Run | sumo_project/runner.py:101-153 | the run reaches `RunLoop`; the total is computed whatever happened, even after a missing setting; a negative window size on a non-empty grid ends in the unbound-`start` error without export; otherwise the table is exported when asked |
| Runner.CheckUserEntry | sumo_project/runner.py:216-230 | false iff `new_dump` lacks `areas` or `simulation_dir`, or `run` lacks both `c` and `c_dir` |
| Runner.CheckUserEntryExamples | sumo_project/runner.py:216-230 | three concrete command lines and their verdicts |
| Runner.DirFiles | sumo_project/runner.py:263-265 | exactly the joined listing entries that are regular files |
| Runner.ConfigFiles | sumo_project/runner.py:257-265 | the `-c` files first, in the given order, then those of `-c_dir` |
| Runner.BuildFileList | sumo_project/runner.py:255-265 | the loops build `ConfigFiles` |
| Runner.AppendAll | sumo_project/runner.py:258-259 | `files.append` for each item adds the items in order |
| Runner.RegularFiles | sumo_project/runner.py:263 | the comprehension keeps the regular files in listing order |
| Runner.JoinEach | sumo_project/runner.py:264-265 | each name joined to the directory, in order |
| Runner.JoinAllSnoc | sumo_project/runner.py:264-265 | joining one more name appends its path |
| Runner.LaunchAll | sumo_project/runner.py:267-273 | one start per file in order, then one join per file in order |
| Runner.StartsBeforeJoins | sumo_project/runner.py:267-273 | no process is joined before every process has started |
| Runner.MainLaunches | sumo_project/runner.py:242-273 | one process per configuration file with a consistent command line and an existing dump; none otherwise |
| Runner.LastSumoCfg | sumo_project/runner.py:167-169 | a `.sumocfg` entry of the listing, absent iff none is |
| Runner.LastSumoCfgIsLast | sumo_project/runner.py:167-169 | no entry after the one found is a `.sumocfg` file |
| Runner.LastSumoCfgIndex | sumo_project/runner.py:167-169 | the found file sits at an index at or after any `.sumocfg` entry, with no `.sumocfg` entry after it |
| Runner.FindSumoCfg | sumo_project/runner.py:167-169 | the loop keeps the last match, joined to the directory |
| Runner.CreateDump | sumo_project/runner.py:155-189 | nothing is built when the dump exists; otherwise a new Data with the grid and the lanes of every area; failure without a `.sumocfg` |
| Dicts.Keys | sumo_project/configurator.py:231-232 | the keys in iteration order |
| Dicts.Lookup | sumo_project/configurator.py:109 | absent iff the key is not a key; a found value is stored under the key |
| Dicts.PutLookup | sumo_project/configurator.py:109 | after `d[k] = v`, k holds v and every other key what it held |
| Dicts.PutKeys | sumo_project/configurator.py:109 | a present key keeps its place, a new one goes last |
| Dicts.PutDistinct | sumo_project/configurator.py:109 | assignment keeps keys distinct |
| Dicts.UpdateLookup | sumo_project/configurator.py:81 | after `update`, a key holds its last new value or its old one |
| Dicts.UpdateKeys | sumo_project/configurator.py:81 | the old keys stay first and in order; the keys are those of both |
| Dicts.UpdateDistinct | sumo_project/configurator.py:81 | `update` keeps keys distinct |
| Xml.Without | sumo_project/configurator.py:143 | exactly the values outside the removed subtree |
| Xml.WithoutApply | sumo_project/configurator.py:139-144 | writes outside a subtree commute with removing it |
| Xml.Tree.constructor | sumo_project/configurator.py:135-136 | the parsed template's elements and values |
| Xml.Tree.Get | tests/configurator_tests.py:20-22 | a value exactly for the paths that carry one |
| Xml.Tree.Set | sumo_project/configurator.py:116 | succeeds iff the element exists, then sets only its value; otherwise AttributeError and no change |
| Xml.Tree.Remove | sumo_project/configurator.py:143 | succeeds iff the element exists, then removes it and its subtree; otherwise no change |
| Xml.Tree.SetAll | sumo_project/configurator.py:116-118 | succeeds iff every path exists, then the values are the writes applied in order |
| Scenario.DictToList | sumo_project/configurator.py:231-232 | length 2 len(d): entry 2i is key i and entry 2i+1 its value, in key order |
| Scenario.DictToListRoundTrip | sumo_project/configurator.py:231-232 | reading the list two by two gives the dictionary back |
| Scenario.SplitKv | sumo_project/configurator.py:108 | a split item is key, '=', value with no other '=' |
| Scenario.SplitJoin | sumo_project/configurator.py:108 | a key and value without '=' joined by '=' split back into them |
| Scenario.SplitRefuses | sumo_project/configurator.py:108 | an item with no '=' or two of them fails to unpack |
| Scenario.Pairs | sumo_project/configurator.py:107-109 | one pair per item, in order |
| Scenario.StorePairsSuccess | sumo_project/configurator.py:104-110 | succeeds iff every item has exactly one '='; the dictionary is then the pairs assigned in order |
| Scenario.StorePairsFailure | sumo_project/configurator.py:107-108 | a failure names the first item that does not split |
| Scenario.LaterDuplicatesWin | sumo_project/configurator.py:109 | a key holds the value of the last item naming it |
| Scenario.StorePairsFailureSticks | sumo_project/configurator.py:107-108 | a failure on a prefix is the failure of the whole list |
| Scenario.StoreDictKeyPair | sumo_project/configurator.py:104-110 | the loop's result is `StorePairs` |
| Scenario.StorePairs | sumo_project/configurator.py:104-110 | the `StoreDictKeyPair` action on values: success iff every item splits, in-order assignment (`StorePairsSuccess`), the first failing item otherwise (`StorePairsFailure`), later duplicates win (`LaterDuplicatesWin`) |
| Scenario.VehicleClassOptions | sumo_project/configurator.py:44-64 | options exist exactly for passenger, bus and truck |
| Scenario.VehicleClassNamesItself | sumo_project/configurator.py:44-64 | each known class names itself as vehicle class and as vclass |
| Scenario.VehicleClassLastWrite | sumo_project/configurator.py:81 | the class's own `--vclass` is the last one its options write |
| Scenario.ClassOptionsKeepOwn | sumo_project/configurator.py:44-81 | no class sets the network, route file, period or end time |
| Scenario.AllowedLengthIgnores | sumo_project/configurator.py:94-96 | edges that do not allow the class add no length |
| Scenario.LaneLength | sumo_project/configurator.py:93-96 | the loop sums lane count times length over the edges that allow the class |
| Scenario.Period | sumo_project/configurator.py:99 | defined exactly when length and density are nonzero (ZeroDivisionError otherwise) |
| Scenario.PeriodMeaning | sumo_project/configurator.py:99 | the period times the departures per hour over the lanes is 3600 s |
| Scenario.RouteFiles | sumo_project/configurator.py:191-193 | one `name.vclass.rou.xml` per class, in class order |
| Scenario.RouteFileNameInjective | sumo_project/configurator.py:191 | distinct classes give distinct route files |
| Scenario.CollectSuccess | sumo_project/configurator.py:189-199 | the loop succeeds iff every class's call does |
| Scenario.CollectResult | sumo_project/configurator.py:189-200 | on success one route file and one call per class, in order |
| Scenario.CollectFailureSticks | sumo_project/configurator.py:189-199 | a failing class stops the loop with that failure |
| Scenario.DistinctWritesLookup | sumo_project/configurator.py:116-118 | after writes to distinct paths each path holds its own value |
| Scenario.LoadNetconvertTemplate | sumo_project/configurator.py:113-119 | succeeds iff the three elements exist; then osm-files, output-file and log are written |
| Scenario.NetconvertFields | sumo_project/configurator.py:113-119 | osm-files is the input, output-file `name.net.xml`, log `name.netconvert.log`; nothing else changes |
| Scenario.LoadPolyconvertTemplate | sumo_project/configurator.py:122-130 | succeeds iff the five elements exist; then the five settings are written |
| Scenario.PolyconvertFields | sumo_project/configurator.py:122-130 | osm, `name.net.xml`, type file, `name.poly.xml`, `name.polyconvert.log`; nothing else changes |
| Scenario.NetconvertTemplateExample | tests/configurator_tests.py:18-22 | the values the netconvert test expects |
| Scenario.PolyconvertTemplateExample | tests/configurator_tests.py:44-54 | the values the polyconvert test expects |
| Scenario.LogFilesSelects | sumo_project/configurator.py:225-228 | a file is moved iff it is listed and its extension is exactly `.log` |
| Scenario.MoveLogs | sumo_project/configurator.py:225-228 | one move per log file, in listing order, into the log directory |
| Configurator.RouteList | sumo_project/configurator.py:134 | the given route files when there are any, otherwise a single `.rou.xml` file; never empty |
| Configurator.LoadSumoconfigTemplate | sumo_project/configurator.py:133-147 | succeeds iff all five elements exist; with polygons the settings are written; without them additional-files leaves the tree first |
| Configurator.SumoFields | sumo_project/configurator.py:137-146 | net-file, joined route-files, log and seed as written; additional-files is the polygons file, or absent without polygons |
| Configurator.NoPolygonsNoAdditional | sumo_project/configurator.py:142-143 | without polygons no additional-files value is left |
| Configurator.SumoTemplateDefault | tests/configurator_tests.py:24-28 | the default route file is `name.rou.xml`, with net-file and log from the name |
| Configurator.SumoTemplateTwoRoutefiles | tests/configurator_tests.py:37-42 | two route files are joined with a comma, in order |
| Configurator.SumoTemplateWithPolygons | tests/configurator_tests.py:30-35 | with polygons additional-files is `name.poly.xml` |
| Configurator.GenerateSumoConfiguration | sumo_project/configurator.py:203-205 | the file is `name.sumocfg` in the directory, and the seed is always the clock's |
| Configurator.TripsGenerator.constructor | sumo_project/configurator.py:68-78 | the default options updated by the given ones, then the given flags |
| Configurator.TripsGenerator.InitTrips | sumo_project/configurator.py:87-101 | succeeds iff the period is defined; then `-p` is set to it and nothing else changes |
| Configurator.MakeGenerator | sumo_project/configurator.py:68-81 | fails first on a zero period, then on an unknown class; otherwise defaults, period and class options, in that order |
| Configurator.MobilityResult | sumo_project/configurator.py:183-200 | succeeds iff every class yields a call; then the route files are `name.vclass.rou.xml` in class order, one call each |
| Configurator.CallKeepsBase | sumo_project/configurator.py:184-198 | each call keeps the net file and its route path |
| Configurator.CallPeriodEnd | sumo_project/configurator.py:188-198 | each call has the class's period and end 200 |
| Configurator.CallClass | sumo_project/configurator.py:195 | each call names its class as `--vclass` |
| Configurator.MobilityCall | sumo_project/configurator.py:191-199 | one pass builds the generator, appends `-l` and `--validate`, sets `--end` |
| Configurator.GenerateMobility | sumo_project/configurator.py:183-200 | the loop's result is `Mobility` |
| Configurator.Mobility | sumo_project/configurator.py:183-200 | `generate_mobility` on values: success iff every class yields a call, route files in class order (`MobilityResult`); the default generates passenger trips (`DefaultGeneratesPassengers`) |
| Configurator.DefaultClasses | sumo_project/configurator.py:253 | a non-empty `--vclass` dictionary is kept; otherwise a single `passenger` entry |
| Configurator.DefaultGeneratesPassengers | sumo_project/configurator.py:251-253 | the default generates `name.passenger.rou.xml` when the network allows passengers |
| LegacyConfigurator.LoadSumoconfigTemplate | configurator/configurator.py:110-119 | succeeds iff the elements it looks up exist; then the settings are written and nothing is removed |
| LegacyConfigurator.SumoFields | configurator/configurator.py:114-118 | net-file, joined route-files, log; additional-files the polygons file, or as the template had it |
| LegacyConfigurator.GenerateSumoConfiguration | configurator/configurator.py:169-171 | the template filled as without polygons, whatever was asked, written as `name.sumocfg` |
| LegacyConfigurator.PolygonsIgnored | configurator/configurator.py:169-171 | asking for polygons leaves additional-files as the template had it |
| LegacyConfigurator.TripsGenerator.constructor | configurator/configurator.py:43-52 | the defaults, then the given options, then the flags |
| LegacyConfigurator.TripsGenerator.AddOption | configurator/configurator.py:57-58 | sets only that option, to that value |
| LegacyConfigurator.TripsGenerator.InitTrips | configurator/configurator.py:64-78 | `-p` and the period are appended to the flags; nothing else changes |
| LegacyConfigurator.AddOptionLookup | configurator/configurator.py:57-58 | the option reads back as set, the others keep theirs |
| LegacyConfigurator.MakeGenerator | configurator/configurator.py:43-55 | fails first on a zero period, then on an unknown class; options are defaults, given options, class options; flags end with `-p`, period |
| LegacyConfigurator.MobilityResult | configurator/configurator.py:153-166 | succeeds iff classes are given and all yield a call; one `name.vclass.rou.xml` per class, in order |
| LegacyConfigurator.CallFlags | configurator/configurator.py:164 | each call ends with `-l`, `-p` and the period for density 10 |
| LegacyConfigurator.CallOptionsContent | configurator/configurator.py:164 | defaults and `--end` survive the class options, which add the class's name |
| LegacyConfigurator.MobilityCall | configurator/configurator.py:161-165 | one pass of the loop builds the call |
| LegacyConfigurator.MobilityLoop | configurator/configurator.py:159-166 | the loop's result is `Collect` over the classes |
| LegacyConfigurator.GenerateMobility | configurator/configurator.py:153-166 | given the `--vclass` dictionary or nothing: `Mobility` |
| LegacyConfigurator.Mobility | configurator/configurator.py:153-166 | the older `generate_mobility` on values: success iff classes are given and every one yields a call (`MobilityResult`) |
| LegacyConfigurator.DefaultedClasses | configurator/configurator.py:208 | the given classes, or `passenger` when none |
| LegacyConfigurator.MainMobility | configurator/configurator.py:207-208 | generation with the default applied |
| LegacyConfigurator.MainDropsDefault | configurator/configurator.py:208-214 | without `--vclass`, generation as written fails while the default would generate `name.passenger.rou.xml` |
| LegacyArea.NewArea | sumo_project/area.py:7-10 | the rectangle of the corners, the name, emissions 0.0 |
| LegacyArea.Unnamed | sumo_project/area.py:7 | the name defaults to `''` |
| LegacyArea.AreaBounds | sumo_project/area.py:18-20 | ordered `(xmin, ymin, xmax, ymax)`; the lower corner is not contained |
| LegacyArea.AreaFromBounds | sumo_project/area.py:22-28 | an unnamed, axis-aligned area from `(xmin,ymin)` to the opposite corner `(xmax,ymax)`; for ordered bounds its bounds are those given |
| LegacyArea.FromBoundsContains | sumo_project/area.py:15-16 | such an area contains exactly the pairs strictly inside the bounds |
| LegacyArea.FromOwnBounds | sumo_project/area.py:15-28 | rebuilding an area from its bounds keeps the bounds and what it contains |

In the older configurator, five pieces are the same code as in `sumo_project/configurator.py`, so the
`Scenario` members above model them too:

- `dict_to_list` (`configurator/configurator.py:192-193`): `Scenario.DictToListRoundTrip`.
- `StoreDictKeyPair` (`configurator/configurator.py:81-87`): `Scenario.StorePairsSuccess`.
- the netconvert template (`configurator/configurator.py:90-96`): `Scenario.NetconvertFields`.
- the polyconvert template (`configurator/configurator.py:99-107`): `Scenario.PolyconvertFields`.
- `move_logs` (`configurator/configurator.py:186-189`): `Scenario.LogFilesSelects`.

## Left out

- The TraCI session itself is left out:
  - the engine's dynamics;
  - `traci.start` arguments and `close`;
  - unknown ids, on which TraCI raises: the readings are total functions.
- UI polygon calls (`traci.polygon.add`, `setFilled`) have no decision value.
- `multiprocessing`: processes are modelled as the order of start and join events, not as concurrent runs.
- Logging, `print`, timing and the real-time factor are left out (`runner.py:145-149` may divide by zero).
- File and process I/O is left out:
  - JSON and jsonpickle dumps (`data.save`, `runner.py:250-252`);
  - CSV file writing (only the table is modelled);
  - directory creation, `shutil`, `subprocess`, netconvert and polyconvert;
  - `randomTrips.main`, `sumolib` network reading (the edges are an input);
  - `ElementTree.write`;
  - `input()` and `rmtree` in `handle_args`/`main`.
- `Data.parse_phase` depends on the `parse` format language: `Phase` records are taken as given.
- Floating point is modelled as `real`:
  - emissions, speeds, factors, periods and percentages have no IEEE rounding;
  - the CSV's 3-decimal formatting is not modelled.
- General shapely geometry is left out. Areas are four-corner rectangles with strict containment, and lane and rectangle intersection is a parameter.
- `Configurator.GenerateSumoConfiguration`: the seed `str(time.time())` is a clock value passed in.
- `Configurator.MobilityCall`: `float(density)` is a parameter function on the density text.
- `Configurator.TripsGenerator.Args` and `LegacyConfigurator.TripsGenerator.Args` give the argument list `generate` passes (`dict_to_list(options) + flags`); running randomTrips is not modelled.
- Other entry points are left out: `generate_scenario`, `generate_polygons_`, `generate_all` and `parse_command_line`/`main` argument parsing. They chain the modelled operations through I/O.
- `sumo_project/area.py` `__eq__` compares a Polygon with an Area; it is not modelled.
- Duplicate XML element paths are not modelled: `find` returns the first match, and the template is a map from path to value.
- `Config.__repr__`, `init_traci` and `init_logger` are formatting and environment setup.
- `sumo_project/EmissionGetter.py`, `sumo_project/SUMOFactory.py`, `sumo-configurator/configurator.py` and `sumo_project/main.py` are not part of this model: a TraCI script, thin wrappers, hard-coded subprocess calls, and an older entry point.
- `Configuration.SettingsOf` is stricter than the source. It refuses a run unless all ten attributes are present, `n_steps` and `window_size` are ints, and the three thresholds and factors are numbers. The source reads each attribute only where it is used, so it completes runs the model refuses:
  - a factor, threshold or mode flag that is missing or ill-typed but never read (say `speed_rf` with `limit_speed_mode` off);
  - `window_size` null, which makes an unbounded `deque`;
  - a float `n_steps`, which the `while step < n_steps` loop accepts; only the export's `range(n_steps)` would raise.
- `Runner.RunProcess.Run`: with such settings the model reports `MissingSetting` with no steps and no export. The source would run, or fail at the first use of the attribute, and still export when `n_steps` is present and `start` is bound.
- `Model.InsertLane`, `Model.Without`, `Model.Area.AddLane` and `Model.Area.RemoveLane` compare lanes by value. Python's `Lane` defines `__hash__` but no `__eq__` (`model.py:38-40`), so its `set` compares lanes by identity. `_lanes` and `_tls` are sets (`model.py:170-171`), and the model fixes their iteration order as insertion order. Neither difference shows with the lanes the source builds: one `get_all_lanes` list with unique ids (`Data.AddedLanesUnique`), whose writes commute.
- `Configuration.Config.ImportConfigFile` assumes that no JSON key is named `ref200` or `check_config`. `__setattr__` (`config.py:44-45`) would let such a key shadow the class attribute or method, which `RefEmissions` and `CheckConfigIn` do not model.
- `Model.Area.SumEmissionsIntoWindow`: a negative window size (`deque(maxlen=-1)` raises ValueError) is caught in `Runner` as `BadWindowSize`, not in the area.

## Inconsistencies in the source

These are recorded, not fixed. The model follows the coherent design described above.
- `runner.py:128` calls `get_emissions(self, vehicles, step)`, but `emissions.py:60` takes `(grid, vehicles, current_step, config, logger)`.
- `runner.py:178` calls `Data(dump_name, bounds, n, dir)`, but `data.py:34` takes `(map_bounds, config)`.
- `runner.py:121` binds `start` only after the windows are set, yet the `finally` block reads it at line 145. A negative `window_size` on a grid with at least one area therefore ends in UnboundLocalError, which replaces the ValueError, and the export at lines 151-152 is never reached (`Runner.Report`, `StartUnbound`).
- `runner.py:59`, `84`, `91` and `107` read `self.data.dir` and `self.data.dump_name`. `Data.__init__` (`data.py:34-39`) never sets them, so as written `run` raises AttributeError in `init_logger`. The model takes the run from where those attributes exist.
- `data.py:62` passes `window_size` to `Area`, whose constructor (`model.py:156`) takes `(coords, name)`. The runner sets the window with `set_window_size` (`runner.py:114-115`).
- `runner.py:268` calls `Config(conf, data)`, but `config.py:30` takes no argument.
- `runner.py:181` calls `data.save()` without the `dump_name` that `data.py:119` requires.
- `model.py:255` `from_bounds` calls `cls(...)` without the `name` that `model.py:156` requires. `Geometry.FromBounds` models the rectangle it builds.
- Lanes are shared between areas (`data.py:104-108`). Reversing one area restores speeds of lanes that another, still-limited area also holds (`Actions.SharedLaneCaveat`).
- `lock_area` disallows `passenger`, but reversal allows every class, whatever the lane allowed before (`Actions.LockIsNotUndone`).
- `sum_emissions_into_window` reads `emissions_by_step[current_step]`. It works only while the history has one entry per step from step 0 (`Runner.FreshRunTracks`).
- In `sumo_project/configurator.py` the `--seed` option is parsed (line 247) but never reaches `load_sumoconfig_template` (lines 203-205). The seed is therefore always the clock (`Configurator.GenerateSumoConfiguration`).
- `configurator/configurator.py:201` declares `--generate-polygons` without `store_true`, so the option takes a value; `generate_sumo_configuration` ignores it anyway (`LegacyConfigurator.PolygonsIgnored`).
- The older `generate_mobility` ignores the densities of `--vclass` and always uses 10.0 (`LegacyConfigurator.CallFlags`).

## Findings

| source | as written | input that shows it | evidently intended | confidence | as-written member | corrected member |
|---|---|---|---|---|---|---|
| configurator/configurator.py:208 | `vclasses = options.vclasses or ('passenger',)` is computed and never used; `generate_all` passes `options.vclasses` to `generate_mobility` | no `--vclass` option: `generate_mobility` iterates over `None` and raises TypeError | default to generating passenger trips, as the comment at line 207 says | not executed | LegacyConfigurator.MainDropsDefault | LegacyConfigurator.MainMobility |

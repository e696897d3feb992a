/**
 * The simulation data: the grid of areas laid over the network's boundary, and the association
 * of lanes (with the speed each had before any action) and traffic lights with the areas.
 */
module Data {
  import opened Wrappers
  import opened Texts
  import opened Geometry
  import opened Model
  import opened Gateway

  // ----- the grid -----

  /** Cell (i,j) of cells of width w and height h, its corners listed as `init_grid` lists them. */
  function CellRect(i: nat, j: nat, w: real, h: real): Quad {
    FromBounds(i as real * w, j as real * h, (i + 1) as real * w, (j + 1) as real * h)
  }

  /** `'Area ({},{})'.format(i, j)` */
  function AreaName(i: nat, j: nat): string {
    "Area (" + (NatToString(i) + "," + NatToString(j)) + ")"
  }

  /** The cells of an n by n grid, i outer and j inner: entry k is cell (k / n, k % n). */
  function GridCells(n: nat, w: real, h: real): (cells: seq<(Quad, string)>)
    ensures |cells| == n * n
    ensures forall k :: 0 <= k < n * n ==> cells[k] == (CellRect(k / n, k % n, w, h), AreaName(k / n, k % n))
  {
    seq(n * n, k requires 0 <= k < n * n => (CellRect(k / n, k % n, w, h), AreaName(k / n, k % n)))
  }

  lemma IndexSplit(i: nat, j: nat, n: nat)
    requires j < n
    ensures (i * n + j) / n == i && (i * n + j) % n == j
  {
    var k := i * n + j;
    var q, r := k / n, k % n;
    assert q * n + r == i * n + j && 0 <= r < n;
    if q < i {
      assert (q + 1) * n <= i * n by { MulLe(q + 1, i, n); }
    } else if q > i {
      assert (i + 1) * n <= q * n by { MulLe(i + 1, q, n); }
    }
  }

  lemma MulLe(a: nat, b: nat, n: nat)
    requires a <= b
    ensures a * n <= b * n
  {
  }

  /** Cell (i,j) is entry i*n + j of the grid. */
  lemma CellIndex(n: nat, w: real, h: real, i: nat, j: nat)
    requires i < n && j < n
    ensures i * n + j < n * n
    ensures GridCells(n, w, h)[i * n + j] == (CellRect(i, j, w, h), AreaName(i, j))
  {
    IndexSplit(i, j, n);
    assert i * n + j < n * n by { MulLe(i + 1, n, n); }
  }

  /** The cells of row i, j ascending. */
  function RowCells(i: nat, n: nat, w: real, h: real): seq<(Quad, string)> {
    seq(n, j requires 0 <= j < n => (CellRect(i, j, w, h), AreaName(i, j)))
  }

  /** Row i is the slice `[i*n, (i+1)*n)` of the grid's cells. */
  lemma RowSlice(n: nat, w: real, h: real, i: nat)
    requires i < n
    ensures (i + 1) * n <= n * n && GridCells(n, w, h)[i * n .. (i + 1) * n] == RowCells(i, n, w, h)
  {
    MulLe(i + 1, n, n);
    forall j | 0 <= j < n
      ensures GridCells(n, w, h)[i * n .. (i + 1) * n][j] == RowCells(i, n, w, h)[j]
    {
      CellIndex(n, w, h, i, j);
    }
  }

  /** With positive cell sides, cell (i,j) is the rectangle `[iw, (i+1)w] x [jh, (j+1)h]`. */
  lemma CellBounds(i: nat, j: nat, w: real, h: real)
    requires w > 0.0 && h > 0.0
    ensures AxisAligned(CellRect(i, j, w, h))
    ensures BoundsOf(CellRect(i, j, w, h)) == Bounds(i as real * w, j as real * h, (i + 1) as real * w, (j + 1) as real * h)
  {
    RealMulLe(i, i + 1, w);
    RealMulLe(j, j + 1, h);
  }

  lemma RealMulLe(a: nat, b: nat, w: real)
    requires a <= b && w > 0.0
    ensures a as real * w <= b as real * w
  {
    assert b as real * w == a as real * w + (b - a) as real * w;
  }

  /** A point is in cell (i,j) exactly when it lies strictly inside the cell's two intervals. */
  lemma CellContains(i: nat, j: nat, w: real, h: real, p: Point)
    requires w > 0.0 && h > 0.0
    ensures Contains(CellRect(i, j, w, h), p) <==>
              i as real * w < p.x < (i + 1) as real * w && j as real * h < p.y < (j + 1) as real * h
  {
    RealMulLe(i, i + 1, w);
    RealMulLe(j, j + 1, h);
    ContainsFromBounds(i as real * w, j as real * h, (i + 1) as real * w, (j + 1) as real * h, p);
  }

  /** The open intervals of two different cell indices are apart. */
  lemma IntervalsApart(i: nat, i2: nat, w: real, x: real)
    requires w > 0.0 && i != i2
    ensures !(i as real * w < x < (i + 1) as real * w && i2 as real * w < x < (i2 + 1) as real * w)
  {
    if i < i2 { RealMulLe(i + 1, i2, w); } else { RealMulLe(i2 + 1, i, w); }
  }

  /** The interiors of two different cells share no point. */
  lemma CellsDisjoint(i: nat, j: nat, i2: nat, j2: nat, w: real, h: real, p: Point)
    requires w > 0.0 && h > 0.0 && (i, j) != (i2, j2)
    ensures !(Contains(CellRect(i, j, w, h), p) && Contains(CellRect(i2, j2, w, h), p))
  {
    CellContains(i, j, w, h, p);
    CellContains(i2, j2, w, h, p);
    if i != i2 {
      IntervalsApart(i, i2, w, p.x);
    } else {
      IntervalsApart(j, j2, h, p.y);
    }
  }

  /** A multiple of the side is never strictly inside the interval of cell index i. */
  lemma OffInterval(i: nat, k: nat, w: real, x: real)
    requires w > 0.0 && x == k as real * w
    ensures !(i as real * w < x < (i + 1) as real * w)
  {
    if k <= i {
      RealMulLe(k, i, w);
      assert x <= i as real * w;
    } else {
      RealMulLe(i + 1, k, w);
      assert (i + 1) as real * w <= x;
    }
  }

  /** A point on a vertical or horizontal grid line lies in no cell. */
  lemma GridLineInNoCell(i: nat, j: nat, w: real, h: real, p: Point, k: nat)
    requires w > 0.0 && h > 0.0
    requires p.x == k as real * w || p.y == k as real * h
    ensures !Contains(CellRect(i, j, w, h), p)
  {
    CellContains(i, j, w, h, p);
    if p.x == k as real * w {
      OffInterval(i, k, w, p.x);
    } else {
      OffInterval(j, k, h, p.y);
    }
  }

  /** A coordinate strictly between two multiples of the side, in units of the side. */
  lemma Between(x: real, w: real, k: int)
    requires w > 0.0 && k as real < x / w < (k + 1) as real
    ensures k as real * w < x < (k + 1) as real * w
  {
    var q := x / w;
    assert x == q * w;
    assert (q - k as real) * w > 0.0;
    assert ((k + 1) as real - q) * w > 0.0;
  }

  lemma DivBound(x: real, w: real, n: nat)
    requires w > 0.0 && 0.0 < x < n as real * w
    ensures 0.0 < x / w < n as real
  {
    var q := x / w;
    assert x == q * w;
    assert (n as real - q) * w > 0.0;
  }

  /** The cell coordinate of a point off the grid lines. */
  lemma CellCoordinate(x: real, w: real, n: nat) returns (i: nat)
    requires w > 0.0 && 0.0 < x < n as real * w && (x / w).Floor as real != x / w
    ensures i < n && i as real * w < x < (i + 1) as real * w
  {
    DivBound(x, w, n);
    i := (x / w).Floor;
    Between(x, w, i);
  }

  /** Every point of `(0, nw) x (0, nh)` off the grid lines lies in one of the n by n cells. */
  lemma CellsCover(n: nat, w: real, h: real, p: Point)
    requires w > 0.0 && h > 0.0
    requires 0.0 < p.x < n as real * w && 0.0 < p.y < n as real * h
    requires (p.x / w).Floor as real != p.x / w && (p.y / h).Floor as real != p.y / h
    ensures exists i: nat, j: nat :: i < n && j < n && Contains(CellRect(i, j, w, h), p)
  {
    var i := CellCoordinate(p.x, w, n);
    var j := CellCoordinate(p.y, h, n);
    CellContains(i, j, w, h, p);
  }

  /** In `a + "," + b` with `a` made of digits, the first comma is the one after `a`. */
  lemma FirstComma(a: string, b: string)
    requires forall k :: 0 <= k < |a| ==> '0' <= a[k] <= '9'
    ensures (a + "," + b)[|a|] == ','
    ensures forall k :: 0 <= k < |a| ==> (a + "," + b)[k] != ','
  {
    var x := a + "," + b;
    forall k | 0 <= k < |a| ensures x[k] != ',' {
      assert x[k] == a[k];
    }
  }

  /** Two names of the form digits, comma, rest are equal only part by part. */
  lemma NameSplit(a: string, b: string, c: string, d: string)
    requires forall k :: 0 <= k < |a| ==> '0' <= a[k] <= '9'
    requires forall k :: 0 <= k < |c| ==> '0' <= c[k] <= '9'
    requires a + "," + b == c + "," + d
    ensures a == c && b == d
  {
    var x := a + "," + b;
    FirstComma(a, b);
    FirstComma(c, d);
    assert |a| == |c|;
    assert a == x[..|a|] && c == (c + "," + d)[..|c|];
    assert b == x[|a| + 1..] && d == (c + "," + d)[|c| + 1..];
  }

  /** Text wrapped between the same prefix and suffix determines the wrapped text. */
  lemma WrappedInjective(pre: string, post: string, x: string, y: string)
    requires pre + x + post == pre + y + post
    ensures x == y
  {
    var a, b := pre + x + post, pre + y + post;
    assert |x| == |y|;
    assert x == a[|pre|..|pre| + |x|];
    assert y == b[|pre|..|pre| + |y|];
  }

  /** Distinct cells have distinct names. */
  lemma AreaNameInjective(i: nat, j: nat, i2: nat, j2: nat)
    ensures AreaName(i, j) == AreaName(i2, j2) ==> i == i2 && j == j2
  {
    if AreaName(i, j) == AreaName(i2, j2) {
      var x, y := NatToString(i) + "," + NatToString(j), NatToString(i2) + "," + NatToString(j2);
      WrappedInjective("Area (", ")", x, y);
      NameSplit(NatToString(i), NatToString(j), NatToString(i2), NatToString(j2));
      NatToStringInjective(i, i2);
      NatToStringInjective(j, j2);
    }
  }

  /**
   * Any two entries of the grid are different cells with different names, so a vehicle's
   * position lies in at most one of them and counts towards one area's total at most.
   */
  lemma GridCellsDistinct(n: nat, w: real, h: real, k: nat, m: nat, p: Point)
    requires w > 0.0 && h > 0.0 && k < n * n && m < n * n && k != m
    ensures GridCells(n, w, h)[k].1 != GridCells(n, w, h)[m].1
    ensures !(Contains(GridCells(n, w, h)[k].0, p) && Contains(GridCells(n, w, h)[m].0, p))
  {
    assert (k / n, k % n) != (m / n, m % n) by {
      assert k == (k / n) * n + k % n && m == (m / n) * n + m % n;
    }
    AreaNameInjective(k / n, k % n, m / n, m % n);
    CellsDisjoint(k / n, k % n, m / n, m % n, w, h, p);
  }

  /** Why `init_grid` raises: a grid of 0 by 0 areas divides by zero. */
  datatype GridError = NoAreas

  // ----- lanes and traffic lights -----

  /** `get_all_lanes`: every lane of the network, with the maximum speed the simulation reports now. */
  function AllLanes(net: Network, sim: SimState): (lanes: seq<Lane>)
    ensures |lanes| == |net.laneIds|
    ensures forall k :: 0 <= k < |lanes| ==>
              lanes[k] == Lane(net.laneIds[k], net.laneShape(net.laneIds[k]), CurrentMaxSpeed(net, sim, net.laneIds[k]))
  {
    seq(|net.laneIds|, k requires 0 <= k < |net.laneIds| =>
      Lane(net.laneIds[k], net.laneShape(net.laneIds[k]), CurrentMaxSpeed(net, sim, net.laneIds[k])))
  }

  /** Captured before any action, the baseline of every lane is the network's default speed. */
  lemma BaselineIsDefault(net: Network, k: nat)
    requires k < |net.laneIds|
    ensures AllLanes(net, FreshSim())[k].initialMaxSpeed == net.defaultMaxSpeed(net.laneIds[k])
  {
  }

  /** The captured programs of a light: each simulator logic, with its phases, in order. */
  function CapturedLogics(defs: seq<SumoLogic>): (logics: seq<Logic>)
    ensures |logics| == |defs|
    ensures forall k :: 0 <= k < |defs| ==> logics[k] == Logic(defs[k], defs[k].phases)
  {
    if defs == [] then [] else CapturedLogics(defs[..|defs| - 1]) + [Logic(defs[|defs| - 1], defs[|defs| - 1].phases)]
  }

  /** One new TrafficLight per light of `tls` (in order) that controls the lane. */
  function LaneTls(net: Network, laneId: LaneId, tls: seq<TlId>): seq<TrafficLight> {
    if tls == [] then []
    else
      var t := tls[|tls| - 1];
      LaneTls(net, laneId, tls[..|tls| - 1]) +
        (if laneId in net.controlledLanes(t) then [TrafficLight(t, CapturedLogics(net.definitions(t)))] else [])
  }

  /**
   * The lights added for a lane are exactly those of the list that control it, each with its
   * programs captured in order.
   */
  lemma {:induction false} LaneTlsExactly(net: Network, laneId: LaneId, tls: seq<TlId>)
    ensures forall t :: t in LaneTls(net, laneId, tls) ==>
              t.tlId in tls && laneId in net.controlledLanes(t.tlId) && t.logics == CapturedLogics(net.definitions(t.tlId))
    ensures forall id :: id in tls && laneId in net.controlledLanes(id) ==>
              TrafficLight(id, CapturedLogics(net.definitions(id))) in LaneTls(net, laneId, tls)
  {
    if tls != [] {
      LaneTlsExactly(net, laneId, tls[..|tls| - 1]);
      assert tls == tls[..|tls| - 1] + [tls[|tls| - 1]];
    }
  }

  /** One lane's pass over an area: added, with its lights, iff the area's rectangle meets it. */
  function AddLaneData(a: AreaState, net: Network, lane: Lane, intersects: (Quad, seq<Point>) -> bool): AreaState {
    if intersects(a.rect, lane.shape) then a.(lanes := InsertLane(a.lanes, lane), tls := a.tls + LaneTls(net, lane.laneId, net.tlIds))
    else a
  }

  /** The inner loops of `add_data_to_areas` for one area, lane after lane. */
  function AddLanesData(a: AreaState, net: Network, lanes: seq<Lane>, intersects: (Quad, seq<Point>) -> bool): AreaState {
    if lanes == [] then a else AddLaneData(AddLanesData(a, net, lanes[..|lanes| - 1], intersects), net, lanes[|lanes| - 1], intersects)
  }

  /**
   * An area ends up holding a lane iff it held it or the lane is listed and meets the area's
   * rectangle; every light added controls one of the lanes that met it; the other fields stay.
   */
  lemma {:induction false} AddLanesDataEffect(a: AreaState, net: Network, lanes: seq<Lane>, intersects: (Quad, seq<Point>) -> bool)
    ensures var r := AddLanesData(a, net, lanes, intersects);
            (forall l :: l in r.lanes <==> l in a.lanes || (l in lanes && intersects(a.rect, l.shape))) &&
            |a.tls| <= |r.tls| && r.tls[..|a.tls|] == a.tls &&
            (forall t :: t in r.tls[|a.tls|..] ==>
               t.tlId in net.tlIds && t.logics == CapturedLogics(net.definitions(t.tlId)) &&
               exists l :: l in lanes && intersects(a.rect, l.shape) && l.laneId in net.controlledLanes(t.tlId)) &&
            r == a.(lanes := r.lanes, tls := r.tls)
  {
    if lanes != [] {
      var init := lanes[..|lanes| - 1];
      var lane := lanes[|lanes| - 1];
      AddLanesDataEffect(a, net, init, intersects);
      var prev := AddLanesData(a, net, init, intersects);
      var r := AddLanesData(a, net, lanes, intersects);
      assert lanes == init + [lane];
      if intersects(a.rect, lane.shape) {
        LaneTlsExactly(net, lane.laneId, net.tlIds);
        var added := LaneTls(net, lane.laneId, net.tlIds);
        assert r.tls == prev.tls + added;
        assert r.tls[..|a.tls|] == prev.tls[..|a.tls|];
        assert r.tls[|a.tls|..] == prev.tls[|a.tls|..] + added;
        forall t | t in r.tls[|a.tls|..]
          ensures exists l :: l in lanes && intersects(a.rect, l.shape) && l.laneId in net.controlledLanes(t.tlId)
        {
          if t in added {
            assert lane in lanes;
          } else {
            assert t in prev.tls[|a.tls|..];
            var l :| l in init && intersects(a.rect, l.shape) && l.laneId in net.controlledLanes(t.tlId);
            assert l in lanes;
          }
        }
      }
    }
  }

  /** The network lists each lane id once. */
  predicate DistinctLaneIds(ids: seq<LaneId>) {
    forall i, j :: 0 <= i < j < |ids| ==> ids[i] != ids[j]
  }

  /**
   * Lanes drawn from one list whose ids are unique keep the area's ids unique: a lane already
   * held is not added again, and any other lane of the list has an id of its own.
   */
  lemma {:induction false} AddLanesDataUniqueFrom(a: AreaState, net: Network, lanes: seq<Lane>, all: seq<Lane>,
                                                  intersects: (Quad, seq<Point>) -> bool)
    requires UniqueLaneIds(all) && UniqueLaneIds(a.lanes)
    requires forall l :: l in a.lanes ==> l in all
    requires forall l :: l in lanes ==> l in all
    ensures var r := AddLanesData(a, net, lanes, intersects);
            UniqueLaneIds(r.lanes) && forall l :: l in r.lanes ==> l in all
  {
    if lanes != [] {
      var init, lane := lanes[..|lanes| - 1], lanes[|lanes| - 1];
      assert lane in lanes && forall l :: l in init ==> l in lanes;
      AddLanesDataUniqueFrom(a, net, init, all, intersects);
      var prev := AddLanesData(a, net, init, intersects);
      if intersects(prev.rect, lane.shape) && lane !in prev.lanes {
        forall x | x in prev.lanes ensures x.laneId != lane.laneId {
          var i :| 0 <= i < |all| && all[i] == x;
          var j :| 0 <= j < |all| && all[j] == lane;
          assert i != j;
        }
        var r := prev.lanes + [lane];
        forall i, j | 0 <= i < j < |r| ensures r[i].laneId != r[j].laneId {
          if j == |r| - 1 {
            assert r[i] in prev.lanes;
          }
        }
      }
    }
  }

  /**
   * `get_all_lanes` gives one Lane per lane id of the network, so an area built empty by
   * `init_grid` and filled by `add_data_to_areas` holds each lane id at most once.
   */
  lemma AddedLanesUnique(a: AreaState, net: Network, sim: SimState, intersects: (Quad, seq<Point>) -> bool)
    requires DistinctLaneIds(net.laneIds) && a.lanes == []
    ensures UniqueLaneIds(AddLanesData(a, net, AllLanes(net, sim), intersects).lanes)
  {
    var all := AllLanes(net, sim);
    AddLanesDataUniqueFrom(a, net, all, all, intersects);
  }

  /** A light that controls a listed lane meeting the area's rectangle is added to the area. */
  lemma {:induction false} AddLanesDataAddsTls(a: AreaState, net: Network, lanes: seq<Lane>, intersects: (Quad, seq<Point>) -> bool,
                                          l: Lane, id: TlId)
    requires l in lanes && intersects(a.rect, l.shape)
    requires id in net.tlIds && l.laneId in net.controlledLanes(id)
    ensures TrafficLight(id, CapturedLogics(net.definitions(id))) in AddLanesData(a, net, lanes, intersects).tls
  {
    var init := lanes[..|lanes| - 1];
    var lane := lanes[|lanes| - 1];
    assert lanes == init + [lane];
    var prev := AddLanesData(a, net, init, intersects);
    AddLanesDataKeepsRect(a, net, init, intersects);
    if l == lane {
      LaneTlsExactly(net, lane.laneId, net.tlIds);
    } else {
      AddLanesDataAddsTls(a, net, init, intersects, l, id);
      AddLanesDataEffect(a, net, init, intersects);
    }
  }

  /** The rectangle never changes while lanes are added, so each lane is tested against the same one. */
  lemma {:induction false} AddLanesDataKeepsRect(a: AreaState, net: Network, lanes: seq<Lane>, intersects: (Quad, seq<Point>) -> bool)
    ensures AddLanesData(a, net, lanes, intersects).rect == a.rect
  {
    if lanes != [] {
      AddLanesDataKeepsRect(a, net, lanes[..|lanes| - 1], intersects);
    }
  }

  /**
   * TrafficLight has no equality of its own, so a light controlling two lanes of an area is held
   * twice: two lanes of one light give two entries.
   */
  lemma SharedLightHeldTwice(net: Network, l1: Lane, l2: Lane, id: TlId, intersects: (Quad, seq<Point>) -> bool, a: AreaState)
    requires net.tlIds == [id] && a.tls == [] && l1 != l2
    requires l1.laneId in net.controlledLanes(id) && l2.laneId in net.controlledLanes(id)
    requires intersects(a.rect, l1.shape) && intersects(a.rect, l2.shape)
    ensures var t := TrafficLight(id, CapturedLogics(net.definitions(id)));
            AddLanesData(a, net, [l1, l2], intersects).tls == [t, t]
  {
    var t := TrafficLight(id, CapturedLogics(net.definitions(id)));
    assert LaneTls(net, l1.laneId, net.tlIds) == [t] by { assert net.tlIds[..0] == []; }
    assert LaneTls(net, l2.laneId, net.tlIds) == [t] by { assert net.tlIds[..0] == []; }
    assert [l1, l2][..1] == [l1];
    assert [l1][..0] == [];
    assert AddLanesData(a, net, [], intersects) == a;
    var a1 := AddLanesData(a, net, [l1], intersects);
    assert a1 == AddLaneData(a, net, l1, intersects);
    assert a1.tls == [t] && a1.rect == a.rect;
    assert AddLanesData(a, net, [l1, l2], intersects) == AddLaneData(a1, net, l2, intersects);
  }

  // ----- the Data object -----

  /** The areas built so far are distinct, valid, new areas over the first cells. */
  ghost predicate GridSoFar(grid: seq<Area>, cells: seq<(Quad, string)>)
    reads grid
  {
    && |grid| <= |cells|
    && (forall k :: 0 <= k < |grid| ==> grid[k].State() == NewAreaState(cells[k].0, cells[k].1) && grid[k].Valid())
    && DistinctAreas(grid)
  }

  /** `Data(map_bounds, areas_number)`: the grid over the network and its association with lanes. */
  class Data {
    const mapBounds: Bounds
    const areasNumber: int
    var grid: seq<Area>

    constructor (mapBounds: Bounds, areasNumber: int)
      ensures this.mapBounds == mapBounds && this.areasNumber == areasNumber && grid == []
    {
      this.mapBounds := mapBounds;
      this.areasNumber := areasNumber;
      grid := [];
    }

    /** The cells' width and height: the boundary's upper corner divided by the areas number. */
    function CellSides(): (real, real)
      reads this
      requires areasNumber != 0
    {
      (mapBounds.xmax / areasNumber as real, mapBounds.ymax / areasNumber as real)
    }

    /** The inner loop of `init_grid`: the n cells of row i, j ascending, appended as fresh areas. */
    method FillRow(i: nat, n: nat, w: real, h: real, ghost cells: seq<(Quad, string)>)
      requires |grid| + n <= |cells| && cells[|grid|..|grid| + n] == RowCells(i, n, w, h)
      requires GridSoFar(grid, cells)
      modifies this`grid
      ensures |grid| == |old(grid)| + n && GridSoFar(grid, cells)
      ensures grid[..|old(grid)|] == old(grid)
      ensures forall k :: |old(grid)| <= k < |grid| ==> fresh(grid[k])
    {
      ghost var base := |grid|;
      var j := 0;
      while j < n
        invariant 0 <= j <= n && |grid| == base + j
        invariant GridSoFar(grid, cells)
        invariant grid[..base] == old(grid)
        invariant forall k :: base <= k < |grid| ==> fresh(grid[k])
      {
        assert cells[|grid|] == cells[base..base + n][j];
        var area := AppendCell(i, j, w, h, cells);
        j := j + 1;
      }
    }

    /**
     * `init_grid`: n x n fresh areas over the cells, i outer and j inner. A number of 0 divides by
     * zero after the grid was emptied; a negative number gives no area.
     */
    method InitGrid() returns (r: Result<seq<Area>, GridError>)
      modifies this`grid
      ensures r.Failure? <==> areasNumber == 0
      ensures r.Success? ==> r.value == grid
      ensures areasNumber <= 0 ==> grid == []
      ensures areasNumber > 0 ==>
                var cells := GridCells(areasNumber, CellSides().0, CellSides().1);
                |grid| == areasNumber * areasNumber &&
                forall k :: 0 <= k < |grid| ==> grid[k].State() == NewAreaState(cells[k].0, cells[k].1)
      ensures forall k :: 0 <= k < |grid| ==> fresh(grid[k]) && grid[k].Valid()
      ensures DistinctAreas(grid)
    {
      grid := [];
      if areasNumber == 0 {
        return Failure(NoAreas);
      }
      if areasNumber < 0 {
        return Success(grid);
      }
      var (w, h) := CellSides();
      FillGrid(areasNumber, w, h);
      return Success(grid);
    }

    /** The two loops of `init_grid`, rows outer, over an empty grid. */
    method FillGrid(n: nat, w: real, h: real)
      requires grid == []
      modifies this`grid
      ensures |grid| == n * n && GridSoFar(grid, GridCells(n, w, h))
      ensures forall k :: 0 <= k < |grid| ==> fresh(grid[k])
    {
      ghost var cells := GridCells(n, w, h);
      var i := 0;
      while i < n
        invariant 0 <= i <= n && |grid| == i * n
        invariant GridSoFar(grid, cells)
        invariant forall k :: 0 <= k < |grid| ==> fresh(grid[k])
      {
        RowSlice(n, w, h, i);
        assert (i + 1) * n == i * n + n;
        FillRow(i, n, w, h, cells);
        i := i + 1;
      }
    }

    /** One step of the inner loop: the area of cell (i,j) joins the grid at index i*n + j. */
    method AppendCell(i: nat, j: nat, w: real, h: real, ghost cells: seq<(Quad, string)>) returns (area: Area)
      requires |grid| < |cells| && cells[|grid|] == (CellRect(i, j, w, h), AreaName(i, j))
      requires GridSoFar(grid, cells)
      modifies this`grid
      ensures grid == old(grid) + [area] && fresh(area)
      ensures GridSoFar(grid, cells)
    {
      area := new Area(CellRect(i, j, w, h), AreaName(i, j));
      DistinctSnoc(grid, area);
      grid := grid + [area];
    }

    /** `get_all_lanes`: the loop over the lane ids, reading each lane's current maximum speed. */
    method GetAllLanes(gw: Gateway) returns (lanes: seq<Lane>)
      ensures lanes == AllLanes(gw.net, gw.Sim())
    {
      lanes := [];
      var ids := gw.net.laneIds;
      var i := 0;
      while i < |ids|
        invariant 0 <= i <= |ids| && |lanes| == i
        invariant forall k :: 0 <= k < i ==>
                    lanes[k] == Lane(ids[k], gw.net.laneShape(ids[k]), CurrentMaxSpeed(gw.net, gw.Sim(), ids[k]))
      {
        var speed := if ids[i] in gw.maxSpeed then gw.maxSpeed[ids[i]] else gw.net.defaultMaxSpeed(ids[i]);
        lanes := lanes + [Lane(ids[i], gw.net.laneShape(ids[i]), speed)];
        i := i + 1;
      }
    }

    /** `add_data_to_areas`: every area takes every lane it meets, with the lights that control it. */
    method AddDataToAreas(gw: Gateway, intersects: (Quad, seq<Point>) -> bool)
      requires DistinctAreas(grid)
      modifies grid
      ensures forall k :: 0 <= k < |grid| ==>
                grid[k].State() == AddLanesData(old(grid[k].State()), gw.net, AllLanes(gw.net, gw.Sim()), intersects)
    {
      var lanes := GetAllLanes(gw);
      var i := 0;
      while i < |grid|
        invariant 0 <= i <= |grid|
        invariant forall k :: 0 <= k < i ==>
                    grid[k].State() == AddLanesData(old(grid[k].State()), gw.net, lanes, intersects)
        invariant forall k :: i <= k < |grid| ==> grid[k].State() == old(grid[k].State())
      {
        DistinctAt(grid, i);
        AddLanesTo(grid[i], gw.net, lanes, intersects);
        i := i + 1;
      }
    }
  }

  /** The loop over the network's lights: each that controls the lane is added to the area. */
  method AddTlsOfLane(area: Area, net: Network, laneId: LaneId)
    modifies area`tls
    ensures area.tls == old(area.tls) + LaneTls(net, laneId, net.tlIds)
  {
    var ids := net.tlIds;
    var i := 0;
    while i < |ids|
      invariant 0 <= i <= |ids|
      invariant area.tls == old(area.tls) + LaneTls(net, laneId, ids[..i])
    {
      assert ids[..i + 1][..i] == ids[..i];
      if laneId in net.controlledLanes(ids[i]) {
        var logics := CapturedLogicsOf(net.definitions(ids[i]));
        area.AddTl(TrafficLight(ids[i], logics));
      }
      i := i + 1;
    }
    assert ids[..i] == ids;
  }

  /** The loop that captures a light's programs one after another. */
  method CapturedLogicsOf(defs: seq<SumoLogic>) returns (logics: seq<Logic>)
    ensures logics == CapturedLogics(defs)
  {
    logics := [];
    var i := 0;
    while i < |defs|
      invariant 0 <= i <= |defs|
      invariant logics == CapturedLogics(defs[..i])
    {
      assert defs[..i + 1][..i] == defs[..i];
      logics := logics + [Logic(defs[i], defs[i].phases)];
      i := i + 1;
    }
    assert defs[..i] == defs;
  }

  /** One area's inner loops of `add_data_to_areas`. */
  method AddLanesTo(area: Area, net: Network, lanes: seq<Lane>, intersects: (Quad, seq<Point>) -> bool)
    modifies area
    ensures area.State() == AddLanesData(old(area.State()), net, lanes, intersects)
  {
    ghost var a0 := area.State();
    var i := 0;
    while i < |lanes|
      invariant 0 <= i <= |lanes|
      invariant area.State() == AddLanesData(a0, net, lanes[..i], intersects)
    {
      assert lanes[..i + 1][..i] == lanes[..i];
      AddLanesDataKeepsRect(a0, net, lanes[..i], intersects);
      if intersects(area.rect, lanes[i].shape) {
        area.AddLane(lanes[i]);
        AddTlsOfLane(area, net, lanes[i].laneId);
      }
      i := i + 1;
    }
    assert lanes[..i] == lanes;
  }
}

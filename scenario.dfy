/**
 * What the two revisions of the scenario configurator share: the argument values handed to
 * randomTrips, `dict_to_list`, the `VCLASS=DENSITY` parser `StoreDictKeyPair`, the table of
 * vehicle classes, the netconvert and polyconvert templates, the route-file names and the
 * selection of log files `move_logs` moves.
 */
module Scenario {
  import opened Wrappers
  import opened Texts
  import opened Writes
  import opened Dicts
  import opened Xml

  /** A value on randomTrips' argument list: a string, an int or a float. */
  datatype Arg = Text(s: string) | Int(i: int) | Real(r: real)

  // ----- dict_to_list -----

  /** `dict_to_list(d)`: each key followed by its value, in key order. */
  function DictToList(d: Dict<Arg>): (r: seq<Arg>)
    ensures |r| == 2 * |d|
    ensures forall i :: 0 <= i < |d| ==> r[2 * i] == Text(d[i].0) && r[2 * i + 1] == d[i].1
  {
    if d == [] then [] else [Text(d[0].0), d[0].1] + DictToList(d[1..])
  }

  /** A list of even length whose even positions hold strings, as `dict_to_list` makes them. */
  predicate PairedList(l: seq<Arg>)
    decreases |l|
  {
    l == [] || (|l| >= 2 && l[0].Text? && PairedList(l[2..]))
  }

  /** Reading such a list two by two. */
  function ListToDict(l: seq<Arg>): (d: Dict<Arg>)
    requires PairedList(l)
    decreases |l|
  {
    if l == [] then [] else [(l[0].s, l[1])] + ListToDict(l[2..])
  }

  /** Reading the list of a dictionary two by two gives the dictionary back. */
  lemma {:induction false} DictToListRoundTrip(d: Dict<Arg>)
    ensures PairedList(DictToList(d)) && ListToDict(DictToList(d)) == d
  {
    if d != [] {
      var l := DictToList(d);
      assert l[2..] == DictToList(d[1..]);
      DictToListRoundTrip(d[1..]);
    }
  }

  // ----- StoreDictKeyPair -----

  /**
   * `k, v = kv.split("=")`: an item with exactly one '=' splits into what precedes and what
   * follows it; any other item fails to unpack.
   */
  function SplitKv(kv: string): (r: Option<(string, string)>)
    ensures r.Some? ==> kv == r.value.0 + "=" + r.value.1 && '=' !in r.value.0 && '=' !in r.value.1
  {
    var i := RFind(kv, '=');
    if i >= 0 && '=' !in kv[..i] then Some((kv[..i], kv[i + 1..])) else None
  }

  /** The converse: a key and a value without '=' joined by '=' split back into them. */
  lemma SplitJoin(k: string, v: string)
    requires '=' !in k && '=' !in v
    ensures SplitKv(k + "=" + v) == Some((k, v))
  {
    var kv := k + "=" + v;
    var i := RFind(kv, '=');
    assert kv[|k|] == '=';
    assert i == |k|;
    assert kv[..i] == k && kv[i + 1..] == v;
  }

  /** An item with two '=' or none is refused. */
  lemma SplitRefuses(k: string, v: string)
    requires '=' !in k
    ensures SplitKv(k).None?
    ensures SplitKv(k + "=" + v + "=").None?
  {
    var kv := k + "=" + v + "=";
    assert kv[|k|] == '=';
    assert kv[..RFind(kv, '=')][|k|] == '=';
  }

  /** The pairs `pairs[k] = v` assigns, one per item, if every item splits. */
  function Pairs(values: seq<string>): (p: seq<(string, string)>)
    requires forall i :: 0 <= i < |values| ==> SplitKv(values[i]).Some?
    ensures |p| == |values| && forall i :: 0 <= i < |values| ==> p[i] == SplitKv(values[i]).value
  {
    seq(|values|, i requires 0 <= i < |values| => SplitKv(values[i]).value)
  }

  /** The loop of `StoreDictKeyPair.__call__`: the dictionary, or the first item that does not split. */
  function StorePairs(values: seq<string>): Result<Dict<string>, string> {
    if values == [] then Success([])
    else
      var last := values[|values| - 1];
      match StorePairs(values[..|values| - 1])
      case Failure(e) => Failure(e)
      case Success(d) =>
        match SplitKv(last)
        case None => Failure(last)
        case Some(kv) => Success(Put(d, kv.0, kv.1))
  }

  /** The parse succeeds exactly when every item has one '='; the dictionary is then the pairs assigned in order. */
  lemma {:induction false} StorePairsSuccess(values: seq<string>)
    ensures StorePairs(values).Success? <==> forall i :: 0 <= i < |values| ==> SplitKv(values[i]).Some?
    ensures StorePairs(values).Success? ==> StorePairs(values).value == Update([], Pairs(values))
  {
    if values != [] {
      var init := values[..|values| - 1];
      StorePairsSuccess(init);
      assert forall j :: 0 <= j < |init| ==> init[j] == values[j];
      if StorePairs(values).Success? {
        assert Pairs(values)[..|values| - 1] == Pairs(init);
      }
    }
  }

  /** A failed parse names the first item that does not split. */
  lemma {:induction false} StorePairsFailure(values: seq<string>)
    requires StorePairs(values).Failure?
    ensures exists i :: 0 <= i < |values| && StorePairs(values).error == values[i] && SplitKv(values[i]).None? &&
                        forall j :: 0 <= j < i ==> SplitKv(values[j]).Some?
  {
    var init := values[..|values| - 1];
    assert forall j :: 0 <= j < |init| ==> init[j] == values[j];
    if StorePairs(init).Failure? {
      StorePairsFailure(init);
    } else {
      StorePairsSuccess(init);
      assert StorePairs(values).error == values[|init|];
    }
  }

  /** Later duplicates win: a key holds the value of the last item that names it. */
  lemma LaterDuplicatesWin(values: seq<string>, k: string)
    requires forall i :: 0 <= i < |values| ==> SplitKv(values[i]).Some?
    ensures StorePairs(values).Success? && Lookup(StorePairs(values).value, k) == LastWrite(Pairs(values), k)
  {
    StorePairsSuccess(values);
    UpdateLookup([], Pairs(values), k);
  }

  /** A failure on a prefix is the failure of the whole list. */
  lemma {:induction false} StorePairsFailureSticks(values: seq<string>, i: nat)
    requires i <= |values| && StorePairs(values[..i]).Failure?
    ensures StorePairs(values) == StorePairs(values[..i])
    decreases |values| - i
  {
    if i < |values| {
      assert values[..i + 1][..i] == values[..i];
      StorePairsFailureSticks(values, i + 1);
    } else {
      assert values[..i] == values;
    }
  }

  /** `StoreDictKeyPair.__call__`: the dictionary stored under the option's name. */
  method StoreDictKeyPair(values: seq<string>) returns (r: Result<Dict<string>, string>)
    ensures r == StorePairs(values)
  {
    var pairs: Dict<string> := [];
    var i := 0;
    while i < |values|
      invariant 0 <= i <= |values|
      invariant StorePairs(values[..i]) == Success(pairs)
    {
      assert values[..i + 1][..i] == values[..i];
      var kv := SplitKv(values[i]);
      if kv.None? {
        StorePairsFailureSticks(values, i + 1);
        return Failure(values[i]);
      }
      pairs := Put(pairs, kv.value.0, kv.value.1);
      i := i + 1;
    }
    assert values[..i] == values;
    r := Success(pairs);
  }

  // ----- vehicle classes -----

  /** `vehicle_classes[vclass]`: randomTrips' options for the three known classes. */
  function VehicleClassOptions(vclass: string): (r: Option<Dict<Arg>>)
    ensures r.Some? <==> vclass in {"passenger", "bus", "truck"}
  {
    match vclass
    case "passenger" =>
      Some([("--vehicle-class", Text("passenger")), ("--vclass", Text("passenger")), ("--prefix", Text("veh")),
            ("--min-distance", Int(300)), ("--trip-attributes", Text("departLane=\"best\""))])
    case "bus" =>
      Some([("--vehicle-class", Text("bus")), ("--vclass", Text("bus")), ("--prefix", Text("bus"))])
    case "truck" =>
      Some([("--vehicle-class", Text("truck")), ("--vclass", Text("truck")), ("--prefix", Text("truck")),
            ("--min-distance", Int(600)), ("--trip-attributes", Text("departLane=\"best\""))])
    case _ => None
  }

  /** Every known class names itself as vehicle class and as vclass. */
  lemma VehicleClassNamesItself(vclass: string)
    requires VehicleClassOptions(vclass).Some?
    ensures var opts := VehicleClassOptions(vclass).value;
            Lookup(opts, "--vehicle-class") == Some(Text(vclass)) && Lookup(opts, "--vclass") == Some(Text(vclass))
  {
  }

  /** The class's own `--vclass` is the last one its options set, so it overrides any earlier one. */
  lemma VehicleClassLastWrite(vclass: string)
    requires VehicleClassOptions(vclass).Some?
    ensures LastWrite(VehicleClassOptions(vclass).value, "--vclass") == Some(Text(vclass))
  {
    var opts := VehicleClassOptions(vclass).value;
    assert opts[1] == ("--vclass", Text(vclass));
    LastWriteConstant(opts, "--vclass", Text(vclass));
  }

  /** No class sets the network, the route file, the period or the end time the generator sets itself. */
  lemma ClassOptionsKeepOwn(vclass: string)
    requires VehicleClassOptions(vclass).Some?
    ensures var opts := VehicleClassOptions(vclass).value;
            LastWrite(opts, "--route-file").None? && LastWrite(opts, "-p").None? && LastWrite(opts, "--end").None? &&
            LastWrite(opts, "--net-file").None?
  {
    var opts := VehicleClassOptions(vclass).value;
    NotWritten(opts, "--net-file");
    NotWritten(opts, "--route-file");
    NotWritten(opts, "-p");
    NotWritten(opts, "--end");
  }

  lemma NotWritten<V>(w: seq<(string, V)>, k: string)
    requires forall i :: 0 <= i < |w| ==> w[i].0 != k
    ensures LastWrite(w, k).None?
  {
    ApplyLookup(map[], w, k);
  }

  // ----- the trip generator's inputs -----

  /** An edge of the network as sumolib reads it: the classes it allows, its lane count and length. */
  datatype Edge = Edge(allowed: set<string>, laneNumber: nat, length: real)

  /** The loop of `_init_trips`: lane count times length, summed over the edges that allow the class. */
  function AllowedLength(edges: seq<Edge>, vclass: string): real {
    if edges == [] then 0.0
    else
      var e := edges[|edges| - 1];
      AllowedLength(edges[..|edges| - 1], vclass) + (if vclass in e.allowed then e.laneNumber as real * e.length else 0.0)
  }

  /** Edges that do not allow the class add nothing. */
  lemma {:induction false} AllowedLengthIgnores(edges: seq<Edge>, vclass: string, e: Edge)
    requires vclass !in e.allowed
    ensures AllowedLength(edges + [e], vclass) == AllowedLength(edges, vclass)
  {
    assert (edges + [e])[..|edges|] == edges;
  }

  /** The loop of `_init_trips`, which both revisions share. */
  method LaneLength(edges: seq<Edge>, vclass: string) returns (length: real)
    ensures length == AllowedLength(edges, vclass)
  {
    length := 0.0;
    var i := 0;
    while i < |edges|
      invariant 0 <= i <= |edges|
      invariant length == AllowedLength(edges[..i], vclass)
    {
      assert edges[..i + 1][..i] == edges[..i];
      if vclass in edges[i].allowed {
        length := length + edges[i].laneNumber as real * edges[i].length;
      }
      i := i + 1;
    }
    assert edges[..i] == edges;
  }

  /**
   * `3600 / (length / 1000) / density`: the time between two departures, in seconds, for
   * `density` vehicles per hour and kilometre over `length` metres of lanes. A length or a
   * density of 0 divides by zero.
   */
  function Period(length: real, density: real): (r: Option<real>)
    ensures r.Some? <==> length != 0.0 && density != 0.0
  {
    if length == 0.0 || density == 0.0 then None else Some(3600.0 / (length / 1000.0) / density)
  }

  /** The period times the departures it stands for per hour is an hour. */
  lemma PeriodMeaning(length: real, density: real)
    requires Period(length, density).Some?
    ensures Period(length, density).value * (length / 1000.0) * density == 3600.0
  {
    var km := length / 1000.0;
    assert km != 0.0;
    var p := 3600.0 / km / density;
    assert p * density == 3600.0 / km;
    assert p * km * density == (p * density) * km;
  }

  /** `float(density)`: a number as it is, a string as Python parses it (given). */
  function FloatOf(a: Arg, parseFloat: string -> Option<real>): Option<real> {
    match a
    case Int(i) => Some(i as real)
    case Real(r) => Some(r)
    case Text(s) => parseFloat(s)
  }

  /** Why no trips could be generated for a class. */
  datatype MobilityError =
    | BadDensity(vclass: string)   // `float(density)` raised a ValueError
    | NoLanes(vclass: string)      // the period divided by zero
    | UnknownClass(vclass: string) // `vehicle_classes[vclass]` raised a KeyError
    | NoClasses                    // the loop iterated over `None` and raised a TypeError

  /** `f'{name}.net.xml'` and `f'{name}.trips.xml'` under the output directory. */
  function NetPath(outPath: string, name: string): string {
    PathJoin(outPath, name + ".net.xml")
  }

  function TripsPath(outPath: string, name: string): string {
    PathJoin(outPath, name + ".trips.xml")
  }

  /** `{'--net-file': netpath, '--output-trip-file': output, '--route-file': routepath}` */
  function BaseOptions(netpath: string, output: string, routepath: string): Dict<Arg> {
    [("--net-file", Text(netpath)), ("--output-trip-file", Text(output)), ("--route-file", Text(routepath))]
  }

  /** `f'{name}.{vclass}.rou.xml'` */
  function RouteFileName(name: string, vclass: string): string {
    name + "." + vclass + ".rou.xml"
  }

  /** The route files of the classes, one per class and in their order. */
  function RouteFiles(name: string, vclasses: seq<string>): (r: seq<string>)
    ensures |r| == |vclasses| && forall i :: 0 <= i < |vclasses| ==> r[i] == RouteFileName(name, vclasses[i])
  {
    seq(|vclasses|, i requires 0 <= i < |vclasses| => RouteFileName(name, vclasses[i]))
  }

  /** Distinct classes give distinct route files. */
  lemma RouteFileNameInjective(name: string, a: string, b: string)
    requires RouteFileName(name, a) == RouteFileName(name, b)
    ensures a == b
  {
    var ra, rb := RouteFileName(name, a), RouteFileName(name, b);
    assert ra[..|ra| - 8] == name + "." + a;
    assert rb[..|rb| - 8] == name + "." + b;
    assert (name + "." + a)[|name| + 1..] == a;
    assert (name + "." + b)[|name| + 1..] == b;
  }

  // ----- the loop of generate_mobility -----

  /**
   * The loop of `generate_mobility` in both revisions, for the class `key(item)` and the call
   * `call(item)` of each item: the route file `name.vclass.rou.xml` is added and randomTrips
   * called, item after item, until one fails.
   */
  function Collect<T>(name: string, items: seq<T>, key: T -> string, call: T -> Result<seq<Arg>, MobilityError>)
    : Result<(seq<string>, seq<seq<Arg>>), MobilityError>
  {
    if items == [] then Success(([], []))
    else
      var last := items[|items| - 1];
      match Collect(name, items[..|items| - 1], key, call)
      case Failure(e) => Failure(e)
      case Success(done) =>
        match call(last)
        case Failure(e) => Failure(e)
        case Success(args) => Success((done.0 + [RouteFileName(name, key(last))], done.1 + [args]))
  }

  /** The loop succeeds exactly when every item's call does. */
  lemma {:induction false} CollectSuccess<T>(name: string, items: seq<T>, key: T -> string, call: T -> Result<seq<Arg>, MobilityError>)
    ensures Collect(name, items, key, call).Success? <==> forall i :: 0 <= i < |items| ==> call(items[i]).Success?
  {
    if items != [] {
      var init := items[..|items| - 1];
      CollectSuccess(name, init, key, call);
      assert forall j :: 0 <= j < |init| ==> init[j] == items[j];
    }
  }

  /** On success: one route file and one call per item, in the items' order. */
  lemma {:induction false} CollectResult<T>(name: string, items: seq<T>, key: T -> string, call: T -> Result<seq<Arg>, MobilityError>)
    requires Collect(name, items, key, call).Success?
    ensures var r := Collect(name, items, key, call).value;
            && |r.0| == |items| && |r.1| == |items|
            && forall i :: 0 <= i < |items| ==> r.0[i] == RouteFileName(name, key(items[i])) && call(items[i]) == Success(r.1[i])
  {
    if items != [] {
      var init := items[..|items| - 1];
      CollectResult(name, init, key, call);
      assert forall j :: 0 <= j < |init| ==> init[j] == items[j];
    }
  }

  /** A failure on a prefix of the items is the failure of the whole loop. */
  lemma {:induction false} CollectFailureSticks<T>(name: string, items: seq<T>, key: T -> string,
                                                   call: T -> Result<seq<Arg>, MobilityError>, i: nat)
    requires i <= |items| && Collect(name, items[..i], key, call).Failure?
    ensures Collect(name, items, key, call) == Collect(name, items[..i], key, call)
    decreases |items| - i
  {
    if i < |items| {
      assert items[..i + 1][..i] == items[..i];
      CollectFailureSticks(name, items, key, call, i + 1);
    } else {
      assert items[..i] == items;
    }
  }

  // ----- templates -----

  /** The three settings of `load_netconvert_template`. */
  function NetconvertWrites(osmInput: string, outName: string): seq<(string, string)> {
    [("input/osm-files", osmInput), ("output/output-file", outName + ".net.xml"), ("report/log", outName + ".netconvert.log")]
  }

  /** The five settings of `load_polyconvert_template`. */
  function PolyconvertWrites(osmFile: string, typeFile: string, name: string): seq<(string, string)> {
    [("input/osm-files", osmFile), ("input/net-file", name + ".net.xml"), ("input/type-file", typeFile),
     ("output/output-file", name + ".poly.xml"), ("report/log", name + ".polyconvert.log")]
  }

  lemma KeysOf2<V>(w: seq<(string, V)>)
    requires |w| == 2
    ensures KeysOf(w) == {w[0].0, w[1].0}
  {
    assert forall k :: k in KeysOf(w) ==> k in {w[0].0, w[1].0};
    assert w[0].0 in KeysOf(w) && w[1].0 in KeysOf(w);
  }

  lemma KeysOf3<V>(w: seq<(string, V)>)
    requires |w| == 3
    ensures KeysOf(w) == {w[0].0, w[1].0, w[2].0}
  {
    assert forall k :: k in KeysOf(w) ==> k in {w[0].0, w[1].0, w[2].0};
    assert w[0].0 in KeysOf(w) && w[1].0 in KeysOf(w) && w[2].0 in KeysOf(w);
  }

  lemma KeysOf4<V>(w: seq<(string, V)>)
    requires |w| == 4
    ensures KeysOf(w) == {w[0].0, w[1].0, w[2].0, w[3].0}
  {
    assert forall k :: k in KeysOf(w) ==> k in {w[0].0, w[1].0, w[2].0, w[3].0};
    assert w[0].0 in KeysOf(w) && w[1].0 in KeysOf(w) && w[2].0 in KeysOf(w) && w[3].0 in KeysOf(w);
  }

  lemma KeysOf5<V>(w: seq<(string, V)>)
    requires |w| == 5
    ensures KeysOf(w) == {w[0].0, w[1].0, w[2].0, w[3].0, w[4].0}
  {
    assert forall k :: k in KeysOf(w) ==> k in {w[0].0, w[1].0, w[2].0, w[3].0, w[4].0};
    assert w[0].0 in KeysOf(w) && w[1].0 in KeysOf(w) && w[2].0 in KeysOf(w);
    assert w[3].0 in KeysOf(w) && w[4].0 in KeysOf(w);
  }

  /** The element at `p` carries the value `v`. */
  predicate Holds(t: map<string, string>, p: string, v: string) {
    p in t && t[p] == v
  }

  /** The template's values after a list of writes to distinct paths: each path holds its value. */
  lemma DistinctWritesLookup(m: map<string, string>, w: seq<(string, string)>, p: string)
    requires DistinctKeys(w)
    ensures p in KeysOf(w) ==> exists i :: 0 <= i < |w| && w[i].0 == p && p in Apply(m, w) && Apply(m, w)[p] == w[i].1
    ensures p !in KeysOf(w) ==> (p in Apply(m, w) <==> p in m) && (p in m ==> Apply(m, w)[p] == m[p])
  {
    ApplyLookup(m, w, p);
    if p in KeysOf(w) {
      var i :| 0 <= i < |w| && w[i].0 == p;
      LastWriteOfDistinct(w, i);
    }
  }

  /**
   * `load_netconvert_template`: the osm input, `name.net.xml` as output and `name.netconvert.log`
   * as log are set in the template; the three elements must exist.
   */
  method LoadNetconvertTemplate(tree: Tree, osmInput: string, outName: string) returns (ok: bool)
    modifies tree`values
    ensures ok <==> {"input/osm-files", "output/output-file", "report/log"} <= tree.elements
    ensures ok ==> tree.values == Apply(old(tree.values), NetconvertWrites(osmInput, outName))
  {
    KeysOf3(NetconvertWrites(osmInput, outName));
    ok := tree.SetAll(NetconvertWrites(osmInput, outName));
  }

  /** What the netconvert template holds afterwards, and that nothing else in it changes. */
  lemma NetconvertFields(m: map<string, string>, osmInput: string, outName: string, p: string)
    ensures var t := Apply(m, NetconvertWrites(osmInput, outName));
            && Holds(t, "input/osm-files", osmInput)
            && Holds(t, "output/output-file", outName + ".net.xml")
            && Holds(t, "report/log", outName + ".netconvert.log")
            && (p !in {"input/osm-files", "output/output-file", "report/log"} ==>
                  (p in t <==> p in m) && (p in m ==> t[p] == m[p]))
  {
    var w := NetconvertWrites(osmInput, outName);
    KeysOf3(w);
    DistinctWritesLookup(m, w, "input/osm-files");
    DistinctWritesLookup(m, w, "output/output-file");
    DistinctWritesLookup(m, w, "report/log");
    DistinctWritesLookup(m, w, p);
  }

  /** `load_polyconvert_template`: the five settings, on a template that has the five elements. */
  method LoadPolyconvertTemplate(tree: Tree, osmFile: string, typeFile: string, name: string) returns (ok: bool)
    modifies tree`values
    ensures ok <==> {"input/osm-files", "input/net-file", "input/type-file", "output/output-file", "report/log"} <= tree.elements
    ensures ok ==> tree.values == Apply(old(tree.values), PolyconvertWrites(osmFile, typeFile, name))
  {
    KeysOf5(PolyconvertWrites(osmFile, typeFile, name));
    ok := tree.SetAll(PolyconvertWrites(osmFile, typeFile, name));
  }

  /** What the polyconvert template holds afterwards, and that nothing else in it changes. */
  lemma PolyconvertFields(m: map<string, string>, osmFile: string, typeFile: string, name: string, p: string)
    ensures var t := Apply(m, PolyconvertWrites(osmFile, typeFile, name));
            && Holds(t, "input/osm-files", osmFile)
            && Holds(t, "input/net-file", name + ".net.xml")
            && Holds(t, "input/type-file", typeFile)
            && Holds(t, "output/output-file", name + ".poly.xml")
            && Holds(t, "report/log", name + ".polyconvert.log")
            && (p !in {"input/osm-files", "input/net-file", "input/type-file", "output/output-file", "report/log"} ==>
                  (p in t <==> p in m) && (p in m ==> t[p] == m[p]))
  {
    var w := PolyconvertWrites(osmFile, typeFile, name);
    KeysOf5(w);
    DistinctWritesLookup(m, w, "input/osm-files");
    DistinctWritesLookup(m, w, "input/net-file");
    DistinctWritesLookup(m, w, "input/type-file");
    DistinctWritesLookup(m, w, "output/output-file");
    DistinctWritesLookup(m, w, "report/log");
    DistinctWritesLookup(m, w, p);
  }

  /** The values the netconvert template test expects for `test.osm` and `test_simulation`. */
  lemma NetconvertTemplateExample(m: map<string, string>)
    ensures var t := Apply(m, NetconvertWrites("test.osm", "test_simulation"));
            Holds(t, "input/osm-files", "test.osm") && Holds(t, "output/output-file", "test_simulation.net.xml") &&
            Holds(t, "report/log", "test_simulation.netconvert.log")
  {
    NetconvertFields(m, "test.osm", "test_simulation", "");
  }

  /** The values the polyconvert template test expects. */
  lemma PolyconvertTemplateExample(m: map<string, string>)
    ensures var t := Apply(m, PolyconvertWrites("test_simulation.osm", "typemap/test.typ.xml", "test_simulation"));
            Holds(t, "input/osm-files", "test_simulation.osm") && Holds(t, "input/net-file", "test_simulation.net.xml") &&
            Holds(t, "input/type-file", "typemap/test.typ.xml") && Holds(t, "output/output-file", "test_simulation.poly.xml") &&
            Holds(t, "report/log", "test_simulation.polyconvert.log")
  {
    PolyconvertFields(m, "test_simulation.osm", "typemap/test.typ.xml", "test_simulation", "");
  }

  // ----- move_logs -----

  /** The entries of the listing whose extension is exactly `.log`, in listing order. */
  function LogFiles(listing: seq<string>): seq<string> {
    if listing == [] then []
    else
      var f := listing[|listing| - 1];
      LogFiles(listing[..|listing| - 1]) + (if Extension(f) == ".log" then [f] else [])
  }

  /** A file is moved exactly when it is listed and its extension is `.log`. */
  lemma {:induction false} LogFilesSelects(listing: seq<string>, f: string)
    ensures f in LogFiles(listing) <==> f in listing && Extension(f) == ".log"
  {
    if listing != [] {
      var init := listing[..|listing| - 1];
      LogFilesSelects(init, f);
      assert listing == init + [listing[|listing| - 1]];
    }
  }

  /** `move_logs`: each log file of the directory, in listing order, moved into the log directory. */
  method MoveLogs(simDir: string, logsDir: string, listing: seq<string>) returns (moves: seq<(string, string)>)
    ensures |moves| == |LogFiles(listing)|
    ensures forall i :: 0 <= i < |moves| ==> moves[i] == (PathJoin(simDir, LogFiles(listing)[i]), logsDir)
  {
    moves := [];
    var i := 0;
    while i < |listing|
      invariant 0 <= i <= |listing|
      invariant |moves| == |LogFiles(listing[..i])|
      invariant forall j :: 0 <= j < |moves| ==> moves[j] == (PathJoin(simDir, LogFiles(listing[..i])[j]), logsDir)
    {
      assert listing[..i + 1][..i] == listing[..i];
      if Extension(listing[i]) == ".log" {
        moves := moves + [(PathJoin(simDir, listing[i]), logsDir)];
      }
      i := i + 1;
    }
    assert listing[..i] == listing;
  }
}

/**
 * The older revision of the scenario configurator (`configurator/configurator.py`): a SUMO
 * template without a seed that leaves the polygons file alone when none is generated, a trip
 * generator whose period becomes a flag, and one route file per class at a fixed density.
 */
module LegacyConfigurator {
  import opened Wrappers
  import opened Texts
  import opened Writes
  import opened Dicts
  import opened Xml
  import opened Scenario
  import Configurator

  /** The settings of `load_sumoconfig_template`, in order; the polygons file only when polygons are generated. */
  function SumoWrites(name: string, routefiles: seq<string>, polygons: bool): seq<(string, string)> {
    [("input/net-file", name + ".net.xml"), ("input/route-files", Join(",", Configurator.RouteList(name, routefiles)))]
    + (if polygons then [(Configurator.Additional, name + ".poly.xml")] else [])
    + [("report/log", name + ".log")]
  }

  /**
   * `load_sumoconfig_template`: each setting needs its element; without polygons the
   * additional-files element is not looked up at all.
   */
  method LoadSumoconfigTemplate(tree: Tree, name: string, routefiles: seq<string>, generatePolygons: bool) returns (ok: bool)
    modifies tree`values
    ensures ok <==> {"input/net-file", "input/route-files", "report/log"} <= tree.elements &&
                    (generatePolygons ==> Configurator.Additional in tree.elements)
    ensures ok ==> tree.values == Apply(old(tree.values), SumoWrites(name, routefiles, generatePolygons))
  {
    var w := SumoWrites(name, routefiles, generatePolygons);
    if generatePolygons {
      KeysOf4(w);
    } else {
      KeysOf3(w);
    }
    ok := tree.SetAll(w);
  }

  /**
   * What the SUMO template holds after the settings: the network, the joined route files and
   * the log, the polygons file when polygons are generated, and otherwise additional-files as
   * the template had it.
   */
  lemma SumoFields(m: map<string, string>, name: string, routefiles: seq<string>, polygons: bool)
    ensures var t := Apply(m, SumoWrites(name, routefiles, polygons));
            && Holds(t, "input/net-file", name + ".net.xml")
            && Holds(t, "input/route-files", Join(",", Configurator.RouteList(name, routefiles)))
            && Holds(t, "report/log", name + ".log")
            && (polygons ==> Holds(t, Configurator.Additional, name + ".poly.xml"))
            && (!polygons ==> (Configurator.Additional in t <==> Configurator.Additional in m))
            && (!polygons && Configurator.Additional in m ==> t[Configurator.Additional] == m[Configurator.Additional])
  {
    var w := SumoWrites(name, routefiles, polygons);
    if polygons {
      KeysOf4(w);
    } else {
      KeysOf3(w);
    }
    DistinctWritesLookup(m, w, "input/net-file");
    DistinctWritesLookup(m, w, "input/route-files");
    DistinctWritesLookup(m, w, "report/log");
    DistinctWritesLookup(m, w, Configurator.Additional);
  }

  /**
   * `generate_sumo_configuration`: the template is filled as if no polygons were generated,
   * whatever `generate_polygons` says, and written as `name.sumocfg` in the directory.
   */
  method GenerateSumoConfiguration(tree: Tree, routefiles: seq<string>, path: string, name: string,
                                   generatePolygons: bool) returns (ok: bool, file: string)
    modifies tree`values
    ensures ok <==> {"input/net-file", "input/route-files", "report/log"} <= tree.elements
    ensures ok ==> tree.values == Apply(old(tree.values), SumoWrites(name, routefiles, false))
    ensures file == PathJoin(path, name + ".sumocfg")
  {
    ok := LoadSumoconfigTemplate(tree, name, routefiles, false);
    file := PathJoin(path, name + ".sumocfg");
  }

  /** Asking for polygons leaves the configuration's additional-files as the template had it. */
  lemma PolygonsIgnored(m: map<string, string>, name: string, routefiles: seq<string>)
    requires Configurator.Additional in m
    ensures Holds(Apply(m, SumoWrites(name, routefiles, false)), Configurator.Additional, m[Configurator.Additional])
  {
    SumoFields(m, name, routefiles, false);
  }

  // ----- the trip generator -----

  /** `RandomTripsGenerator` of this revision: the period goes among the flags. */
  class TripsGenerator {
    const vclass: string
    var options: Dict<Arg>
    var flags: seq<Arg>

    /** `{'--net-file': ..., '--output-trip-file': ..., '--route-file': ..., **opts}` and the given flags. */
    constructor (netpath: string, routepath: string, output: string, vclass: string, flags: seq<Arg>, opts: Dict<Arg>)
      ensures this.vclass == vclass
      ensures options == Update(BaseOptions(netpath, output, routepath), opts) && this.flags == flags
    {
      this.vclass := vclass;
      options := Update(BaseOptions(netpath, output, routepath), opts);
      this.flags := flags;
    }

    /** `add_option`: `options[optName] = value`. */
    method AddOption(optName: string, value: Arg)
      modifies this`options
      ensures options == Put(old(options), optName, value)
    {
      options := Put(options, optName, value);
    }

    /** `_init_trips`: `'-p'` and the period are appended to the flags; nothing else changes. */
    method InitTrips(edges: seq<Edge>, density: real) returns (ok: bool)
      modifies this`flags
      ensures ok <==> Period(AllowedLength(edges, vclass), density).Some?
      ensures flags == if ok then old(flags) + [Text("-p"), Real(Period(AllowedLength(edges, vclass), density).value)]
                       else old(flags)
    {
      var length := LaneLength(edges, vclass);
      if length == 0.0 || density == 0.0 {
        return false;
      }
      flags := flags + [Text("-p"), Real(3600.0 / (length / 1000.0) / density)];
      ok := true;
    }

    /** `generate`: the options laid out by `dict_to_list`, then the flags. */
    function Args(): seq<Arg>
      reads this
    {
      DictToList(options) + flags
    }
  }

  /** An option set with `add_option` is looked up as that value; the others keep theirs. */
  lemma AddOptionLookup(options: Dict<Arg>, optName: string, value: Arg, k: string)
    ensures Lookup(Put(options, optName, value), k) == if k == optName then Some(value) else Lookup(options, k)
  {
    PutLookup(options, optName, value, k);
  }

  /**
   * `RandomTripsGenerator(...)`: the period may divide by zero, and only then are the class's
   * options looked up, which may be missing.
   */
  method MakeGenerator(netpath: string, routepath: string, output: string, vclass: string, density: real,
                       flags: seq<Arg>, opts: Dict<Arg>, edges: seq<Edge>) returns (r: Result<TripsGenerator, MobilityError>)
    ensures r.Success? <==> Period(AllowedLength(edges, vclass), density).Some? && VehicleClassOptions(vclass).Some?
    ensures r.Failure? ==>
              r.error == if Period(AllowedLength(edges, vclass), density).None? then NoLanes(vclass) else UnknownClass(vclass)
    ensures r.Success? ==> fresh(r.value) && r.value.vclass == vclass
    ensures r.Success? ==>
              r.value.options == Update(Update(BaseOptions(netpath, output, routepath), opts), VehicleClassOptions(vclass).value) &&
              r.value.flags == flags + [Text("-p"), Real(Period(AllowedLength(edges, vclass), density).value)]
  {
    var g := new TripsGenerator(netpath, routepath, output, vclass, flags, opts);
    var ok := g.InitTrips(edges, density);
    if !ok {
      return Failure(NoLanes(vclass));
    }
    var cls := VehicleClassOptions(vclass);
    if cls.None? {
      return Failure(UnknownClass(vclass));
    }
    g.options := Update(g.options, cls.value);
    r := Success(g);
  }

  // ----- generate_mobility -----

  /** Every class gets ten vehicles per kilometre and hour. */
  const Density := 10.0

  /** The options of the generator for one class: the defaults, `--end` 200, the class's options. */
  function CallOptions(outPath: string, name: string, vclass: string, cls: Dict<Arg>): Dict<Arg> {
    Update(Update(BaseOptions(NetPath(outPath, name), TripsPath(outPath, name), PathJoin(outPath, RouteFileName(name, vclass))),
                  [("--end", Int(200))]), cls)
  }

  /** The randomTrips arguments for one class, or why there are none. */
  function Call(outPath: string, name: string, vclass: string, edges: seq<Edge>): Result<seq<Arg>, MobilityError> {
    match Period(AllowedLength(edges, vclass), Density)
    case None => Failure(NoLanes(vclass))
    case Some(p) =>
      match VehicleClassOptions(vclass)
      case None => Failure(UnknownClass(vclass))
      case Some(cls) => Success(DictToList(CallOptions(outPath, name, vclass, cls)) + [Text("-l"), Text("-p"), Real(p)])
  }

  function ClassName(vclass: string): string {
    vclass
  }

  function MobilityStep(outPath: string, name: string, edges: seq<Edge>): string -> Result<seq<Arg>, MobilityError> {
    vclass => Call(outPath, name, vclass, edges)
  }

  /**
   * `generate_mobility(out_path, name, vclasses)` over the classes of `vclasses`; the densities
   * they carry are not read. Iterating over no dictionary at all fails.
   */
  function Mobility(outPath: string, name: string, vclasses: Option<Dict<string>>, edges: seq<Edge>)
    : Result<(seq<string>, seq<seq<Arg>>), MobilityError>
  {
    match vclasses
    case None => Failure(NoClasses)
    case Some(d) => Collect(name, Keys(d), ClassName, MobilityStep(outPath, name, edges))
  }

  /**
   * Generation succeeds exactly when a dictionary is given and every class in it yields a call;
   * it then gives one route file `name.vclass.rou.xml` per class, in order, whatever the densities.
   */
  lemma MobilityResult(outPath: string, name: string, vclasses: Option<Dict<string>>, edges: seq<Edge>)
    ensures var r := Mobility(outPath, name, vclasses, edges);
            && (r.Success? <==> vclasses.Some? && forall i :: 0 <= i < |vclasses.value| ==> Call(outPath, name, vclasses.value[i].0, edges).Success?)
            && (r.Success? ==> r.value.0 == RouteFiles(name, Keys(vclasses.value)) && |r.value.1| == |vclasses.value|)
            && (r.Success? ==> forall i :: 0 <= i < |vclasses.value| ==> Call(outPath, name, vclasses.value[i].0, edges) == Success(r.value.1[i]))
  {
    if vclasses.Some? {
      var ks, step := Keys(vclasses.value), MobilityStep(outPath, name, edges);
      CollectSuccess(name, ks, ClassName, step);
      if Mobility(outPath, name, vclasses, edges).Success? {
        CollectResult(name, ks, ClassName, step);
      }
    }
  }

  /** Each call ends with the flags `-l`, `-p` and the period for ten vehicles per kilometre and hour. */
  lemma CallFlags(outPath: string, name: string, vclass: string, edges: seq<Edge>)
    requires Call(outPath, name, vclass, edges).Success?
    ensures var args := Call(outPath, name, vclass, edges).value;
            |args| >= 3 && args[|args| - 3..] == [Text("-l"), Text("-p"), Real(Period(AllowedLength(edges, vclass), Density).value)]
  {
  }

  /** The defaults and `--end` survive the class's options, which add the class's name. */
  lemma CallOptionsContent(outPath: string, name: string, vclass: string)
    requires VehicleClassOptions(vclass).Some?
    ensures var opts := CallOptions(outPath, name, vclass, VehicleClassOptions(vclass).value);
            && Lookup(opts, "--net-file") == Some(Text(NetPath(outPath, name)))
            && Lookup(opts, "--route-file") == Some(Text(PathJoin(outPath, RouteFileName(name, vclass))))
            && Lookup(opts, "--end") == Some(Int(200))
            && Lookup(opts, "--vclass") == Some(Text(vclass))
  {
    var cls := VehicleClassOptions(vclass).value;
    var base := BaseOptions(NetPath(outPath, name), TripsPath(outPath, name), PathJoin(outPath, RouteFileName(name, vclass)));
    var withEnd := Update(base, [("--end", Int(200))]);
    assert [("--end", Int(200))][..0] == [];
    assert Update(base, []) == base;
    assert withEnd == Put(base, "--end", Int(200));
    EndSurvives(base, cls, vclass);
    ClassOptionsKeepOwn(vclass);
    VehicleClassLastWrite(vclass);
    UpdateLookup(withEnd, cls, "--net-file");
    UpdateLookup(withEnd, cls, "--route-file");
    UpdateLookup(withEnd, cls, "--vclass");
    PutLookup(base, "--end", Int(200), "--net-file");
    PutLookup(base, "--end", Int(200), "--route-file");
  }

  lemma EndSurvives(base: Dict<Arg>, cls: Dict<Arg>, vclass: string)
    requires VehicleClassOptions(vclass) == Some(cls)
    ensures Lookup(Update(Put(base, "--end", Int(200)), cls), "--end") == Some(Int(200))
  {
    ClassOptionsKeepOwn(vclass);
    UpdateLookup(Put(base, "--end", Int(200)), cls, "--end");
    PutLookup(base, "--end", Int(200), "--end");
  }

  /**
   * One pass of the loop: `RandomTripsGenerator(netpath, routepath, output, vclass, 10.0, '-l',
   * **{'--end': 200})` and the call's arguments.
   */
  method MobilityCall(outPath: string, name: string, vclass: string, edges: seq<Edge>) returns (r: Result<seq<Arg>, MobilityError>)
    ensures r == Call(outPath, name, vclass, edges)
  {
    var routepath := PathJoin(outPath, RouteFileName(name, vclass));
    var g := MakeGenerator(NetPath(outPath, name), routepath, TripsPath(outPath, name), vclass, Density,
                           [Text("-l")], [("--end", Int(200))], edges);
    if g.Failure? {
      return Failure(g.error);
    }
    assert [("--end", Int(200))][..0] == [];
    assert g.value.flags == [Text("-l"), Text("-p"), Real(Period(AllowedLength(edges, vclass), Density).value)];
    r := Success(g.value.Args());
  }

  /** The loop over the classes, appending each route file and generating its trips. */
  method MobilityLoop(outPath: string, name: string, vclasses: seq<string>, edges: seq<Edge>)
    returns (r: Result<(seq<string>, seq<seq<Arg>>), MobilityError>)
    ensures r == Collect(name, vclasses, ClassName, MobilityStep(outPath, name, edges))
  {
    ghost var step := MobilityStep(outPath, name, edges);
    var routefiles: seq<string> := [];
    var calls: seq<seq<Arg>> := [];
    var i := 0;
    while i < |vclasses|
      invariant 0 <= i <= |vclasses|
      invariant Collect(name, vclasses[..i], ClassName, step) == Success((routefiles, calls))
    {
      assert vclasses[..i + 1][..i] == vclasses[..i];
      routefiles := routefiles + [RouteFileName(name, vclasses[i])];
      var c := MobilityCall(outPath, name, vclasses[i], edges);
      if c.Failure? {
        CollectFailureSticks(name, vclasses, ClassName, step, i + 1);
        return Failure(c.error);
      }
      calls := calls + [c.value];
      i := i + 1;
    }
    assert vclasses[..i] == vclasses;
    r := Success((routefiles, calls));
  }

  /** `generate_mobility`, given the `--vclass` dictionary or nothing. */
  method GenerateMobility(outPath: string, name: string, vclasses: Option<Dict<string>>, edges: seq<Edge>)
    returns (r: Result<(seq<string>, seq<seq<Arg>>), MobilityError>)
    ensures r == Mobility(outPath, name, vclasses, edges)
  {
    if vclasses.None? {
      return Failure(NoClasses);
    }
    r := MobilityLoop(outPath, name, Keys(vclasses.value), edges);
  }

  // ----- main -----

  /**
   * The classes `main` means to generate: those given, or `('passenger',)` when none are. As
   * written, `main` computes this and drops it, passing the options on unchanged.
   */
  function DefaultedClasses(vclasses: Option<Dict<string>>): (r: seq<string>)
    ensures r != []
    ensures vclasses.Some? && vclasses.value != [] ==> r == Keys(vclasses.value)
    ensures vclasses.None? ==> r == ["passenger"]
  {
    if vclasses.Some? && vclasses.value != [] then Keys(vclasses.value) else ["passenger"]
  }

  /** Trip generation as `main` intends it, with the default class applied. */
  method MainMobility(outPath: string, name: string, vclasses: Option<Dict<string>>, edges: seq<Edge>)
    returns (r: Result<(seq<string>, seq<seq<Arg>>), MobilityError>)
    ensures r == Collect(name, DefaultedClasses(vclasses), ClassName, MobilityStep(outPath, name, edges))
  {
    r := MobilityLoop(outPath, name, DefaultedClasses(vclasses), edges);
  }

  /**
   * Without `--vclass`, the generation `main` starts fails on `None`, while the default it
   * computed would have generated passenger trips into `name.passenger.rou.xml`.
   */
  lemma MainDropsDefault(outPath: string, name: string, edges: seq<Edge>)
    requires AllowedLength(edges, "passenger") != 0.0
    ensures Mobility(outPath, name, None, edges) == Failure(NoClasses)
    ensures var r := Collect(name, DefaultedClasses(None), ClassName, MobilityStep(outPath, name, edges));
            r.Success? && r.value.0 == [RouteFileName(name, "passenger")]
  {
    var ks, step := DefaultedClasses(None), MobilityStep(outPath, name, edges);
    assert Period(AllowedLength(edges, "passenger"), Density).Some?;
    assert VehicleClassOptions("passenger").Some?;
    assert step(ks[0]).Success?;
    CollectSuccess(name, ks, ClassName, step);
    CollectResult(name, ks, ClassName, step);
    var files := Collect(name, ks, ClassName, step).value.0;
    assert files[0] == RouteFileName(name, ks[0]);
  }
}

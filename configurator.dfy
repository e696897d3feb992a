/**
 * The later revision of the scenario configurator (`sumo_project/configurator.py`): the SUMO
 * template with a seed and without a polygons file when none is generated, the trip generator
 * whose period becomes an option, one route file per class with its density, and the default
 * class when none is given.
 */
module Configurator {
  import opened Wrappers
  import opened Texts
  import opened Writes
  import opened Dicts
  import opened Xml
  import opened Scenario

  const Additional := "input/additional-files"

  /** `routefiles or (f'{name}.rou.xml',)` */
  function RouteList(name: string, routefiles: seq<string>): (r: seq<string>)
    ensures r != []
    ensures routefiles != [] ==> r == routefiles
    ensures routefiles == [] ==> |r| == 1 && EndsWith(r[0], ".rou.xml")
  {
    if routefiles == [] then [name + ".rou.xml"] else routefiles
  }

  /** `seed or str(time.time())`: a missing or empty seed gives way to the clock. */
  function SeedValue(seed: Option<string>, clock: string): string {
    if seed.Some? && seed.value != "" then seed.value else clock
  }

  function SumoHead(name: string, routefiles: seq<string>): seq<(string, string)> {
    [("input/net-file", name + ".net.xml"), ("input/route-files", Join(",", RouteList(name, routefiles)))]
  }

  function SumoTail(name: string, seed: Option<string>, clock: string): seq<(string, string)> {
    [("report/log", name + ".log"), ("random_number/seed", SeedValue(seed, clock))]
  }

  /** The settings of `load_sumoconfig_template`, in order; the polygons file only when polygons are generated. */
  function SumoWrites(name: string, routefiles: seq<string>, polygons: bool, seed: Option<string>, clock: string): seq<(string, string)> {
    SumoHead(name, routefiles) + (if polygons then [(Additional, name + ".poly.xml")] else []) + SumoTail(name, seed, clock)
  }

  /** The elements the template must have. */
  function SumoPaths(): set<string> {
    {"input/net-file", "input/route-files", Additional, "report/log", "random_number/seed"}
  }

  /**
   * `load_sumoconfig_template`: the settings are made, and without polygons the additional-files
   * element is removed from `input`. Every element must exist, as each `find` is dereferenced.
   */
  method LoadSumoconfigTemplate(tree: Tree, name: string, routefiles: seq<string>, generatePolygons: bool,
                                seed: Option<string>, clock: string) returns (ok: bool)
    modifies tree
    ensures ok <==> SumoPaths() <= old(tree.elements)
    ensures ok && generatePolygons ==>
              tree.elements == old(tree.elements) &&
              tree.values == Apply(old(tree.values), SumoWrites(name, routefiles, true, seed, clock))
    ensures ok && !generatePolygons ==>
              tree.elements == (set p | p in old(tree.elements) && !Under(p, Additional)) &&
              tree.values == Apply(Without(old(tree.values), Additional), SumoWrites(name, routefiles, false, seed, clock))
  {
    var head, tail := SumoHead(name, routefiles), SumoTail(name, seed, clock);
    KeysOf2(head);
    KeysOf2(tail);
    ok := tree.SetAll(head);
    if !ok {
      return;
    }
    ghost var afterHead := tree.values;
    if generatePolygons {
      ok := tree.Set(Additional, name + ".poly.xml");
    } else {
      ok := tree.Remove(Additional);
    }
    if !ok {
      return;
    }
    ghost var mid := tree.values;
    ok := tree.SetAll(tail);
    if ok {
      if generatePolygons {
        ApplyConcat(old(tree.values), head, [(Additional, name + ".poly.xml")]);
        ApplyConcat(old(tree.values), head + [(Additional, name + ".poly.xml")], tail);
      } else {
        WithoutApply(old(tree.values), head, Additional);
        assert SumoWrites(name, routefiles, false, seed, clock) == head + tail;
        ApplyConcat(Without(old(tree.values), Additional), head, tail);
      }
    }
  }

  /** What the SUMO template holds after the settings. */
  lemma SumoFields(m: map<string, string>, name: string, routefiles: seq<string>, polygons: bool, seed: Option<string>, clock: string)
    ensures var t := Apply(m, SumoWrites(name, routefiles, polygons, seed, clock));
            && Holds(t, "input/net-file", name + ".net.xml")
            && Holds(t, "input/route-files", Join(",", RouteList(name, routefiles)))
            && Holds(t, "report/log", name + ".log")
            && Holds(t, "random_number/seed", SeedValue(seed, clock))
            && (polygons ==> Holds(t, Additional, name + ".poly.xml"))
            && (!polygons ==> (Additional in t <==> Additional in m))
  {
    var w := SumoWrites(name, routefiles, polygons, seed, clock);
    if polygons {
      KeysOf5(w);
    } else {
      KeysOf4(w);
    }
    DistinctWritesLookup(m, w, "input/net-file");
    DistinctWritesLookup(m, w, "input/route-files");
    DistinctWritesLookup(m, w, "report/log");
    DistinctWritesLookup(m, w, "random_number/seed");
    DistinctWritesLookup(m, w, Additional);
  }

  /** Without polygons the finished template has no additional-files value at all. */
  lemma NoPolygonsNoAdditional(m: map<string, string>, name: string, routefiles: seq<string>, seed: Option<string>, clock: string)
    ensures Additional !in Apply(Without(m, Additional), SumoWrites(name, routefiles, false, seed, clock))
  {
    SumoFields(Without(m, Additional), name, routefiles, false, seed, clock);
  }

  /** The default template: one route file named after the simulation. */
  lemma SumoTemplateDefault(m: map<string, string>, seed: Option<string>, clock: string)
    ensures var t := Apply(m, SumoWrites("test_simulation", [], false, seed, clock));
            Holds(t, "input/net-file", "test_simulation.net.xml") && Holds(t, "input/route-files", "test_simulation.rou.xml") &&
            Holds(t, "report/log", "test_simulation.log")
  {
    SumoFields(m, "test_simulation", [], false, seed, clock);
  }

  /** Two given route files are joined with a comma, in order. */
  lemma SumoTemplateTwoRoutefiles(m: map<string, string>, name: string, first: string, second: string, seed: Option<string>, clock: string)
    ensures Holds(Apply(m, SumoWrites(name, [first, second], false, seed, clock)), "input/route-files", first + "," + second)
  {
    assert [first, second][1..] == [second];
    SumoFields(m, name, [first, second], false, seed, clock);
  }

  /** With polygons the template names the polygons file. */
  lemma SumoTemplateWithPolygons(m: map<string, string>, seed: Option<string>, clock: string)
    ensures Holds(Apply(m, SumoWrites("test_simulation", [], true, seed, clock)), Additional, "test_simulation.poly.xml")
  {
    SumoFields(m, "test_simulation", [], true, seed, clock);
  }

  /**
   * `generate_sumo_configuration`: the template for the route files, written as `name.sumocfg`
   * in the directory. No seed is passed, so the clock always seeds the run.
   */
  method GenerateSumoConfiguration(tree: Tree, routefiles: seq<string>, path: string, name: string,
                                   generatePolygons: bool, clock: string) returns (ok: bool, file: string)
    modifies tree
    ensures ok <==> SumoPaths() <= old(tree.elements)
    ensures file == PathJoin(path, name + ".sumocfg")
    ensures ok ==> Holds(tree.values, "random_number/seed", clock)
  {
    ok := LoadSumoconfigTemplate(tree, name, routefiles, generatePolygons, None, clock);
    if ok {
      if generatePolygons {
        SumoFields(old(tree.values), name, routefiles, true, None, clock);
      } else {
        SumoFields(Without(old(tree.values), Additional), name, routefiles, false, None, clock);
      }
    }
    file := PathJoin(path, name + ".sumocfg");
  }

  // ----- the trip generator -----

  /** `RandomTripsGenerator`: the options and flags randomTrips is called with. */
  class TripsGenerator {
    const vclass: string
    const density: real
    var options: Dict<Arg>
    var flags: seq<Arg>

    /** The default options, then the given ones, then the given flags. */
    constructor (netpath: string, routepath: string, output: string, vclass: string, density: real,
                 flags: seq<Arg>, opts: Dict<Arg>)
      ensures this.vclass == vclass && this.density == density
      ensures options == Update(BaseOptions(netpath, output, routepath), opts) && this.flags == flags
    {
      this.vclass := vclass;
      this.density := density;
      options := Update(BaseOptions(netpath, output, routepath), opts);
      this.flags := flags;
    }

    /** `_init_trips`: the period over the lanes that allow the class becomes option `-p`. */
    method InitTrips(edges: seq<Edge>) returns (ok: bool)
      modifies this`options
      ensures ok <==> Period(AllowedLength(edges, vclass), density).Some?
      ensures options == if ok then Put(old(options), "-p", Real(Period(AllowedLength(edges, vclass), density).value))
                         else old(options)
    {
      var length := LaneLength(edges, vclass);
      if length == 0.0 || density == 0.0 {
        return false;
      }
      options := Put(options, "-p", Real(3600.0 / (length / 1000.0) / density));
      ok := true;
    }

    /** `generate`: the argument list, the options as `dict_to_list` lays them out and then the flags. */
    function Args(): seq<Arg>
      reads this
    {
      DictToList(options) + flags
    }
  }

  /** The options of a generator once it is built: defaults, given options, period, class options. */
  function GeneratorOptions(netpath: string, routepath: string, output: string, opts: Dict<Arg>, period: real,
                            cls: Dict<Arg>): Dict<Arg> {
    Update(Put(Update(BaseOptions(netpath, output, routepath), opts), "-p", Real(period)), cls)
  }

  /**
   * `RandomTripsGenerator(...)`: the period is computed first and may divide by zero; then the
   * class's options are looked up and may be missing.
   */
  method MakeGenerator(netpath: string, routepath: string, output: string, vclass: string, density: real,
                       flags: seq<Arg>, opts: Dict<Arg>, edges: seq<Edge>) returns (r: Result<TripsGenerator, MobilityError>)
    ensures r.Success? <==> Period(AllowedLength(edges, vclass), density).Some? && VehicleClassOptions(vclass).Some?
    ensures r.Failure? ==>
              r.error == if Period(AllowedLength(edges, vclass), density).None? then NoLanes(vclass) else UnknownClass(vclass)
    ensures r.Success? ==> fresh(r.value) && r.value.vclass == vclass && r.value.flags == flags
    ensures r.Success? ==>
              r.value.options == GeneratorOptions(netpath, routepath, output, opts, Period(AllowedLength(edges, vclass), density).value,
                                                  VehicleClassOptions(vclass).value)
  {
    var g := new TripsGenerator(netpath, routepath, output, vclass, density, flags, opts);
    var ok := g.InitTrips(edges);
    if !ok {
      return Failure(NoLanes(vclass));
    }
    var cls := VehicleClassOptions(vclass);
    if cls.None? {
      return Failure(UnknownClass(vclass));
    }
    g.options := Update(g.options, cls.value);
    r := Success(g);
  }

  // ----- generate_mobility -----

  /** The options of the generator for one class, after `options.update(--end=200)`. */
  function CallOptions(outPath: string, name: string, vclass: string, period: real, cls: Dict<Arg>): Dict<Arg> {
    Put(GeneratorOptions(NetPath(outPath, name), PathJoin(outPath, RouteFileName(name, vclass)), TripsPath(outPath, name),
                         [], period, cls), "--end", Int(200))
  }

  /** The randomTrips arguments for one class and density, or why there are none. */
  function Call(outPath: string, name: string, vclass: string, density: Arg, edges: seq<Edge>,
                parseFloat: string -> Option<real>): Result<seq<Arg>, MobilityError> {
    match FloatOf(density, parseFloat)
    case None => Failure(BadDensity(vclass))
    case Some(d) =>
      match Period(AllowedLength(edges, vclass), d)
      case None => Failure(NoLanes(vclass))
      case Some(p) =>
        match VehicleClassOptions(vclass)
        case None => Failure(UnknownClass(vclass))
        case Some(cls) => Success(DictToList(CallOptions(outPath, name, vclass, p, cls)) + [Text("-l"), Text("--validate")])
  }

  /** `generate_mobility` over `vclasses.items()`, each class with the call `Call` builds for it. */
  function Mobility(outPath: string, name: string, vclasses: Dict<Arg>, edges: seq<Edge>,
                    parseFloat: string -> Option<real>): Result<(seq<string>, seq<seq<Arg>>), MobilityError> {
    Collect(name, vclasses, ClassOf, MobilityStep(outPath, name, edges, parseFloat))
  }

  function ClassOf(item: (string, Arg)): string {
    item.0
  }

  function MobilityStep(outPath: string, name: string, edges: seq<Edge>, parseFloat: string -> Option<real>)
    : ((string, Arg)) -> Result<seq<Arg>, MobilityError>
  {
    (item: (string, Arg)) => Call(outPath, name, item.0, item.1, edges, parseFloat)
  }

  /**
   * Generation succeeds exactly when every class yields a call, and then gives the route files
   * `name.vclass.rou.xml` of the classes in their order, and their calls.
   */
  lemma MobilityResult(outPath: string, name: string, vclasses: Dict<Arg>, edges: seq<Edge>, parseFloat: string -> Option<real>)
    ensures var r := Mobility(outPath, name, vclasses, edges, parseFloat);
            && (r.Success? <==> forall i :: 0 <= i < |vclasses| ==> Call(outPath, name, vclasses[i].0, vclasses[i].1, edges, parseFloat).Success?)
            && (r.Success? ==> r.value.0 == RouteFiles(name, Keys(vclasses)) && |r.value.1| == |vclasses|)
            && (r.Success? ==> forall i :: 0 <= i < |vclasses| ==> Call(outPath, name, vclasses[i].0, vclasses[i].1, edges, parseFloat) == Success(r.value.1[i]))
  {
    var step := MobilityStep(outPath, name, edges, parseFloat);
    CollectSuccess(name, vclasses, ClassOf, step);
    if Mobility(outPath, name, vclasses, edges, parseFloat).Success? {
      CollectResult(name, vclasses, ClassOf, step);
    }
  }

  /** The default options and the period survive the class's options. */
  lemma CallKeepsBase(outPath: string, name: string, vclass: string, period: real)
    requires VehicleClassOptions(vclass).Some?
    ensures var opts := CallOptions(outPath, name, vclass, period, VehicleClassOptions(vclass).value);
            && Lookup(opts, "--net-file") == Some(Text(NetPath(outPath, name)))
            && Lookup(opts, "--route-file") == Some(Text(PathJoin(outPath, RouteFileName(name, vclass))))
  {
    var cls := VehicleClassOptions(vclass).value;
    var base := BaseOptions(NetPath(outPath, name), TripsPath(outPath, name), PathJoin(outPath, RouteFileName(name, vclass)));
    var withP := Put(base, "-p", Real(period));
    var all := Update(withP, cls);
    ClassOptionsKeepOwn(vclass);
    UpdateLookup(withP, cls, "--net-file");
    UpdateLookup(withP, cls, "--route-file");
    PutLookup(base, "-p", Real(period), "--net-file");
    PutLookup(base, "-p", Real(period), "--route-file");
    PutLookup(all, "--end", Int(200), "--net-file");
    PutLookup(all, "--end", Int(200), "--route-file");
  }

  /** Each call has the class's period and the end time 200. */
  lemma CallPeriodEnd(outPath: string, name: string, vclass: string, period: real)
    requires VehicleClassOptions(vclass).Some?
    ensures var opts := CallOptions(outPath, name, vclass, period, VehicleClassOptions(vclass).value);
            Lookup(opts, "-p") == Some(Real(period)) && Lookup(opts, "--end") == Some(Int(200))
  {
    var cls := VehicleClassOptions(vclass).value;
    var base := BaseOptions(NetPath(outPath, name), TripsPath(outPath, name), PathJoin(outPath, RouteFileName(name, vclass)));
    var withP := Put(base, "-p", Real(period));
    ClassOptionsKeepOwn(vclass);
    UpdateLookup(withP, cls, "-p");
    PutLookup(base, "-p", Real(period), "-p");
    PutLookup(Update(withP, cls), "--end", Int(200), "-p");
    PutLookup(Update(withP, cls), "--end", Int(200), "--end");
  }

  /** Each call names its class. */
  lemma CallClass(outPath: string, name: string, vclass: string, period: real)
    requires VehicleClassOptions(vclass).Some?
    ensures Lookup(CallOptions(outPath, name, vclass, period, VehicleClassOptions(vclass).value), "--vclass") == Some(Text(vclass))
  {
    var cls := VehicleClassOptions(vclass).value;
    var base := BaseOptions(NetPath(outPath, name), TripsPath(outPath, name), PathJoin(outPath, RouteFileName(name, vclass)));
    var withP := Put(base, "-p", Real(period));
    VehicleClassLastWrite(vclass);
    UpdateLookup(withP, cls, "--vclass");
    PutLookup(Update(withP, cls), "--end", Int(200), "--vclass");
  }

  /**
   * One pass of the loop: `RandomTripsGenerator(netpath, routepath, output, vclass, float(density))`,
   * the flags `-l` and `--validate`, the end time, and the call's arguments.
   */
  method MobilityCall(outPath: string, name: string, vclass: string, density: Arg, edges: seq<Edge>,
                      parseFloat: string -> Option<real>) returns (r: Result<seq<Arg>, MobilityError>)
    ensures r == Call(outPath, name, vclass, density, edges, parseFloat)
  {
    var d := FloatOf(density, parseFloat);
    if d.None? {
      return Failure(BadDensity(vclass));
    }
    var routepath := PathJoin(outPath, RouteFileName(name, vclass));
    var g := MakeGenerator(NetPath(outPath, name), routepath, TripsPath(outPath, name), vclass, d.value, [], [], edges);
    if g.Failure? {
      return Failure(g.error);
    }
    var generator := g.value;
    generator.flags := generator.flags + [Text("-l")];
    generator.flags := generator.flags + [Text("--validate")];
    generator.options := Put(generator.options, "--end", Int(200));
    assert generator.flags == [Text("-l"), Text("--validate")];
    r := Success(generator.Args());
  }

  /** `generate_mobility`: one route file and one randomTrips call per class, in order. */
  method GenerateMobility(outPath: string, name: string, vclasses: Dict<Arg>, edges: seq<Edge>,
                          parseFloat: string -> Option<real>) returns (r: Result<(seq<string>, seq<seq<Arg>>), MobilityError>)
    ensures r == Mobility(outPath, name, vclasses, edges, parseFloat)
  {
    ghost var step := MobilityStep(outPath, name, edges, parseFloat);
    var routefiles: seq<string> := [];
    var calls: seq<seq<Arg>> := [];
    var i := 0;
    while i < |vclasses|
      invariant 0 <= i <= |vclasses|
      invariant Collect(name, vclasses[..i], ClassOf, step) == Success((routefiles, calls))
    {
      assert vclasses[..i + 1][..i] == vclasses[..i];
      var (vclass, density) := vclasses[i];
      routefiles := routefiles + [RouteFileName(name, vclass)];
      var c := MobilityCall(outPath, name, vclass, density, edges, parseFloat);
      if c.Failure? {
        CollectFailureSticks(name, vclasses, ClassOf, step, i + 1);
        return Failure(c.error);
      }
      calls := calls + [c.value];
      i := i + 1;
    }
    assert vclasses[..i] == vclasses;
    r := Success((routefiles, calls));
  }

  // ----- handle_args -----

  /** `options.vclasses or {'passenger': 10}`: no classes, or an empty dictionary, means ten cars per km and hour. */
  function DefaultClasses(vclasses: Option<Dict<Arg>>): (r: Dict<Arg>)
    ensures r != []
    ensures vclasses.Some? && vclasses.value != [] ==> r == vclasses.value
    ensures Keys(r) == ["passenger"] || (vclasses.Some? && r == vclasses.value)
  {
    if vclasses.Some? && vclasses.value != [] then vclasses.value else [("passenger", Int(10))]
  }

  /** The default generates passenger trips, into `name.passenger.rou.xml`, when the network allows them. */
  lemma DefaultGeneratesPassengers(outPath: string, name: string, edges: seq<Edge>, parseFloat: string -> Option<real>)
    requires AllowedLength(edges, "passenger") != 0.0
    ensures var r := Mobility(outPath, name, DefaultClasses(None), edges, parseFloat);
            r.Success? && r.value.0 == [RouteFileName(name, "passenger")]
  {
    var d := DefaultClasses(None);
    assert Period(AllowedLength(edges, "passenger"), 10.0).Some?;
    assert VehicleClassOptions("passenger").Some?;
    MobilityResult(outPath, name, d, edges, parseFloat);
    var files := Mobility(outPath, name, d, edges, parseFloat).value.0;
    assert files[0] == RouteFileName(name, d[0].0);
  }
}

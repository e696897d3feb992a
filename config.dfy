/**
 * The simulation configuration. A `Config` object receives one attribute per key of a JSON
 * file (`__setattr__`), so its state is a dictionary from attribute names to JSON values;
 * `check_config` then resolves the precedence between the action modes. The run reads a
 * typed view of the attributes (`Settings`).
 */
module Configuration {
  import opened Wrappers
  import opened Texts
  import opened Model
  import opened Writes

  /** A JSON value as `json.load` returns it. */
  datatype Value =
    | VNull
    | VBool(b: bool)
    | VInt(i: int)
    | VFloat(r: real)
    | VStr(s: string)
    | VList(items: seq<Value>)
    | VObject(fields: seq<(string, Value)>)

  /** Python truthiness: `None`, `False`, zero, and empty strings, lists and dicts are false. */
  predicate Truthy(v: Value) {
    match v
    case VNull => false
    case VBool(b) => b
    case VInt(i) => i != 0
    case VFloat(r) => r != 0.0
    case VStr(s) => s != ""
    case VList(items) => items != []
    case VObject(fields) => fields != []
  }

  const LimitSpeedMode := "limit_speed_mode"
  const AdjustTrafficLightMode := "adjust_traffic_light_mode"
  const LockAreaMode := "lock_area_mode"
  const WeightRoutingMode := "weight_routing_mode"
  const WithoutActionsMode := "without_actions_mode"
  const ConfigFilename := "config_filename"
  const NSteps := "n_steps"
  const WindowSize := "window_size"
  const EmissionsThreshold := "emissions_threshold"
  const SpeedRf := "speed_rf"
  const TrafficLightsDurationRf := "trafficLights_duration_rf"

  /** The four attributes `check_config` may overwrite. */
  predicate IsModeFlag(k: string) {
    k == LimitSpeedMode || k == AdjustTrafficLightMode || k == LockAreaMode || k == WeightRoutingMode
  }

  /**
   * The attributes after `check_config`, and whether it returned normally: reading an attribute
   * that was never set raises AttributeError, after the assignments made so far.
   */
  datatype Checked = Checked(attrs: map<string, Value>, ok: bool)

  /** `check_config` on the attributes. */
  function CheckConfig(attrs: map<string, Value>): (r: Checked)
    ensures r.ok <==> WeightRoutingMode in attrs && WithoutActionsMode in attrs
  {
    if WeightRoutingMode !in attrs then Checked(attrs, false)
    else
      var a1 := if Truthy(attrs[WeightRoutingMode]) then
                  attrs[LimitSpeedMode := VBool(false)][AdjustTrafficLightMode := VBool(false)][LockAreaMode := VBool(false)]
                else attrs;
      if WithoutActionsMode !in a1 then Checked(a1, false)
      else if Truthy(a1[WithoutActionsMode]) then
        Checked(a1[LimitSpeedMode := VBool(false)][AdjustTrafficLightMode := VBool(false)]
                  [WeightRoutingMode := VBool(false)][LockAreaMode := VBool(false)], true)
      else Checked(a1, true)
  }

  /** Weight routing cannot be combined with the other actions: they end disabled. */
  lemma WeightRoutingExcludesOthers(attrs: map<string, Value>)
    requires WeightRoutingMode in attrs && Truthy(attrs[WeightRoutingMode])
    ensures var r := CheckConfig(attrs).attrs;
            LimitSpeedMode in r && r[LimitSpeedMode] == VBool(false) &&
            AdjustTrafficLightMode in r && r[AdjustTrafficLightMode] == VBool(false) &&
            LockAreaMode in r && r[LockAreaMode] == VBool(false)
  {
  }

  /** The reference simulation: all four modes end disabled. */
  lemma WithoutActionsDisablesAll(attrs: map<string, Value>)
    requires WeightRoutingMode in attrs && WithoutActionsMode in attrs && Truthy(attrs[WithoutActionsMode])
    ensures var r := CheckConfig(attrs).attrs;
            forall k :: IsModeFlag(k) ==> k in r && r[k] == VBool(false)
  {
  }

  /** When neither mode is set, nothing changes. */
  lemma NeitherModeChangesNothing(attrs: map<string, Value>)
    requires WeightRoutingMode in attrs && !Truthy(attrs[WeightRoutingMode])
    requires WithoutActionsMode in attrs && !Truthy(attrs[WithoutActionsMode])
    ensures CheckConfig(attrs) == Checked(attrs, true)
  {
  }

  /** Only the four mode flags can change; every other attribute keeps its value, and no key disappears. */
  lemma CheckConfigFrame(attrs: map<string, Value>, k: string)
    requires !IsModeFlag(k)
    ensures k in CheckConfig(attrs).attrs <==> k in attrs
    ensures k in attrs ==> CheckConfig(attrs).attrs[k] == attrs[k]
    ensures attrs.Keys <= CheckConfig(attrs).attrs.Keys
  {
  }

  /** Normalising a normalised configuration changes nothing. */
  lemma CheckConfigIdempotent(attrs: map<string, Value>)
    requires CheckConfig(attrs).ok
    ensures CheckConfig(CheckConfig(attrs).attrs) == CheckConfig(attrs)
  {
    var r := CheckConfig(attrs).attrs;
    var f := VBool(false);
    if Truthy(attrs[WithoutActionsMode]) {
      assert r[LimitSpeedMode := f][AdjustTrafficLightMode := f][WeightRoutingMode := f][LockAreaMode := f] == r;
    } else if Truthy(attrs[WeightRoutingMode]) {
      assert r[LimitSpeedMode := f][AdjustTrafficLightMode := f][LockAreaMode := f] == r;
    }
  }

  /** `ref200`: the emissions of the reference simulation over 200 steps. */
  function Ref200(): Emission {
    Emission(42816869.05436445, 1128465.0343051048, 18389.648337283958, 6154.330914019103, 885.0829265236318)
  }

  /** Python's `v == 200`: an int or a float of that value (a bool is never equal to 200). */
  predicate Is200(v: Value) {
    v == VInt(200) || v == VFloat(200.0)
  }

  /** `get_ref_emissions`: `ref200` for a 200-step run, else `None`; AttributeError without `n_steps`. */
  function RefEmissions(attrs: map<string, Value>): (r: Result<Option<Emission>, string>)
    ensures r.Failure? <==> NSteps !in attrs
    ensures r.Success? ==> (r.value.Some? <==> Is200(attrs[NSteps]))
    ensures r.Success? && r.value.Some? ==> r.value.value == Ref200()
  {
    if NSteps !in attrs then Failure(NSteps)
    else if attrs[NSteps] == VInt(200) || attrs[NSteps] == VFloat(200.0) then Success(Some(Ref200()))
    else Success(None)
  }

  /** The typed settings the run, the grid and the decision rule read. */
  datatype Settings = Settings(
    nSteps: int, windowSize: int, emissionsThreshold: real,
    limitSpeedMode: bool, speedRf: real,
    adjustTrafficLightMode: bool, trafficLightsDurationRf: real,
    lockAreaMode: bool, weightRoutingMode: bool, withoutActionsMode: bool)

  /** A number read as a real; ints and floats compare and multiply alike. */
  function AsReal(v: Value): Option<real> {
    match v
    case VInt(i) => Some(i as real)
    case VFloat(r) => Some(r)
    case _ => None
  }

  function AsInt(v: Value): Option<int> {
    if v.VInt? then Some(v.i) else None
  }

  /** The settings, when every attribute the run reads is present with a usable type. */
  function SettingsOf(attrs: map<string, Value>): (r: Option<Settings>)
    ensures r.Some? ==> LimitSpeedMode in attrs && r.value.limitSpeedMode == Truthy(attrs[LimitSpeedMode])
    ensures r.Some? ==> AdjustTrafficLightMode in attrs && r.value.adjustTrafficLightMode == Truthy(attrs[AdjustTrafficLightMode])
    ensures r.Some? ==> LockAreaMode in attrs && r.value.lockAreaMode == Truthy(attrs[LockAreaMode])
    ensures r.Some? ==> WeightRoutingMode in attrs && r.value.weightRoutingMode == Truthy(attrs[WeightRoutingMode])
    ensures r.Some? ==> WithoutActionsMode in attrs && r.value.withoutActionsMode == Truthy(attrs[WithoutActionsMode])
  {
    if NSteps in attrs && WindowSize in attrs && EmissionsThreshold in attrs && LimitSpeedMode in attrs &&
       SpeedRf in attrs && AdjustTrafficLightMode in attrs && TrafficLightsDurationRf in attrs &&
       LockAreaMode in attrs && WeightRoutingMode in attrs && WithoutActionsMode in attrs &&
       AsInt(attrs[NSteps]).Some? && AsInt(attrs[WindowSize]).Some? && AsReal(attrs[EmissionsThreshold]).Some? &&
       AsReal(attrs[SpeedRf]).Some? && AsReal(attrs[TrafficLightsDurationRf]).Some?
    then
      Some(Settings(
        AsInt(attrs[NSteps]).value, AsInt(attrs[WindowSize]).value, AsReal(attrs[EmissionsThreshold]).value,
        Truthy(attrs[LimitSpeedMode]), AsReal(attrs[SpeedRf]).value,
        Truthy(attrs[AdjustTrafficLightMode]), AsReal(attrs[TrafficLightsDurationRf]).value,
        Truthy(attrs[LockAreaMode]), Truthy(attrs[WeightRoutingMode]), Truthy(attrs[WithoutActionsMode])))
    else None
  }

  /** Settings whose modes obey the precedence `check_config` establishes. */
  predicate Normalised(s: Settings) {
    (s.weightRoutingMode ==> !s.limitSpeedMode && !s.adjustTrafficLightMode && !s.lockAreaMode) &&
    (s.withoutActionsMode ==> !s.limitSpeedMode && !s.adjustTrafficLightMode && !s.lockAreaMode && !s.weightRoutingMode)
  }

  /** Whatever the file said, the settings read after `check_config` obey the precedence. */
  lemma CheckedSettingsNormalised(attrs: map<string, Value>)
    requires CheckConfig(attrs).ok && SettingsOf(CheckConfig(attrs).attrs).Some?
    ensures Normalised(SettingsOf(CheckConfig(attrs).attrs).value)
  {
  }

  /** The path `import_config_file` opens. */
  function ConfigPath(configFile: string): string {
    "files/configs/" + configFile + ".json"
  }

  /** The configuration object, whose attributes are set one by one. */
  class Config {
    var attrs: map<string, Value>

    /** `Config()`: no instance attribute yet (`ref200` is a class attribute). */
    constructor ()
      ensures attrs == map[]
    {
      attrs := map[];
    }

    /** `check_config`: the flags are overwritten in place, in the order of the source. */
    method CheckConfigIn() returns (ok: bool)
      modifies this
      ensures Checked(attrs, ok) == CheckConfig(old(attrs))
    {
      if WeightRoutingMode !in attrs {
        return false;
      }
      if Truthy(attrs[WeightRoutingMode]) {
        attrs := attrs[LimitSpeedMode := VBool(false)];
        attrs := attrs[AdjustTrafficLightMode := VBool(false)];
        attrs := attrs[LockAreaMode := VBool(false)];
      }
      if WithoutActionsMode !in attrs {
        return false;
      }
      if Truthy(attrs[WithoutActionsMode]) {
        attrs := attrs[LimitSpeedMode := VBool(false)];
        attrs := attrs[AdjustTrafficLightMode := VBool(false)];
        attrs := attrs[WeightRoutingMode := VBool(false)];
        attrs := attrs[LockAreaMode := VBool(false)];
      }
      ok := true;
    }

    /**
     * `import_config_file(config_file)`, given the decoded JSON object of the file as its list of
     * key/value pairs: one attribute per key, then the file name, then `check_config`.
     */
    method ImportConfigFile(configFile: string, data: seq<(string, Value)>) returns (ok: bool)
      modifies this
      ensures Checked(attrs, ok) ==
                CheckConfig(Apply(old(attrs), data)[ConfigFilename := VStr(Basename(ConfigPath(configFile)))])
    {
      var i := 0;
      while i < |data|
        invariant 0 <= i <= |data|
        invariant attrs == Apply(old(attrs), data[..i])
      {
        attrs := attrs[data[i].0 := data[i].1];
        ApplySnoc(old(attrs), data, i);
        i := i + 1;
      }
      assert data[..i] == data;
      attrs := attrs[ConfigFilename := VStr(Basename(ConfigPath(configFile)))];
      ok := CheckConfigIn();
    }

    /** `get_ref_emissions` */
    function GetRefEmissions(): (r: Result<Option<Emission>, string>)
      reads this
      ensures r.Success? && r.value.Some? ==> NSteps in attrs && Is200(attrs[NSteps]) && r.value.value == Ref200()
      ensures r.Success? && r.value.None? ==> NSteps in attrs && !Is200(attrs[NSteps])
    {
      RefEmissions(attrs)
    }
  }

  /**
   * After an import, every key of the file other than the mode flags and `config_filename` holds
   * the value the file gave it last; the file name is the base name of the opened path.
   */
  lemma ImportSetsEachKey(old_attrs: map<string, Value>, configFile: string, data: seq<(string, Value)>, k: string)
    requires k in KeysOf(data) && !IsModeFlag(k) && k != ConfigFilename
    ensures var r := CheckConfig(Apply(old_attrs, data)[ConfigFilename := VStr(Basename(ConfigPath(configFile)))]).attrs;
            k in r && LastWrite(data, k).Some? && r[k] == LastWrite(data, k).value
  {
    ApplyLookup(old_attrs, data, k);
    CheckConfigFrame(Apply(old_attrs, data)[ConfigFilename := VStr(Basename(ConfigPath(configFile)))], k);
  }

  /** The recorded file name is the configuration's name with the `.json` extension. */
  lemma ConfigFilenameIsBase(configFile: string)
    requires forall c :: c in configFile ==> c != '/'
    ensures Basename(ConfigPath(configFile)) == configFile + ".json"
  {
    var p := ConfigPath(configFile);
    assert p == "files/configs/" + (configFile + ".json");
    BasenameAfterSlash("files/configs/", configFile + ".json");
  }
}

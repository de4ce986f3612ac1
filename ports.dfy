/** The hardware ports of `quam/components/ports/`: each port knows its
    address (`port_tuple`), the properties it contributes to the QUA
    config, and where in `config["controllers"]` those properties live. */
module Ports {
  import opened Wrappers
  import opened JsonValue

  /** The concrete port classes. */
  datatype PortClass =
    | OpxPlusAnalogOutput
    | OpxPlusAnalogInput
    | OpxPlusDigitalOutput
    | OpxPlusDigitalInput
    | LfFemAnalogOutput
    | LfFemAnalogInput
    | MwFemAnalogOutput
    | MwFemAnalogInput
    | FemDigitalOutput

  predicate IsFemClass(c: PortClass) {
    c.LfFemAnalogOutput? || c.LfFemAnalogInput? || c.MwFemAnalogOutput?
    || c.MwFemAnalogInput? || c.FemDigitalOutput?
  }

  /** The class variable `port_type`. */
  function PortType(c: PortClass): string {
    match c
    case OpxPlusAnalogOutput => "analog_output"
    case LfFemAnalogOutput => "analog_output"
    case MwFemAnalogOutput => "analog_output"
    case OpxPlusAnalogInput => "analog_input"
    case LfFemAnalogInput => "analog_input"
    case MwFemAnalogInput => "analog_input"
    case OpxPlusDigitalOutput => "digital_output"
    case FemDigitalOutput => "digital_output"
    case OpxPlusDigitalInput => "digital_input"
  }

  /** `(controller_id, port_id)` of an OPX+ port or
      `(controller_id, fem_id, port_id)` of a FEM port. */
  datatype Address =
    | OpxPlusAddress(controller: Key, port: int)
    | FemAddress(controller: Key, fem: int, port: int)

  /** A port: its class, address, the class-level `fem_type` (no class
      shipped sets one; the check that uses it is kept) and its attribute
      values by name. */
  datatype Port = Port(cls: PortClass, address: Address, femType: Option<string>, attrs: Obj)

  function KeyJson(k: Key): Json {
    match k
    case KStr(s) => JStr(s)
    case KInt(i) => JInt(i)
  }

  /** `port_tuple`. */
  function PortTuple(a: Address): (r: seq<Json>)
    ensures |r| == if a.OpxPlusAddress? then 2 else 3
    ensures r[0] == KeyJson(a.controller) && r[|r| - 1] == JInt(a.port)
    ensures a.FemAddress? ==> r[1] == JInt(a.fem)
  {
    match a
    case OpxPlusAddress(c, p) => [KeyJson(c), JInt(p)]
    case FemAddress(c, f, p) => [KeyJson(c), JInt(f), JInt(p)]
  }

  /** The port a tuple such as `("con1", 2)` or `("con1", 1, 2)` names:
      two elements address an OPX+ port, three a FEM port. */
  function AddressOfTuple(t: seq<Json>): (r: Option<Address>)
  {
    if |t| == 2 && (t[0].JStr? || t[0].JInt?) && t[1].JInt? then
      Some(OpxPlusAddress(if t[0].JStr? then KStr(t[0].s) else KInt(t[0].i), t[1].i))
    else if |t| == 3 && (t[0].JStr? || t[0].JInt?) && t[1].JInt? && t[2].JInt? then
      Some(FemAddress(if t[0].JStr? then KStr(t[0].s) else KInt(t[0].i), t[1].i, t[2].i))
    else None
  }

  /** `port_tuple` loses nothing: the address can be read back from it. */
  lemma PortTupleNamesAddress(a: Address)
    ensures AddressOfTuple(PortTuple(a)) == Some(a)
  {
  }

  // Declared attributes of each class, with their defaults.

  const LfOutputDefaults: Obj := map[
    KStr("offset") := JFloat(0.0), KStr("delay") := JInt(0), KStr("crosstalk") := JObj(map[]),
    KStr("feedforward_filter") := JList([]), KStr("feedback_filter") := JList([]), KStr("shareable") := JBool(false)]
  const LfFemOutputExtras: Obj := map[
    KStr("sampling_rate") := JFloat(1000000000.0), KStr("upsampling_mode") := JStr("mw"),
    KStr("output_mode") := JStr("direct")]
  const MwOutputDefaults: Obj := map[
    KStr("upconverter_frequency") := JNull, KStr("upconverters") := JNull, KStr("delay") := JInt(0),
    KStr("shareable") := JBool(false), KStr("sampling_rate") := JFloat(1000000000.0),
    KStr("full_scale_power_dbm") := JInt(-11)]
  const LfInputDefaults: Obj := map[
    KStr("offset") := JFloat(0.0), KStr("gain_db") := JInt(0), KStr("shareable") := JBool(false)]
  const MwInputDefaults: Obj := map[
    KStr("sampling_rate") := JFloat(1000000000.0), KStr("shareable") := JBool(false)]
  const DigitalOutputDefaults: Obj := map[KStr("inverted") := JBool(false), KStr("shareable") := JBool(false)]
  const DigitalInputDefaults: Obj := map[
    KStr("deadtime") := JInt(4), KStr("polarity") := JStr("rising"), KStr("threshold") := JFloat(2.0),
    KStr("shareable") := JBool(false)]

  function Defaults(c: PortClass): Obj {
    match c
    case OpxPlusAnalogOutput => LfOutputDefaults
    case LfFemAnalogOutput => LfOutputDefaults + LfFemOutputExtras
    case MwFemAnalogOutput => MwOutputDefaults
    case OpxPlusAnalogInput => LfInputDefaults
    case LfFemAnalogInput => LfInputDefaults[KStr("sampling_rate") := JFloat(1000000000.0)]
    case MwFemAnalogInput => MwInputDefaults
    case OpxPlusDigitalOutput => DigitalOutputDefaults
    case FemDigitalOutput => DigitalOutputDefaults[KStr("level") := JStr("LVTTL")]
    case OpxPlusDigitalInput => DigitalInputDefaults
  }

  /** Declared attributes without a default. */
  function Required(c: PortClass): set<Key> {
    match c
    case MwFemAnalogOutput => {KStr("band")}
    case MwFemAnalogInput => {KStr("band"), KStr("downconverter_frequency")}
    case _ => {}
  }

  function Fields(c: PortClass): set<Key> {
    Defaults(c).Keys + Required(c)
  }

  /** Properties that `get_port_properties` leaves out when they are `None`. */
  function OmittedWhenNone(c: PortClass): set<Key> {
    match c
    case OpxPlusAnalogOutput => {KStr("offset")}
    case LfFemAnalogOutput => {KStr("offset")}
    case MwFemAnalogOutput => {KStr("upconverter_frequency"), KStr("upconverters")}
    case _ => {}
  }

  /** The dataclass constructor called with the address positionally and
      `kwargs` by name: an unknown or repeated name, or a missing required
      attribute, is a `TypeError`. */
  function Construct(c: PortClass, a: Address, kwargs: Obj): (r: Result<Port>)
    ensures r.Ok? <==> kwargs.Keys <= Fields(c) && Required(c) <= kwargs.Keys
    ensures r.Err? ==> r.error == TypeError
    ensures r.Ok? ==> r.value.cls == c && r.value.address == a && r.value.femType.None?
    ensures r.Ok? ==> r.value.attrs.Keys == Fields(c)
    ensures r.Ok? ==> forall k :: k in kwargs ==> r.value.attrs[k] == kwargs[k]
    ensures r.Ok? ==> forall k :: k in Defaults(c) && k !in kwargs ==> r.value.attrs[k] == Defaults(c)[k]
  {
    if !(kwargs.Keys <= Fields(c)) || !(Required(c) <= kwargs.Keys) then Err(TypeError)
    else Ok(Port(c, a, None, Defaults(c) + kwargs))
  }

  /** Whether `get_port_properties` reports the attribute `k`. */
  predicate Reported(p: Port, k: Key) {
    k in p.attrs && !(k in OmittedWhenNone(p.cls) && p.attrs[k] == JNull)
  }

  /** `get_port_properties`: every declared attribute, except an offset or
      upconverter setting that is `None`. */
  function Properties(p: Port): (r: Obj)
    ensures forall k :: k in r <==> Reported(p, k)
    ensures forall k :: k in r ==> k in p.attrs && r[k] == p.attrs[k]
  {
    map k | k in p.attrs && Reported(p, k) :: p.attrs[k]
  }

  predicate Built(p: Port) {
    p.attrs.Keys == Fields(p.cls) && (IsFemClass(p.cls) <==> p.address.FemAddress?)
  }

  /** An LF output reports delay, crosstalk, both filters and shareable
      always, and offset exactly when it is not `None`. */
  lemma LfOutputProperties(p: Port)
    requires p.cls == OpxPlusAnalogOutput || p.cls == LfFemAnalogOutput
    requires Built(p)
    ensures forall k :: k in {KStr("delay"), KStr("crosstalk"), KStr("feedforward_filter"),
                              KStr("feedback_filter"), KStr("shareable")} ==>
      k in Properties(p) && Properties(p)[k] == p.attrs[k]
    ensures KStr("offset") in Properties(p) <==> p.attrs[KStr("offset")] != JNull
  {
  }

  /** The LF-FEM output reports what an OPX+ output with the same LF
      attributes reports, plus its sampling rate, upsampling and output
      modes. */
  lemma LfFemExtendsLf(lf: Port, fem: Port, extra: Obj)
    requires lf.cls == OpxPlusAnalogOutput && fem.cls == LfFemAnalogOutput
    requires extra.Keys == LfFemOutputExtras.Keys && fem.attrs == lf.attrs + extra
    ensures Properties(fem) == Properties(lf) + extra
  {
    assert KStr("offset") !in extra;
    SameEntries(Properties(fem), Properties(lf) + extra);
  }

  lemma SameEntries(a: Obj, b: Obj)
    requires forall k :: k in a ==> k in b && b[k] == a[k]
    requires forall k :: k in b ==> k in a
    ensures a == b
  {
  }

  /** The MW-FEM output always reports band, delay, shareable, sampling
      rate and full-scale power, and each upconverter setting exactly when
      it is not `None`. */
  lemma MwOutputProperties(p: Port)
    requires p.cls == MwFemAnalogOutput && Built(p)
    ensures forall k :: k in {KStr("band"), KStr("delay"), KStr("shareable"), KStr("sampling_rate"),
                              KStr("full_scale_power_dbm")} ==>
      k in Properties(p) && Properties(p)[k] == p.attrs[k]
    ensures KStr("upconverter_frequency") in Properties(p) <==> p.attrs[KStr("upconverter_frequency")] != JNull
    ensures KStr("upconverters") in Properties(p) <==> p.attrs[KStr("upconverters")] != JNull
  {
  }

  // Where a port's properties sit in the QUA config.

  const ControllersKey: Key := KStr("controllers")
  const FemsKey: Key := KStr("fems")
  const TypeKey: Key := KStr("type")

  /** `f"{port_type}s"`. */
  function PortsKey(c: PortClass): Key {
    KStr(PortType(c) + "s")
  }

  /** `controllers/<ctrl>/fems/<fem>`. */
  function FemPath(a: Address): seq<Key>
    requires a.FemAddress?
  {
    [ControllersKey, a.controller, FemsKey, KInt(a.fem)]
  }

  /** The dict holding the port's entry. */
  function PortsDictPath(p: Port): (r: seq<Key>)
    ensures |r| >= 3 && r[0] == ControllersKey
  {
    match p.address
    case OpxPlusAddress(c, _) => [ControllersKey, c, PortsKey(p.cls)]
    case FemAddress(_, _, _) => FemPath(p.address) + [PortsKey(p.cls)]
  }

  function PortPath(p: Port): seq<Key> {
    PortsDictPath(p) + [KInt(p.address.port)]
  }

  /** The outcome of an operation that mutates the config in place: the
      state it leaves behind is kept even when it raises. */
  datatype ConfigOutcome<T> = ConfigOutcome(result: Result<T>, cfg: Obj)

  /** `ports_cfg.setdefault(port_id, {})` once the ports dict exists. */
  function LeafSetDefault(c: Obj, dictPath: seq<Key>, k: Key): (r: ConfigOutcome<Json>)
    requires dictPath != [] && Lookup(c, dictPath).Ok? && Lookup(c, dictPath).value.JObj?
    ensures r.result.Ok? && Lookup(r.cfg, dictPath + [k]) == r.result
    ensures r.cfg.Keys == c.Keys + {dictPath[0]}
    ensures k in Lookup(c, dictPath).value.fields ==> r == ConfigOutcome(Ok(Lookup(c, dictPath).value.fields[k]), c)
  {
    var ports := Lookup(c, dictPath).value.fields;
    if k in ports then
      LookupStep(c, dictPath, k);
      ConfigOutcome(Ok(ports[k]), c)
    else
      UpdateUnder(c, dictPath, k, JObj(map[]));
      ConfigOutcome(Ok(JObj(map[])), Update(c, dictPath + [k], JObj(map[])).value)
  }

  /** Looking one step further below a dict that `path` reaches. */
  lemma {:induction false} LookupStep(m: Obj, path: seq<Key>, k: Key)
    requires path != [] && Lookup(m, path).Ok? && Lookup(m, path).value.JObj?
    requires k in Lookup(m, path).value.fields
    ensures Lookup(m, path + [k]) == Ok(Lookup(m, path).value.fields[k])
    decreases |path|
  {
    assert (path + [k])[0] == path[0];
    if |path| > 1 {
      assert (path + [k])[1..] == path[1..] + [k];
      LookupStep(m[path[0]].fields, path[1..], k);
    } else {
      assert (path + [k])[1..] == [k];
    }
  }

  /** `get_port_config(config, create=True)`: the `setdefault` chain down
      to the port's entry, which it returns. `config["controllers"]` must
      exist (`KeyError`); an existing non-dict on the way is an
      `AttributeError`; a FEM recorded with another type than the class's
      `fem_type` is a `ValueError`. */
  function GetPortConfigCreate(cfg: Obj, p: Port): (r: ConfigOutcome<Json>)
    ensures ControllersKey !in cfg ==> r == ConfigOutcome(Err(KeyError), cfg)
    ensures r.result.Ok? ==> Lookup(r.cfg, PortPath(p)) == r.result
    ensures r.result.Ok? ==> r.cfg.Keys == cfg.Keys
    ensures r.result.Err? ==> r.result.error in {KeyError, AttributeError, ValueError}
  {
    if ControllersKey !in cfg then ConfigOutcome(Err(KeyError), cfg)
    else match p.address
      case OpxPlusAddress(_, port) =>
        (match SetDefaultDicts(cfg, PortsDictPath(p))
         case Err(e) => ConfigOutcome(Err(e), cfg)
         case Ok(c1) => LeafSetDefault(c1, PortsDictPath(p), KInt(port)))
      case FemAddress(_, _, port) =>
        match SetDefaultDicts(cfg, FemPath(p.address))
        case Err(e) => ConfigOutcome(Err(e), cfg)
        case Ok(c1) =>
          var fem := Lookup(c1, FemPath(p.address)).value.fields;
          if p.femType.Some? && TypeKey in fem && fem[TypeKey] != JStr(p.femType.value) then
            ConfigOutcome(Err(ValueError), c1)
          else
            var c2 := FemTypeRecorded(c1, p);
            match SetDefaultChild(c2, FemPath(p.address), PortsKey(p.cls))
            case Err(e) => ConfigOutcome(Err(e), c2)
            case Ok(c3) => LeafSetDefault(c3, PortsDictPath(p), KInt(port))
  }

  /** `d.setdefault(k, {})` on the dict `d` that `path` reaches, where the
      result must be a dict to continue the chain. */
  function SetDefaultChild(c: Obj, path: seq<Key>, k: Key): (r: Result<Obj>)
    requires path != [] && Lookup(c, path).Ok? && Lookup(c, path).value.JObj?
    ensures r.Ok? ==> Lookup(r.value, path + [k]).Ok? && Lookup(r.value, path + [k]).value.JObj?
    ensures r.Ok? ==> r.value.Keys == c.Keys + {path[0]}
    ensures r.Err? ==> r.error == AttributeError
    ensures k in Lookup(c, path).value.fields ==>
      r == if Lookup(c, path).value.fields[k].JObj? then Ok(c) else Err(AttributeError)
    ensures k !in Lookup(c, path).value.fields ==> r == Update(c, path + [k], JObj(map[]))
  {
    var d := Lookup(c, path).value.fields;
    LookupStepOrUpdate(c, path, k);
    if k in d then
      if d[k].JObj? then Ok(c) else Err(AttributeError)
    else
      Update(c, path + [k], JObj(map[]))
  }

  lemma LookupStepOrUpdate(c: Obj, path: seq<Key>, k: Key)
    requires path != [] && Lookup(c, path).Ok? && Lookup(c, path).value.JObj?
    ensures k in Lookup(c, path).value.fields ==> Lookup(c, path + [k]) == Ok(Lookup(c, path).value.fields[k])
    ensures Update(c, path + [k], JObj(map[])).Ok?
    ensures Lookup(Update(c, path + [k], JObj(map[])).value, path + [k]) == Ok(JObj(map[]))
  {
    if k in Lookup(c, path).value.fields {
      LookupStep(c, path, k);
    }
    UpdateUnder(c, path, k, JObj(map[]));
  }

  /** `fem_cfg["type"] = fem_type` when the class has one. */
  function FemTypeRecorded(c1: Obj, p: Port): (c2: Obj)
    requires p.address.FemAddress?
    requires Lookup(c1, FemPath(p.address)).Ok? && Lookup(c1, FemPath(p.address)).value.JObj?
    ensures c2.Keys == c1.Keys
    ensures Lookup(c2, FemPath(p.address)).Ok? && Lookup(c2, FemPath(p.address)).value.JObj?
    ensures p.femType.None? ==> c2 == c1
    ensures p.femType.Some? ==> Lookup(c2, FemPath(p.address) + [TypeKey]) == Ok(JStr(p.femType.value))
  {
    if p.femType.None? then c1
    else
      UpdateUnder(c1, FemPath(p.address), TypeKey, JStr(p.femType.value));
      var c2 := Update(c1, FemPath(p.address) + [TypeKey], JStr(p.femType.value)).value;
      LookupStep(c2, FemPath(p.address), TypeKey);
      c2
  }

  /** Once the entry exists (and a FEM already carries the class's type),
      `get_port_config(create=True)` returns it and changes nothing. */
  lemma GetPortConfigReuses(cfg: Obj, p: Port)
    requires Lookup(cfg, PortPath(p)).Ok?
    requires p.address.FemAddress? && p.femType.Some? ==>
      Lookup(cfg, FemPath(p.address) + [TypeKey]) == Ok(JStr(p.femType.value))
    ensures GetPortConfigCreate(cfg, p) == ConfigOutcome(Lookup(cfg, PortPath(p)), cfg)
  {
    var dp := PortsDictPath(p);
    LookupPrefix(cfg, dp, KInt(p.address.port));
    SetDefaultDictsKeepsExisting(cfg, dp);
    if p.address.FemAddress? {
      var fp := FemPath(p.address);
      assert dp == fp + [PortsKey(p.cls)];
      LookupPrefix(cfg, fp, PortsKey(p.cls));
      SetDefaultDictsKeepsExisting(cfg, fp);
      if p.femType.Some? {
        LookupPrefix(cfg, fp, TypeKey);
        UpdateSame(cfg, fp + [TypeKey], JStr(p.femType.value));
      }
    }
  }

  /** A FEM recorded with a different type is refused. */
  lemma FemTypeConflict(cfg: Obj, p: Port, t: string, recorded: Json)
    requires p.address.FemAddress? && p.femType == Some(t)
    requires Lookup(cfg, FemPath(p.address) + [TypeKey]) == Ok(recorded) && recorded != JStr(t)
    ensures GetPortConfigCreate(cfg, p).result == Err(ValueError)
  {
    var fp := FemPath(p.address);
    LookupPrefix(cfg, fp, TypeKey);
    SetDefaultDictsKeepsExisting(cfg, fp);
  }

  /** `get_port_config(config, create=False)` as written: a missing entry
      is a `KeyError`. The OPX+ branch looks under `"<port_type>"`, not
      the `"<port_type>s"` key that the create branch fills. */
  function GetPortConfigLookup(cfg: Obj, p: Port): (r: Result<Json>)
    ensures p.address.FemAddress? ==> r == Lookup(cfg, PortPath(p))
  {
    match p.address
    case OpxPlusAddress(c, port) => Lookup(cfg, [ControllersKey, c, KStr(PortType(p.cls)), KInt(port)])
    case FemAddress(_, _, _) => Lookup(cfg, PortPath(p))
  }

  /** The lookup the OPX+ branch evidently intends: the key the create
      branch writes. */
  function GetPortConfigLookupIntended(cfg: Obj, p: Port): (r: Result<Json>)
    ensures p.address.FemAddress? ==> r == GetPortConfigLookup(cfg, p)
    ensures ControllersKey !in cfg ==> r == Err(KeyError)
  {
    Lookup(cfg, PortPath(p))
  }

  /** With the intended key, a lookup finds exactly what the create branch
      made, for both kinds of port. */
  lemma CreatedPortConfigFound(cfg: Obj, p: Port)
    requires GetPortConfigCreate(cfg, p).result.Ok?
    ensures GetPortConfigLookupIntended(GetPortConfigCreate(cfg, p).cfg, p) == GetPortConfigCreate(cfg, p).result
  {
  }

  /** An OPX+ output port `("con1", 1)` and a config with no controller
      entries yet. */
  const SampleOpxPort: Port := Port(OpxPlusAnalogOutput, OpxPlusAddress(KStr("con1"), 1), None, LfOutputDefaults)
  const EmptyControllers: Obj := map[ControllersKey := JObj(map[])]

  /** The create branch fills `controllers/con1/analog_outputs/1`. */
  lemma OpxPlusCreateFromEmpty()
    ensures GetPortConfigCreate(EmptyControllers, SampleOpxPort) == ConfigOutcome(Ok(JObj(map[])),
      map[ControllersKey := JObj(map[KStr("con1") := JObj(map[KStr("analog_outputs") := JObj(map[KInt(1) := JObj(map[])])])])])
  {
    var p, cfg := SampleOpxPort, EmptyControllers;
    var c, ao := KStr("con1"), KStr("analog_outputs");
    var e: Obj := map[];
    var dp := [ControllersKey, c, ao];
    assert PortsKey(p.cls) == ao;
    assert PortsDictPath(p) == dp;
    assert dp[1..] == [c, ao] && [c, ao][1..] == [ao] && [ao][1..] == [];
    assert SetDefaultDicts(e, []) == Ok(e);
    assert SetDefaultDicts(e, [ao]) == Ok(map[ao := JObj(e)]);
    assert SetDefaultDicts(e, [c, ao]) == Ok(map[c := JObj(map[ao := JObj(e)])]);
    var c1 := map[ControllersKey := JObj(map[c := JObj(map[ao := JObj(e)])])];
    assert cfg[ControllersKey := JObj(map[c := JObj(map[ao := JObj(e)])])] == c1;
    assert SetDefaultDicts(cfg, dp) == Ok(c1);
    assert Lookup(c1, dp) == Ok(JObj(e));
    var path := dp + [KInt(1)];
    assert path[1..] == [c, ao, KInt(1)] && [c, ao, KInt(1)][1..] == [ao, KInt(1)] && [ao, KInt(1)][1..] == [KInt(1)];
    assert Update(e, [KInt(1)], JObj(e)) == Ok(map[KInt(1) := JObj(e)]);
    assert map[ao := JObj(e)][ao := JObj(map[KInt(1) := JObj(e)])] == map[ao := JObj(map[KInt(1) := JObj(e)])];
    assert Update(map[ao := JObj(e)], [ao, KInt(1)], JObj(e)) == Ok(map[ao := JObj(map[KInt(1) := JObj(e)])]);
    var inner := map[c := JObj(map[ao := JObj(map[KInt(1) := JObj(e)])])];
    assert map[c := JObj(map[ao := JObj(e)])][c := JObj(map[ao := JObj(map[KInt(1) := JObj(e)])])] == inner;
    assert Update(map[c := JObj(map[ao := JObj(e)])], [c, ao, KInt(1)], JObj(e)) == Ok(inner);
    assert c1[ControllersKey := JObj(inner)] == map[ControllersKey := JObj(inner)];
    assert Update(c1, path, JObj(e)) == Ok(map[ControllersKey := JObj(inner)]);
  }

  /** As written, the OPX+ lookup misses the entry the create branch made
      in an empty config. */
  lemma OpxPlusLookupMissesCreatedEntry()
    ensures GetPortConfigCreate(EmptyControllers, SampleOpxPort).result == Ok(JObj(map[]))
    ensures GetPortConfigLookup(GetPortConfigCreate(EmptyControllers, SampleOpxPort).cfg, SampleOpxPort) == Err(KeyError)
  {
    OpxPlusCreateFromEmpty();
    var c, ao, a := KStr("con1"), KStr("analog_outputs"), KStr("analog_output");
    var e: Obj := map[];
    var leafs := map[KInt(1) := JObj(e)];
    assert a != ao;
    assert KStr(PortType(SampleOpxPort.cls)) == a;
    var after := map[ControllersKey := JObj(map[c := JObj(map[ao := JObj(leafs)])])];
    var path := [ControllersKey, c, a, KInt(1)];
    assert path[1..] == [c, a, KInt(1)] && [c, a, KInt(1)][1..] == [a, KInt(1)];
    assert Lookup(map[ao := JObj(leafs)], [a, KInt(1)]) == Err(KeyError);
    assert Lookup(map[c := JObj(map[ao := JObj(leafs)])], [c, a, KInt(1)]) == Err(KeyError);
    assert Lookup(after, path) == Err(KeyError);
  }

  /** `_update_port_config`: every property key takes the new value; other
      keys of the entry stay. */
  function UpdatedPortConfig(entry: Obj, props: Obj): (r: Obj)
    ensures r.Keys == entry.Keys + props.Keys
    ensures forall k :: k in props ==> r[k] == props[k]
    ensures forall k :: k in entry && k !in props ==> r[k] == entry[k]
  {
    map k | k in entry.Keys + props.Keys :: if k in props then props[k] else entry[k]
  }

  /** A warning is emitted when some property overwrites a different value. */
  predicate Overwrites(entry: Obj, props: Obj) {
    exists k :: k in props && k in entry && props[k] != entry[k]
  }

  /** `BasePort.apply_to_config`: `get_port_config` followed by
      `_update_port_config`; the result is whether a warning was emitted.
      Writing into an entry that is not a dict is a `TypeError` (every
      port has properties). */
  function ApplyToConfig(cfg: Obj, p: Port): (r: ConfigOutcome<bool>)
    ensures r.result.Ok? <==>
              GetPortConfigCreate(cfg, p).result.Ok? && GetPortConfigCreate(cfg, p).result.value.JObj?
    ensures r.result.Ok? ==>
      Lookup(r.cfg, PortPath(p))
        == Ok(JObj(UpdatedPortConfig(GetPortConfigCreate(cfg, p).result.value.fields, Properties(p))))
      && r.cfg.Keys == cfg.Keys
      && r.result.value == Overwrites(GetPortConfigCreate(cfg, p).result.value.fields, Properties(p))
  {
    var g := GetPortConfigCreate(cfg, p);
    if g.result.Err? then ConfigOutcome(Err(g.result.error), g.cfg)
    else if !g.result.value.JObj? then ConfigOutcome(Err(TypeError), g.cfg)
    else
      var entry := g.result.value.fields;
      UpdateWhereFound(g.cfg, PortPath(p), JObj(UpdatedPortConfig(entry, Properties(p))));
      var r := Update(g.cfg, PortPath(p), JObj(UpdatedPortConfig(entry, Properties(p))));
      ConfigOutcome(Ok(Overwrites(entry, Properties(p))), r.value)
  }

  /** After `apply_to_config` the port's entry holds every property, and
      the entry's other keys are those it had. */
  lemma ApplyWritesProperties(cfg: Obj, p: Port)
    requires ApplyToConfig(cfg, p).result.Ok?
    ensures var after := Lookup(ApplyToConfig(cfg, p).cfg, PortPath(p));
      after.Ok? && after.value.JObj?
      && (forall k :: k in Properties(p) ==> k in after.value.fields && after.value.fields[k] == Properties(p)[k])
      && (forall k :: k !in Properties(p) ==>
            (k in after.value.fields <==> k in GetPortConfigCreate(cfg, p).result.value.fields))
    ensures ApplyToConfig(cfg, p).cfg.Keys == cfg.Keys
  {
  }

  /** Applying the same port twice changes nothing more, and the second
      time no value is overwritten, so no warning is emitted. */
  lemma ApplyToConfigIdempotent(cfg: Obj, p: Port)
    requires ApplyToConfig(cfg, p).result.Ok?
    ensures ApplyToConfig(ApplyToConfig(cfg, p).cfg, p) == ConfigOutcome(Ok(false), ApplyToConfig(cfg, p).cfg)
  {
    var g := GetPortConfigCreate(cfg, p);
    var entry := UpdatedPortConfig(g.result.value.fields, Properties(p));
    var c1 := ApplyToConfig(cfg, p).cfg;
    var path := PortPath(p);
    if p.address.FemAddress? && p.femType.Some? {
      FemTypeAfterApply(cfg, p);
    }
    GetPortConfigReuses(c1, p);
    UpdatedTwice(g.result.value.fields, Properties(p));
    UpdateSame(c1, path, JObj(entry));
  }

  /** Re-applying the same properties overwrites nothing. */
  lemma UpdatedTwice(entry: Obj, props: Obj)
    ensures UpdatedPortConfig(UpdatedPortConfig(entry, props), props) == UpdatedPortConfig(entry, props)
    ensures !Overwrites(UpdatedPortConfig(entry, props), props)
  {
  }

  /** After `apply_to_config`, a FEM carries the class's type. */
  lemma FemTypeAfterApply(cfg: Obj, p: Port)
    requires p.address.FemAddress? && p.femType.Some?
    requires ApplyToConfig(cfg, p).result.Ok?
    ensures Lookup(ApplyToConfig(cfg, p).cfg, FemPath(p.address) + [TypeKey]) == Ok(JStr(p.femType.value))
  {
    var g := GetPortConfigCreate(cfg, p);
    var entry := UpdatedPortConfig(g.result.value.fields, Properties(p));
    var fp := FemPath(p.address);
    var rest := [PortsKey(p.cls), KInt(p.address.port)];
    assert PortPath(p) == fp + rest;
    var after := Update(g.cfg, fp + rest, JObj(entry));
    assert after.Ok? && ApplyToConfig(cfg, p).cfg == after.value by {
      UpdateWhereFound(g.cfg, fp + rest, JObj(entry));
    }
    assert Lookup(g.cfg, fp + [TypeKey]) == Ok(JStr(p.femType.value)) by {
      FemTypeKept(cfg, p);
    }
    FemTypeSurvives(g.cfg, fp, rest, JObj(entry), JStr(p.femType.value));
  }

  /** After a successful `get_port_config`, a FEM carries the class's type. */
  lemma FemTypeKept(cfg: Obj, p: Port)
    requires p.address.FemAddress? && p.femType.Some?
    requires GetPortConfigCreate(cfg, p).result.Ok?
    ensures Lookup(GetPortConfigCreate(cfg, p).cfg, FemPath(p.address) + [TypeKey]) == Ok(JStr(p.femType.value))
  {
    var fp := FemPath(p.address);
    var t := JStr(p.femType.value);
    var c1 := SetDefaultDicts(cfg, fp).value;
    var c2 := FemTypeRecorded(c1, p);
    var dp := PortsDictPath(p);
    assert dp == fp + [PortsKey(p.cls)];
    var c3 := SetDefaultChild(c2, fp, PortsKey(p.cls)).value;
    if PortsKey(p.cls) !in Lookup(c2, fp).value.fields {
      FemTypeSurvives(c2, fp, [PortsKey(p.cls)], JObj(map[]), t);
    }
    var port := KInt(p.address.port);
    if port !in Lookup(c3, dp).value.fields {
      LookupStepOrUpdate(c3, dp, port);
      assert dp + [port] == fp + [PortsKey(p.cls), port];
      FemTypeSurvives(c3, fp, [PortsKey(p.cls), port], JObj(map[]), t);
    }
  }

  /** An update below a FEM's dict, off its `type` key, keeps the type. */
  lemma FemTypeSurvives(c: Obj, fp: seq<Key>, rest: seq<Key>, v: Json, t: Json)
    requires |fp| == 4 && rest != [] && rest[0] != TypeKey
    requires Update(c, fp + rest, v).Ok? && Lookup(c, fp + [TypeKey]) == Ok(t)
    ensures Lookup(Update(c, fp + rest, v).value, fp + [TypeKey]) == Ok(t)
  {
    assert (fp + rest)[..4] == fp && (fp + rest)[4] == rest[0];
    UpdateAlongPath(c, fp + rest, v, 4, TypeKey);
  }

  /** `_update_port_config(port_config, port_properties)` on the entry
      itself: the loop over the properties. */
  method UpdatePortConfig(portConfig: Dict, props: Obj) returns (warned: bool)
    modifies portConfig
    ensures portConfig.data == UpdatedPortConfig(old(portConfig.data), props)
    ensures warned == Overwrites(old(portConfig.data), props)
  {
    ghost var entry := portConfig.data;
    var todo := props.Keys;
    warned := false;
    while todo != {}
      invariant todo <= props.Keys
      invariant portConfig.data.Keys == entry.Keys + (props.Keys - todo)
      invariant forall k :: k in props && k !in todo ==> portConfig.data[k] == props[k]
      invariant forall k :: k in entry && (k !in props || k in todo) ==> portConfig.data[k] == entry[k]
      invariant warned <==> exists k :: k in props && k !in todo && k in entry && props[k] != entry[k]
      decreases todo
    {
      var k :| k in todo;
      if k in portConfig.data && props[k] != portConfig.data[k] {
        warned := true;
      }
      portConfig.data := portConfig.data[k := props[k]];
      todo := todo - {k};
    }
    assert portConfig.data == UpdatedPortConfig(entry, props);
  }

  /** `BasePort.apply_to_config(config)`. */
  method ApplyPortToConfig(p: Port, config: Dict) returns (r: Result<bool>)
    modifies config
    ensures ConfigOutcome(r, config.data) == ApplyToConfig(old(config.data), p)
  {
    var g := GetPortConfigCreate(config.data, p);
    config.data := g.cfg;
    if g.result.Err? {
      return Err(g.result.error);
    }
    if !g.result.value.JObj? {
      return Err(TypeError);
    }
    var entry := new Dict(g.result.value.fields);
    UpdateWhereFound(config.data, PortPath(p), JObj(UpdatedPortConfig(g.result.value.fields, Properties(p))));
    var warned := UpdatePortConfig(entry, Properties(p));
    config.data := Update(config.data, PortPath(p), JObj(entry.data)).value;
    r := Ok(warned);
  }
}

/** The port containers of `quam/components/ports/ports_containers.py`:
    nested dicts of ports, by port type, controller (and FEM) and port
    number, that hand out existing ports and create missing ones on demand,
    and that parse a port reference string back into a port. */
module PortsContainers {
  import opened Wrappers
  import opened JsonValue
  import opened Strings
  import opened Ports

  /** The result of a container call and the container state it leaves. */
  datatype Stored<S> = Stored(result: Result<Port>, state: S)

  /** `controller_id -> port_id -> port` (OPX+). */
  type OpxPlusTable = map<Key, map<int, Port>>
  /** `controller_id -> fem_id -> port_id -> port`. */
  type FemTable = map<Key, map<int, map<int, Port>>>

  // ---------------------------------------------------------------------
  // OPX+ container

  /** The `port_type` names `OPXPlusPortsContainer._get_port` accepts, with
      the port class it builds for each. Each type has its own container
      field, `getattr(self, f"{port_type}s")`; the model keys the fields by
      the class. */
  function OpxPlusClassOf(portType: string): (r: Option<PortClass>)
    ensures r.Some? ==> !IsFemClass(r.value) && PortType(r.value) == portType
  {
    if portType == "analog_output" then Some(OpxPlusAnalogOutput)
    else if portType == "analog_input" then Some(OpxPlusAnalogInput)
    else if portType == "digital_output" then Some(OpxPlusDigitalOutput)
    else if portType == "digital_input" then Some(OpxPlusDigitalInput)
    else None
  }

  const OpxPlusClasses: set<PortClass> :=
    {OpxPlusAnalogOutput, OpxPlusAnalogInput, OpxPlusDigitalOutput, OpxPlusDigitalInput}

  /** The dataclass fields of `OPXPlusPortsContainer`: one table per type. */
  predicate ValidOpxPlusGroups(groups: map<PortClass, OpxPlusTable>) {
    groups.Keys == OpxPlusClasses
  }

  /** `_get_port` on one table: an existing port is returned; a missing one
      is a `KeyError` unless `create`, in which case the controller's dict
      is made by `setdefault` before the port is built from `kwargs`. */
  function OpxPlusTableGet(t: OpxPlusTable, c: PortClass, ctrl: Key, port: int, create: bool, kwargs: Obj)
    : (o: Stored<OpxPlusTable>)
    ensures ctrl in t && port in t[ctrl] ==> o == Stored(Ok(t[ctrl][port]), t)
    ensures !(ctrl in t && port in t[ctrl]) && !create ==> o == Stored(Err(KeyError), t)
    ensures o.result.Ok? ==> ctrl in o.state && port in o.state[ctrl] && o.state[ctrl][port] == o.result.value
  {
    if ctrl in t && port in t[ctrl] then Stored(Ok(t[ctrl][port]), t)
    else if !create then Stored(Err(KeyError), t)
    else
      var ports := if ctrl in t then t[ctrl] else map[];
      match Construct(c, OpxPlusAddress(ctrl, port), kwargs)
      case Err(e) => Stored(Err(e), t[ctrl := ports])
      case Ok(p) => Stored(Ok(p), t[ctrl := ports[port := p]])
  }

  /** A missing port requested with `create`: the controller's dict exists
      afterwards whatever the constructor does, and the port is stored
      only when it is built. */
  lemma OpxPlusTableGetCreates(t: OpxPlusTable, c: PortClass, ctrl: Key, port: int, create: bool, kwargs: Obj)
    requires !(ctrl in t && port in t[ctrl]) && create
    ensures var o := OpxPlusTableGet(t, c, ctrl, port, create, kwargs);
      && o.state.Keys == t.Keys + {ctrl}
      && (forall k :: k in t && k != ctrl ==> o.state[k] == t[k])
      && (o.result.Ok? <==> Construct(c, OpxPlusAddress(ctrl, port), kwargs).Ok?)
      && (o.result.Err? ==> o.result.error == TypeError
                            && o.state[ctrl] == (if ctrl in t then t[ctrl] else map[]))
      && (o.result.Ok? ==>
            o.result == Construct(c, OpxPlusAddress(ctrl, port), kwargs)
            && o.state[ctrl] == (if ctrl in t then t[ctrl] else map[])[port := o.result.value])
  {
  }

  /** `OPXPlusPortsContainer._get_port`: an unknown type is a `ValueError`
      before any lookup; only the type's own table can change. */
  function OpxPlusGetPort(groups: map<PortClass, OpxPlusTable>, ctrl: Key, port: int, portType: string,
                          create: bool, kwargs: Obj): (o: Stored<map<PortClass, OpxPlusTable>>)
    requires ValidOpxPlusGroups(groups)
    ensures OpxPlusClassOf(portType).None? ==> o == Stored(Err(ValueError), groups)
    ensures !create ==> o.state == groups
    ensures OpxPlusClassOf(portType).Some? ==>
      var t := groups[OpxPlusClassOf(portType).value];
      ctrl in t && port in t[ctrl] ==> o == Stored(Ok(t[ctrl][port]), groups)
    ensures ValidOpxPlusGroups(o.state)
    ensures forall c :: c in groups && Some(c) != OpxPlusClassOf(portType) ==> o.state[c] == groups[c]
    ensures o.result.Ok? ==>
      && OpxPlusClassOf(portType).Some?
      && var t := o.state[OpxPlusClassOf(portType).value];
      ctrl in t && port in t[ctrl] && t[ctrl][port] == o.result.value
  {
    match OpxPlusClassOf(portType)
    case None => Stored(Err(ValueError), groups)
    case Some(c) =>
      var s := OpxPlusTableGet(groups[c], c, ctrl, port, create, kwargs);
      assert groups[c := groups[c]] == groups;
      Stored(s.result, groups[c := s.state])
  }

  /** Every port of a table is stored under its own address and has the
      table's class. */
  predicate OpxPlusTablePlaced(t: OpxPlusTable, c: PortClass) {
    forall k, p :: k in t && p in t[k] ==> t[k][p].address == OpxPlusAddress(k, p) && t[k][p].cls == c
  }

  predicate OpxPlusWellPlaced(groups: map<PortClass, OpxPlusTable>) {
    forall c :: c in groups ==> OpxPlusTablePlaced(groups[c], c)
  }

  lemma OpxPlusTableGetPlaced(t: OpxPlusTable, c: PortClass, ctrl: Key, port: int, create: bool, kwargs: Obj)
    requires OpxPlusTablePlaced(t, c)
    ensures var o := OpxPlusTableGet(t, c, ctrl, port, create, kwargs);
      OpxPlusTablePlaced(o.state, c) && (o.result.Ok? ==> o.result.value.address == OpxPlusAddress(ctrl, port))
  {
    var o := OpxPlusTableGet(t, c, ctrl, port, create, kwargs);
    if !(ctrl in t && port in t[ctrl]) && create {
      forall k, p | k in o.state && p in o.state[k]
        ensures o.state[k][p].address == OpxPlusAddress(k, p) && o.state[k][p].cls == c
      {
        if k != ctrl || p != port || o.result.Err? {
          assert o.state[k][p] == t[k][p];
        }
      }
    }
  }

  /** `_get_port` keeps every port at its own address, so the port it
      returns is the one the caller asked for, of the type asked for. */
  lemma OpxPlusGetPortWellPlaced(groups: map<PortClass, OpxPlusTable>, ctrl: Key, port: int, portType: string,
                                 create: bool, kwargs: Obj)
    requires ValidOpxPlusGroups(groups) && OpxPlusWellPlaced(groups)
    ensures var o := OpxPlusGetPort(groups, ctrl, port, portType, create, kwargs);
      OpxPlusWellPlaced(o.state)
      && (o.result.Ok? ==>
            o.result.value.address == OpxPlusAddress(ctrl, port)
            && Some(o.result.value.cls) == OpxPlusClassOf(portType))
  {
    var o := OpxPlusGetPort(groups, ctrl, port, portType, create, kwargs);
    if OpxPlusClassOf(portType).Some? {
      var c := OpxPlusClassOf(portType).value;
      OpxPlusTableGetPlaced(groups[c], c, ctrl, port, create, kwargs);
      assert o.state == groups[c := o.state[c]];
    }
  }

  /** Once a port exists, asking for it again, with or without `create` and
      whatever the keyword arguments, returns it and changes nothing. */
  lemma OpxPlusGetPortRepeat(groups: map<PortClass, OpxPlusTable>, ctrl: Key, port: int, portType: string,
                             create: bool, kwargs: Obj, create2: bool, kwargs2: Obj)
    requires ValidOpxPlusGroups(groups)
    requires OpxPlusGetPort(groups, ctrl, port, portType, create, kwargs).result.Ok?
    ensures var o := OpxPlusGetPort(groups, ctrl, port, portType, create, kwargs);
      OpxPlusGetPort(o.state, ctrl, port, portType, create2, kwargs2) == o
  {
    var o := OpxPlusGetPort(groups, ctrl, port, portType, create, kwargs);
    var c := OpxPlusClassOf(portType).value;
    assert o.state[c := o.state[c]] == o.state;
  }

  // ---------------------------------------------------------------------
  // FEM container

  /** The `port_type` names `FEMPortsContainer._get_port` accepts, with the
      port class it builds for each (`mw_output` and `mw_input` are the
      MW-FEM ports; their own `port_type` is the analog one). */
  function FemClassOf(portType: string): (r: Option<PortClass>)
    ensures r.Some? ==> IsFemClass(r.value)
  {
    if portType == "analog_output" then Some(LfFemAnalogOutput)
    else if portType == "analog_input" then Some(LfFemAnalogInput)
    else if portType == "mw_output" then Some(MwFemAnalogOutput)
    else if portType == "mw_input" then Some(MwFemAnalogInput)
    else if portType == "digital_output" then Some(FemDigitalOutput)
    else None
  }

  const FemClasses: set<PortClass> :=
    {LfFemAnalogOutput, LfFemAnalogInput, MwFemAnalogOutput, MwFemAnalogInput, FemDigitalOutput}

  /** The dataclass fields of `FEMPortsContainer`: one table per type. */
  predicate ValidFemGroups(groups: map<PortClass, FemTable>) {
    groups.Keys == FemClasses
  }

  /** `d.get(k, default)`. */
  function GetOr<K, V>(d: map<K, V>, k: K, default: V): V {
    if k in d then d[k] else default
  }

  const BandKey: Key := KStr("band")
  const UpconverterFrequencyKey: Key := KStr("upconverter_frequency")
  const UpconvertersKey: Key := KStr("upconverters")
  const DownconverterFrequencyKey: Key := KStr("downconverter_frequency")
  /** The 5 GHz default of the MW-FEM converters. */
  const DefaultConverterFrequency: Json := JFloat(5000000000.0)

  /** A new MW output gets a 5 GHz upconverter unless the caller configures
      one. */
  function WithUpconverterDefault(kwargs: Obj): Obj {
    if UpconverterFrequencyKey !in kwargs && UpconvertersKey !in kwargs
    then kwargs[UpconverterFrequencyKey := DefaultConverterFrequency]
    else kwargs
  }

  /** The keyword arguments the MW constructors receive as the code is
      written: `band=kwargs.get("band", 1)` (and, for inputs,
      `downconverter_frequency=kwargs.get(...)`) next to `**kwargs`, so a
      caller who passes one of those names gets a `TypeError` for the
      repeated keyword. */
  function FemConstructorArgsAsWritten(c: PortClass, kwargs: Obj): (r: Result<Obj>)
    ensures c.MwFemAnalogOutput? && BandKey in kwargs ==> r == Err(TypeError)
    ensures c.MwFemAnalogInput? && (BandKey in kwargs || DownconverterFrequencyKey in kwargs) ==> r == Err(TypeError)
  {
    match c
    case MwFemAnalogOutput =>
      var kw := WithUpconverterDefault(kwargs);
      if BandKey in kw then Err(TypeError) else Ok(kw[BandKey := JInt(1)])
    case MwFemAnalogInput =>
      if BandKey in kwargs || DownconverterFrequencyKey in kwargs then Err(TypeError)
      else Ok(kwargs[BandKey := JInt(1)][DownconverterFrequencyKey := DefaultConverterFrequency])
    case _ => Ok(kwargs)
  }

  /** The keyword arguments the constructors are evidently meant to
      receive: the caller's, with band 1 and a 5 GHz converter filled in
      when the caller leaves them out. */
  function FemConstructorArgs(c: PortClass, kwargs: Obj): (r: Obj)
    ensures kwargs.Keys <= r.Keys
    ensures forall k :: k in kwargs ==> r[k] == kwargs[k]
    ensures c.MwFemAnalogOutput? || c.MwFemAnalogInput? ==> BandKey in r && r[BandKey] == GetOr(kwargs, BandKey, JInt(1))
    ensures c.MwFemAnalogInput? ==>
      DownconverterFrequencyKey in r && r[DownconverterFrequencyKey] == GetOr(kwargs, DownconverterFrequencyKey, DefaultConverterFrequency)
    ensures c.MwFemAnalogOutput? && UpconverterFrequencyKey !in kwargs && UpconvertersKey !in kwargs ==>
      UpconverterFrequencyKey in r && r[UpconverterFrequencyKey] == DefaultConverterFrequency
  {
    match c
    case MwFemAnalogOutput =>
      var kw := WithUpconverterDefault(kwargs);
      kw[BandKey := GetOr(kwargs, BandKey, JInt(1))]
    case MwFemAnalogInput =>
      kwargs[BandKey := GetOr(kwargs, BandKey, JInt(1))]
            [DownconverterFrequencyKey := GetOr(kwargs, DownconverterFrequencyKey, DefaultConverterFrequency)]
    case _ => kwargs
  }

  /** Where the code as written does not fail, it passes what was meant. */
  lemma FemConstructorArgsAgree(c: PortClass, kwargs: Obj)
    requires FemConstructorArgsAsWritten(c, kwargs).Ok?
    ensures FemConstructorArgsAsWritten(c, kwargs).value == FemConstructorArgs(c, kwargs)
  {
  }

  /** `get_mw_output(..., create=True, band=1)` cannot create the port as
      written: the band reaches the constructor twice. */
  lemma MwOutputBandTwice()
    ensures FemConstructorArgsAsWritten(MwFemAnalogOutput, map[BandKey := JInt(1)]) == Err(TypeError)
    ensures FemConstructorArgsAsWritten(MwFemAnalogInput, map[BandKey := JInt(1)]) == Err(TypeError)
  {
  }

  /** With the intended arguments every MW port the caller describes with
      declared attributes only is built, with the band it was given (1 by
      default). */
  lemma MwPortsBuilt(c: PortClass, a: Address, kwargs: Obj)
    requires c.MwFemAnalogOutput? || c.MwFemAnalogInput?
    requires kwargs.Keys <= Fields(c)
    ensures Construct(c, a, FemConstructorArgs(c, kwargs)).Ok?
    ensures Construct(c, a, FemConstructorArgs(c, kwargs)).value.attrs[BandKey] == GetOr(kwargs, BandKey, JInt(1))
  {
  }

  /** `_get_port` on one FEM table: an existing port is returned; a missing
      one is a `KeyError` unless `create`, in which case the controller's
      and the FEM's dicts are made by `setdefault` before the port is built
      from `args`. */
  function FemTableGet(t: FemTable, c: PortClass, ctrl: Key, fem: int, port: int, create: bool, args: Obj)
    : (o: Stored<FemTable>)
    ensures ctrl in t && fem in t[ctrl] && port in t[ctrl][fem] ==> o == Stored(Ok(t[ctrl][fem][port]), t)
    ensures !(ctrl in t && fem in t[ctrl] && port in t[ctrl][fem]) && !create ==> o == Stored(Err(KeyError), t)
    ensures o.result.Ok? ==>
      ctrl in o.state && fem in o.state[ctrl] && port in o.state[ctrl][fem] && o.state[ctrl][fem][port] == o.result.value
  {
    if ctrl in t && fem in t[ctrl] && port in t[ctrl][fem] then Stored(Ok(t[ctrl][fem][port]), t)
    else if !create then Stored(Err(KeyError), t)
    else
      var fems := GetOr(t, ctrl, map[]);
      var ports := GetOr(fems, fem, map[]);
      match Construct(c, FemAddress(ctrl, fem, port), args)
      case Err(e) => Stored(Err(e), t[ctrl := fems[fem := ports]])
      case Ok(p) => Stored(Ok(p), t[ctrl := fems[fem := ports[port := p]]])
  }

  /** A missing port requested with `create`: the controller's and the
      FEM's dicts exist afterwards whatever the constructor does, and the
      port is stored only when it is built. */
  lemma FemTableGetCreates(t: FemTable, c: PortClass, ctrl: Key, fem: int, port: int, create: bool, args: Obj)
    requires !(ctrl in t && fem in t[ctrl] && port in t[ctrl][fem]) && create
    ensures var o := FemTableGet(t, c, ctrl, fem, port, create, args);
      var fems := GetOr(t, ctrl, map[]);
      var ports := GetOr(fems, fem, map[]);
      && (o.result.Ok? <==> Construct(c, FemAddress(ctrl, fem, port), args).Ok?)
      && (o.result.Err? ==> o.result.error == TypeError && o.state == t[ctrl := fems[fem := ports]])
      && (o.result.Ok? ==>
            o.result == Construct(c, FemAddress(ctrl, fem, port), args)
            && o.state == t[ctrl := fems[fem := ports[port := o.result.value]]])
  {
  }

  /** `FEMPortsContainer._get_port`, with the MW constructor arguments as
      intended (`FemConstructorArgs`). */
  function FemGetPort(groups: map<PortClass, FemTable>, ctrl: Key, fem: int, port: int, portType: string,
                      create: bool, kwargs: Obj): (o: Stored<map<PortClass, FemTable>>)
    requires ValidFemGroups(groups)
    ensures FemClassOf(portType).None? ==> o == Stored(Err(ValueError), groups)
    ensures !create ==> o.state == groups
    ensures FemClassOf(portType).Some? ==>
      var t := groups[FemClassOf(portType).value];
      ctrl in t && fem in t[ctrl] && port in t[ctrl][fem] ==> o == Stored(Ok(t[ctrl][fem][port]), groups)
    ensures ValidFemGroups(o.state)
    ensures forall c :: c in groups && Some(c) != FemClassOf(portType) ==> o.state[c] == groups[c]
    ensures o.result.Ok? ==>
      && FemClassOf(portType).Some?
      && var t := o.state[FemClassOf(portType).value];
      ctrl in t && fem in t[ctrl] && port in t[ctrl][fem] && t[ctrl][fem][port] == o.result.value
  {
    match FemClassOf(portType)
    case None => Stored(Err(ValueError), groups)
    case Some(c) =>
      var s := FemTableGet(groups[c], c, ctrl, fem, port, create, FemConstructorArgs(c, kwargs));
      assert groups[c := groups[c]] == groups;
      Stored(s.result, groups[c := s.state])
  }

  /** Every port of a table is stored under its own address and has the
      table's class. */
  predicate FemTablePlaced(t: FemTable, c: PortClass) {
    forall k, f, p :: k in t && f in t[k] && p in t[k][f] ==>
      t[k][f][p].address == FemAddress(k, f, p) && t[k][f][p].cls == c
  }

  predicate FemWellPlaced(groups: map<PortClass, FemTable>) {
    forall c :: c in groups ==> FemTablePlaced(groups[c], c)
  }

  lemma FemTableGetPlaced(t: FemTable, c: PortClass, ctrl: Key, fem: int, port: int, create: bool, args: Obj)
    requires FemTablePlaced(t, c)
    ensures var o := FemTableGet(t, c, ctrl, fem, port, create, args);
      FemTablePlaced(o.state, c) && (o.result.Ok? ==> o.result.value.address == FemAddress(ctrl, fem, port))
  {
    var o := FemTableGet(t, c, ctrl, fem, port, create, args);
    if !(ctrl in t && fem in t[ctrl] && port in t[ctrl][fem]) && create {
      FemTableGetCreates(t, c, ctrl, fem, port, create, args);
      var fems := GetOr(t, ctrl, map[]);
      var ports := GetOr(fems, fem, map[]);
      var ports' := if o.result.Ok? then ports[port := o.result.value] else ports;
      assert o.state == t[ctrl := fems[fem := ports']];
      forall k, f, p | k in o.state && f in o.state[k] && p in o.state[k][f]
        ensures o.state[k][f][p].address == FemAddress(k, f, p) && o.state[k][f][p].cls == c
      {
        if k != ctrl {
          assert o.state[k] == t[k];
        } else if f != fem {
          assert o.state[k][f] == fems[f] == t[k][f];
        } else if p != port || o.result.Err? {
          assert o.state[k][f][p] == ports[p] == t[k][f][p];
        }
      }
    }
  }

  /** `_get_port` keeps every port at its own address, so the port it
      returns is the one the caller asked for, of the type asked for. */
  lemma FemGetPortWellPlaced(groups: map<PortClass, FemTable>, ctrl: Key, fem: int, port: int, portType: string,
                             create: bool, kwargs: Obj)
    requires ValidFemGroups(groups) && FemWellPlaced(groups)
    ensures var o := FemGetPort(groups, ctrl, fem, port, portType, create, kwargs);
      FemWellPlaced(o.state)
      && (o.result.Ok? ==>
            o.result.value.address == FemAddress(ctrl, fem, port)
            && Some(o.result.value.cls) == FemClassOf(portType))
  {
    var o := FemGetPort(groups, ctrl, fem, port, portType, create, kwargs);
    if FemClassOf(portType).Some? {
      var c := FemClassOf(portType).value;
      FemTableGetPlaced(groups[c], c, ctrl, fem, port, create, FemConstructorArgs(c, kwargs));
      assert o.state == groups[c := o.state[c]];
    }
  }

  /** Once a port exists, asking for it again, with or without `create` and
      whatever the keyword arguments, returns it and changes nothing. */
  lemma FemGetPortRepeat(groups: map<PortClass, FemTable>, ctrl: Key, fem: int, port: int, portType: string,
                         create: bool, kwargs: Obj, create2: bool, kwargs2: Obj)
    requires ValidFemGroups(groups)
    requires FemGetPort(groups, ctrl, fem, port, portType, create, kwargs).result.Ok?
    ensures var o := FemGetPort(groups, ctrl, fem, port, portType, create, kwargs);
      FemGetPort(o.state, ctrl, fem, port, portType, create2, kwargs2) == o
  {
    var o := FemGetPort(groups, ctrl, fem, port, portType, create, kwargs);
    var c := FemClassOf(portType).value;
    assert o.state[c := o.state[c]] == o.state;
  }

  /** A new MW output made without converter settings runs at 5 GHz. */
  lemma NewMwOutputAtDefaultFrequency(groups: map<PortClass, FemTable>, ctrl: Key, fem: int, port: int,
                                      kwargs: Obj)
    requires ValidFemGroups(groups)
    requires !(ctrl in groups[MwFemAnalogOutput] && fem in groups[MwFemAnalogOutput][ctrl]
               && port in groups[MwFemAnalogOutput][ctrl][fem])
    requires UpconverterFrequencyKey !in kwargs && UpconvertersKey !in kwargs
    requires kwargs.Keys <= Fields(MwFemAnalogOutput)
    ensures var o := FemGetPort(groups, ctrl, fem, port, "mw_output", true, kwargs);
      o.result.Ok? && o.result.value.attrs[UpconverterFrequencyKey] == DefaultConverterFrequency
      && o.result.value.attrs[BandKey] == GetOr(kwargs, BandKey, JInt(1))
  {
    MwPortsBuilt(MwFemAnalogOutput, FemAddress(ctrl, fem, port), kwargs);
  }

  // ---------------------------------------------------------------------
  // Port references

  /** The container field holding ports of a type: `f"{port_type}s"`. */
  function FieldName(portType: string): string {
    portType + "s"
  }

  /** `port_type[:-1]`. */
  function DropLast(s: string): string {
    if |s| == 0 then s else s[..|s| - 1]
  }

  /** A controller id segment: digits become an int, anything else stays a
      string. */
  function ControllerKey(s: string): Key {
    if IsDigits(s) then KInt(DigitsValue(s)) else KStr(s)
  }

  datatype OpxPlusReference = OpxPlusReference(portType: string, ctrl: Key, port: int)
  datatype FemReference = FemReference(portType: string, ctrl: Key, fem: int, port: int)

  /** The parsing half of `OPXPlusPortsContainer.reference_to_port`: the
      last three `/`-separated segments are the type field, the controller
      and the port; fewer segments or a port that is not an int is a
      `ValueError`. */
  function ParseOpxPlusReference(reference: string): (r: Result<OpxPlusReference>)
    ensures r.Err? ==> r.error == ValueError
    ensures |Split(reference, '/')| < 3 ==> r.Err?
  {
    var elems := Split(reference, '/');
    var n := |elems|;
    if n < 3 then Err(ValueError)
    else
      var port :- ParseInt(elems[n - 1]);
      Ok(OpxPlusReference(DropLast(elems[n - 3]), ControllerKey(elems[n - 2]), port))
  }

  /** The parsing half of `FEMPortsContainer.reference_to_port`: the last
      four segments are the type field, controller, FEM and port. */
  function ParseFemReference(reference: string): (r: Result<FemReference>)
    ensures r.Err? ==> r.error == ValueError
    ensures |Split(reference, '/')| < 4 ==> r.Err?
  {
    var elems := Split(reference, '/');
    var n := |elems|;
    if n < 4 then Err(ValueError)
    else
      var fem :- ParseInt(elems[n - 2]);
      var port :- ParseInt(elems[n - 1]);
      Ok(FemReference(DropLast(elems[n - 4]), ControllerKey(elems[n - 3]), fem, port))
  }

  /** Every failure of `reference_to_port`, including the `KeyError` of a
      missing port, is re-raised as a `ValueError`. */
  function AsValueError(r: Result<Port>): (r': Result<Port>)
    ensures r'.Ok? <==> r.Ok?
    ensures r.Ok? ==> r' == r
    ensures r'.Err? ==> r'.error == ValueError
  {
    if r.Ok? then r else Err(ValueError)
  }

  /** `OPXPlusPortsContainer.reference_to_port(reference, create)` for a
      string reference. */
  function OpxPlusReferenceToPort(groups: map<PortClass, OpxPlusTable>, reference: string, create: bool)
    : (o: Stored<map<PortClass, OpxPlusTable>>)
    requires ValidOpxPlusGroups(groups)
    ensures o.result.Err? ==> o.result.error == ValueError
    ensures ParseOpxPlusReference(reference).Err? ==> o == Stored(Err(ValueError), groups)
    ensures ValidOpxPlusGroups(o.state)
  {
    match ParseOpxPlusReference(reference)
    case Err(_) => Stored(Err(ValueError), groups)
    case Ok(x) =>
      var g := OpxPlusGetPort(groups, x.ctrl, x.port, x.portType, create, map[]);
      Stored(AsValueError(g.result), g.state)
  }

  /** `FEMPortsContainer.reference_to_port(reference, create)` for a string
      reference. */
  function FemReferenceToPort(groups: map<PortClass, FemTable>, reference: string, create: bool)
    : (o: Stored<map<PortClass, FemTable>>)
    requires ValidFemGroups(groups)
    ensures o.result.Err? ==> o.result.error == ValueError
    ensures ParseFemReference(reference).Err? ==> o == Stored(Err(ValueError), groups)
    ensures ValidFemGroups(o.state)
  {
    match ParseFemReference(reference)
    case Err(_) => Stored(Err(ValueError), groups)
    case Ok(x) =>
      var g := FemGetPort(groups, x.ctrl, x.fem, x.port, x.portType, create, map[]);
      Stored(AsValueError(g.result), g.state)
  }

  /** A controller id that reads back as itself: a string that is not all
      digits and has no `/`, or a non-negative int. */
  predicate CanonicalController(k: Key) {
    match k
    case KStr(s) => !IsDigits(s) && '/' !in s
    case KInt(i) => i >= 0
  }

  /** The reference a port gets inside a container whose own reference is
      `base`. */
  function OpxPlusPortReference(base: string, portType: string, ctrl: Key, port: int): string {
    base + "/" + FieldName(portType) + "/" + KeyStr(ctrl) + "/" + IntToString(port)
  }

  function FemPortReference(base: string, portType: string, ctrl: Key, fem: int, port: int): string {
    base + "/" + FieldName(portType) + "/" + KeyStr(ctrl) + "/" + IntToString(fem) + "/" + IntToString(port)
  }

  lemma IntToStringHasNoSlash(i: int)
    ensures '/' !in IntToString(i)
  {
    var d := NatToString(if i < 0 then -i else i);
    assert forall j :: 0 <= j < |d| ==> d[j] != '/';
    if i < 0 {
      assert IntToString(i) == "-" + d;
    }
  }

  /** The controller segment of a reference reads back as the controller. */
  lemma ControllerRoundTrip(ctrl: Key)
    requires CanonicalController(ctrl)
    ensures '/' !in KeyStr(ctrl)
    ensures ControllerKey(KeyStr(ctrl)) == ctrl
  {
    if ctrl.KInt? {
      IntToStringHasNoSlash(ctrl.i);
      NatToStringValue(ctrl.i);
    }
  }

  /** The segments of `base/t/c/p` end with `t`, `c`, `p`. */
  lemma SplitLastThree(base: string, t: string, c: string, p: string)
    requires '/' !in t && '/' !in c && '/' !in p
    ensures Split(base + "/" + t + "/" + c + "/" + p, '/') == Split(base, '/') + [t, c, p]
  {
    SplitSnoc(base, '/', t);
    assert base + "/" + t == base + ['/'] + t;
    SplitSnoc(base + "/" + t, '/', c);
    assert base + "/" + t + "/" + c == (base + "/" + t) + ['/'] + c;
    SplitSnoc(base + "/" + t + "/" + c, '/', p);
    assert base + "/" + t + "/" + c + "/" + p == (base + "/" + t + "/" + c) + ['/'] + p;
  }

  /** Parsing the reference of an OPX+ port gives back its type, controller
      and port number. */
  lemma OpxPlusReferenceRoundTrip(base: string, portType: string, ctrl: Key, port: int)
    requires '/' !in portType && CanonicalController(ctrl)
    ensures ParseOpxPlusReference(OpxPlusPortReference(base, portType, ctrl, port))
            == Ok(OpxPlusReference(portType, ctrl, port))
  {
    var t := FieldName(portType);
    ControllerRoundTrip(ctrl);
    IntToStringHasNoSlash(port);
    SplitLastThree(base, t, KeyStr(ctrl), IntToString(port));
    IntToStringParses(port);
    assert DropLast(t) == portType;
  }

  /** Parsing the reference of a FEM port gives back its type, controller,
      FEM and port number. */
  lemma FemReferenceRoundTrip(base: string, portType: string, ctrl: Key, fem: int, port: int)
    requires '/' !in portType && CanonicalController(ctrl)
    ensures ParseFemReference(FemPortReference(base, portType, ctrl, fem, port))
            == Ok(FemReference(portType, ctrl, fem, port))
  {
    var t := FieldName(portType);
    ControllerRoundTrip(ctrl);
    IntToStringHasNoSlash(fem);
    IntToStringHasNoSlash(port);
    SplitLastThree(base + "/" + t, KeyStr(ctrl), IntToString(fem), IntToString(port));
    SplitSnoc(base, '/', t);
    assert base + "/" + t == base + ['/'] + t;
    IntToStringParses(fem);
    IntToStringParses(port);
    assert DropLast(t) == portType;
  }

  lemma PortTypeHasNoSlash(portType: string)
    requires OpxPlusClassOf(portType).Some? || FemClassOf(portType).Some?
    ensures '/' !in portType
  {
  }

  /** Following the reference of an existing OPX+ port returns that port
      and changes nothing; a missing one is a `ValueError` without
      `create`, and is made with the class defaults with it. */
  lemma OpxPlusReferenceFindsPort(groups: map<PortClass, OpxPlusTable>, base: string, portType: string,
                                  ctrl: Key, port: int, create: bool)
    requires ValidOpxPlusGroups(groups)
    requires OpxPlusClassOf(portType).Some? && CanonicalController(ctrl)
    ensures var c := OpxPlusClassOf(portType).value;
      var o := OpxPlusReferenceToPort(groups, OpxPlusPortReference(base, portType, ctrl, port), create);
      && (ctrl in groups[c] && port in groups[c][ctrl] ==> o == Stored(Ok(groups[c][ctrl][port]), groups))
      && (!(ctrl in groups[c] && port in groups[c][ctrl]) && !create ==> o == Stored(Err(ValueError), groups))
      && (!(ctrl in groups[c] && port in groups[c][ctrl]) && create ==>
            o.result.Ok? && o.result.value == Port(c, OpxPlusAddress(ctrl, port), None, Defaults(c)))
  {
    PortTypeHasNoSlash(portType);
    OpxPlusReferenceRoundTrip(base, portType, ctrl, port);
    var g := OpxPlusGetPort(groups, ctrl, port, portType, create, map[]);
    assert OpxPlusReferenceToPort(groups, OpxPlusPortReference(base, portType, ctrl, port), create)
           == Stored(AsValueError(g.result), g.state);
  }

  /** Following the reference of an existing FEM port returns that port and
      changes nothing; a missing one is a `ValueError` without `create`,
      and with it is always built (the MW ports get band 1 and 5 GHz). */
  lemma FemReferenceFindsPort(groups: map<PortClass, FemTable>, base: string, portType: string,
                              ctrl: Key, fem: int, port: int, create: bool)
    requires ValidFemGroups(groups)
    requires FemClassOf(portType).Some? && CanonicalController(ctrl)
    ensures var c := FemClassOf(portType).value;
      var o := FemReferenceToPort(groups, FemPortReference(base, portType, ctrl, fem, port), create);
      var present := ctrl in groups[c] && fem in groups[c][ctrl] && port in groups[c][ctrl][fem];
      && (present ==> o == Stored(Ok(groups[c][ctrl][fem][port]), groups))
      && (!present && !create ==> o == Stored(Err(ValueError), groups))
      && (!present && create ==> o.result.Ok? && o.result.value.address == FemAddress(ctrl, fem, port))
  {
    PortTypeHasNoSlash(portType);
    FemReferenceRoundTrip(base, portType, ctrl, fem, port);
    var g := FemGetPort(groups, ctrl, fem, port, portType, create, map[]);
    assert FemReferenceToPort(groups, FemPortReference(base, portType, ctrl, fem, port), create)
           == Stored(AsValueError(g.result), g.state);
    var c := FemClassOf(portType).value;
    if c.MwFemAnalogOutput? || c.MwFemAnalogInput? {
      MwPortsBuilt(c, FemAddress(ctrl, fem, port), map[]);
    }
  }

  // ---------------------------------------------------------------------
  // The containers

  /** `OPXPlusPortsContainer`: its four dicts of ports, updated in place. */
  class OpxPlusPortsContainer {
    var groups: map<PortClass, OpxPlusTable>

    predicate Valid()
      reads this
    {
      ValidOpxPlusGroups(groups)
    }

    /** Every field starts as an empty dict. */
    constructor()
      ensures Valid() && OpxPlusWellPlaced(groups)
      ensures forall c :: c in groups ==> groups[c] == map[]
    {
      groups := map[OpxPlusAnalogOutput := map[], OpxPlusAnalogInput := map[],
                    OpxPlusDigitalOutput := map[], OpxPlusDigitalInput := map[]];
    }

    /** `_get_port(controller_id, port_id, port_type, create, **kwargs)`. */
    method GetPort(ctrl: Key, port: int, portType: string, create: bool, kwargs: Obj) returns (r: Result<Port>)
      requires Valid()
      modifies this
      ensures Stored(r, groups) == OpxPlusGetPort(old(groups), ctrl, port, portType, create, kwargs)
    {
      var cls := OpxPlusClassOf(portType);
      if cls.None? {
        return Err(ValueError);
      }
      var c := cls.value;
      var controllers: OpxPlusTable := groups[c];
      if ctrl in controllers && port in controllers[ctrl] {
        return Ok(controllers[ctrl][port]);
      }
      if !create {
        return Err(KeyError);
      }
      // `controllers.setdefault(controller_id, {})`.
      var ports := GetOr(controllers, ctrl, map[]);
      var before := groups;
      groups := before[c := controllers[ctrl := ports]];
      var built := Construct(c, OpxPlusAddress(ctrl, port), kwargs);
      if built.Err? {
        return Err(built.error);
      }
      groups := before[c := controllers[ctrl := ports[port := built.value]]];
      r := Ok(built.value);
    }

    /** `reference_to_port(reference, create=create)` for a string
        reference. */
    method ReferenceToPort(reference: string, create: bool) returns (r: Result<Port>)
      requires Valid()
      modifies this
      ensures Stored(r, groups) == OpxPlusReferenceToPort(old(groups), reference, create)
    {
      var parsed := ParseOpxPlusReference(reference);
      if parsed.Err? {
        return Err(ValueError);
      }
      var x := parsed.value;
      var got := GetPort(x.ctrl, x.port, x.portType, create, map[]);
      r := AsValueError(got);
    }

    method GetAnalogOutput(ctrl: Key, port: int, create: bool, kwargs: Obj) returns (r: Result<Port>)
      requires Valid()
      modifies this
      ensures Stored(r, groups) == OpxPlusGetPort(old(groups), ctrl, port, "analog_output", create, kwargs)
    {
      r := GetPort(ctrl, port, "analog_output", create, kwargs);
    }

    method GetAnalogInput(ctrl: Key, port: int, create: bool, kwargs: Obj) returns (r: Result<Port>)
      requires Valid()
      modifies this
      ensures Stored(r, groups) == OpxPlusGetPort(old(groups), ctrl, port, "analog_input", create, kwargs)
    {
      r := GetPort(ctrl, port, "analog_input", create, kwargs);
    }

    method GetDigitalOutput(ctrl: Key, port: int, create: bool, kwargs: Obj) returns (r: Result<Port>)
      requires Valid()
      modifies this
      ensures Stored(r, groups) == OpxPlusGetPort(old(groups), ctrl, port, "digital_output", create, kwargs)
    {
      r := GetPort(ctrl, port, "digital_output", create, kwargs);
    }

    method GetDigitalInput(ctrl: Key, port: int, create: bool, kwargs: Obj) returns (r: Result<Port>)
      requires Valid()
      modifies this
      ensures Stored(r, groups) == OpxPlusGetPort(old(groups), ctrl, port, "digital_input", create, kwargs)
    {
      r := GetPort(ctrl, port, "digital_input", create, kwargs);
    }
  }

  /** `FEMPortsContainer`: its five dicts of ports, updated in place. */
  class FemPortsContainer {
    var groups: map<PortClass, FemTable>

    predicate Valid()
      reads this
    {
      ValidFemGroups(groups)
    }

    /** Every field starts as an empty dict. */
    constructor()
      ensures Valid() && FemWellPlaced(groups)
      ensures forall c :: c in groups ==> groups[c] == map[]
    {
      groups := map[LfFemAnalogOutput := map[], LfFemAnalogInput := map[], MwFemAnalogOutput := map[],
                    MwFemAnalogInput := map[], FemDigitalOutput := map[]];
    }

    /** `_get_port(controller_id, fem_id, port_id, port_type, create,
        **kwargs)`, with the MW constructor arguments as intended. */
    method GetPort(ctrl: Key, fem: int, port: int, portType: string, create: bool, kwargs: Obj)
      returns (r: Result<Port>)
      requires Valid()
      modifies this
      ensures Stored(r, groups) == FemGetPort(old(groups), ctrl, fem, port, portType, create, kwargs)
    {
      var cls := FemClassOf(portType);
      if cls.None? {
        return Err(ValueError);
      }
      var c := cls.value;
      var controllers: FemTable := groups[c];
      if ctrl in controllers && fem in controllers[ctrl] && port in controllers[ctrl][fem] {
        return Ok(controllers[ctrl][fem][port]);
      }
      if !create {
        return Err(KeyError);
      }
      // `controllers.setdefault(controller_id, {})`, then
      // `fems.setdefault(fem_id, {})`.
      var fems := GetOr(controllers, ctrl, map[]);
      var ports := GetOr(fems, fem, map[]);
      var before := groups;
      groups := before[c := controllers[ctrl := fems[fem := ports]]];
      var built := Construct(c, FemAddress(ctrl, fem, port), FemConstructorArgs(c, kwargs));
      if built.Err? {
        return Err(built.error);
      }
      groups := before[c := controllers[ctrl := fems[fem := ports[port := built.value]]]];
      r := Ok(built.value);
    }

    /** `reference_to_port(reference, create=create)` for a string
        reference. */
    method ReferenceToPort(reference: string, create: bool) returns (r: Result<Port>)
      requires Valid()
      modifies this
      ensures Stored(r, groups) == FemReferenceToPort(old(groups), reference, create)
    {
      var parsed := ParseFemReference(reference);
      if parsed.Err? {
        return Err(ValueError);
      }
      var x := parsed.value;
      var got := GetPort(x.ctrl, x.fem, x.port, x.portType, create, map[]);
      r := AsValueError(got);
    }

    method GetAnalogOutput(ctrl: Key, fem: int, port: int, create: bool, kwargs: Obj) returns (r: Result<Port>)
      requires Valid()
      modifies this
      ensures Stored(r, groups) == FemGetPort(old(groups), ctrl, fem, port, "analog_output", create, kwargs)
    {
      r := GetPort(ctrl, fem, port, "analog_output", create, kwargs);
    }

    method GetAnalogInput(ctrl: Key, fem: int, port: int, create: bool, kwargs: Obj) returns (r: Result<Port>)
      requires Valid()
      modifies this
      ensures Stored(r, groups) == FemGetPort(old(groups), ctrl, fem, port, "analog_input", create, kwargs)
    {
      r := GetPort(ctrl, fem, port, "analog_input", create, kwargs);
    }

    method GetMwOutput(ctrl: Key, fem: int, port: int, create: bool, kwargs: Obj) returns (r: Result<Port>)
      requires Valid()
      modifies this
      ensures Stored(r, groups) == FemGetPort(old(groups), ctrl, fem, port, "mw_output", create, kwargs)
    {
      r := GetPort(ctrl, fem, port, "mw_output", create, kwargs);
    }

    method GetMwInput(ctrl: Key, fem: int, port: int, create: bool, kwargs: Obj) returns (r: Result<Port>)
      requires Valid()
      modifies this
      ensures Stored(r, groups) == FemGetPort(old(groups), ctrl, fem, port, "mw_input", create, kwargs)
    {
      r := GetPort(ctrl, fem, port, "mw_input", create, kwargs);
    }

    method GetDigitalOutput(ctrl: Key, fem: int, port: int, create: bool, kwargs: Obj) returns (r: Result<Port>)
      requires Valid()
      modifies this
      ensures Stored(r, groups) == FemGetPort(old(groups), ctrl, fem, port, "digital_output", create, kwargs)
    {
      r := GetPort(ctrl, fem, port, "digital_output", create, kwargs);
    }
  }
}

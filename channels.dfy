/** `quam/components/channels.py`: a channel's name, the element it adds
    to the QUA config with its operations, core and digital inputs, the
    sticky add-on, the segment arithmetic of the sliced and accumulated
    measurements, and the upconverter frequency of a MW channel. */
module Channels {
  import opened Wrappers
  import opened Strings
  import opened JsonValue
  import opened Ports
  import PortsContainers
  import Pulses
  import StringReference

  const ElementsKey: Key := KStr("elements")
  const OperationsKey: Key := KStr("operations")
  const IntermediateFrequencyKey: Key := KStr("intermediate_frequency")
  const DigitalInputsKey: Key := KStr("digitalInputs")
  const StickyKey: Key := KStr("sticky")
  const MwInputKey: Key := KStr("MWInput")

  /** `Channel._default_label`, and the one of the IQ channel classes. */
  const DefaultLabel: string := "ch"
  const IQLabel: string := "IQ"

  // ---------------------------------------------------------------------
  // Channel.name

  datatype ChannelId = NoId | StrId(s: string) | IntId(n: int)

  /** The channel's parent: none, a `QuamDict` holding it under `key`, or
      another component holding it as attribute `attr`, whose own `name`
      may raise (an `AttributeError` there is what `hasattr` reports as a
      missing name). */
  datatype ChannelParent =
    | NoParent
    | DictParent(key: string)
    | ComponentParent(parentName: Result<string>, attr: string)

  /** `Channel.name`: a string id that is not a reference is the name; an
      int id is appended to the class prefix; without an id the name comes
      from the parent. */
  function ChannelName(prefix: string, id: ChannelId, parent: ChannelParent): (r: Result<string>)
    ensures id.StrId? ==> r == (if StringReference.IsReferenceStr(id.s) then Err(AttributeError) else Ok(id.s))
    ensures id.IntId? ==> r == Ok(prefix + IntToString(id.n))
    ensures id.NoId? && parent.NoParent? ==> r == Err(AttributeError)
    ensures id.NoId? && parent.DictParent? ==> r == Ok(parent.key)
    ensures id.NoId? && parent.ComponentParent? && parent.parentName.Err? ==> r == Err(parent.parentName.error)
    ensures id.NoId? && parent.ComponentParent? && parent.parentName.Ok? ==>
      r == Ok(parent.parentName.value + "." + parent.attr)
  {
    match id
    case StrId(s) => if StringReference.IsReferenceStr(s) then Err(AttributeError) else Ok(s)
    case IntId(n) => Ok(prefix + IntToString(n))
    case NoId =>
      match parent
      case NoParent => Err(AttributeError)
      case DictParent(key) => Ok(key)
      case ComponentParent(parentName, attr) =>
        var pn :- parentName;
        Ok(pn + "." + attr)
  }

  /** The int id can be read back from the name, so channels of one class
      with distinct int ids have distinct names. */
  lemma IntIdRecovered(prefix: string, n: int, m: int, parent: ChannelParent)
    ensures var name := ChannelName(prefix, IntId(n), parent).value;
      |prefix| <= |name| && name[..|prefix|] == prefix && ParseInt(name[|prefix|..]) == Ok(n)
    ensures n != m ==> ChannelName(prefix, IntId(n), parent) != ChannelName(prefix, IntId(m), parent)
  {
    var name := ChannelName(prefix, IntId(n), parent).value;
    assert name[|prefix|..] == IntToString(n);
    IntToStringParses(n);
    if n != m {
      var other := ChannelName(prefix, IntId(m), parent).value;
      assert other[|prefix|..] == IntToString(m);
      IntToStringParses(m);
    }
  }

  // ---------------------------------------------------------------------
  // pulse_mapping

  /** The pulse a channel's `operations` holds under a prefix, as the
      pulse's `id` (if any). */
  type Operations = map<string, Option<string>>

  function PulseOf(ref: Pulses.ChannelRef, ops: Operations, l: string): Pulses.Placement {
    Pulses.InHolder(l, Some(ref))
  }

  /** `pulse_mapping`: each operation prefix to its pulse's `pulse_name`;
      the channel's name is only needed when there is an operation. */
  function PulseMapping(ref: Pulses.ChannelRef, ops: Operations): (r: Result<map<Key, Json>>)
    ensures ops == map[] ==> r == Ok(map[])
    ensures ops != map[] && ref.name.Err? ==> r == Err(ref.name.error)
    ensures r.Ok? ==> r.value.Keys == set l | l in ops :: KStr(l)
    ensures r.Ok? ==> forall l :: l in ops ==>
      Pulses.PulseName(ops[l], PulseOf(ref, ops, l)).Ok?
      && r.value[KStr(l)] == JStr(Pulses.PulseLabel(Pulses.PulseName(ops[l], PulseOf(ref, ops, l)).value))
  {
    if ops == map[] then Ok(map[])
    else
      var n :- ref.name;
      Ok(map l | l in ops :: KStr(l) := JStr(Pulses.PulseLabel(n + "." + (if ops[l].Some? then ops[l].value else l))))
  }

  /** Pulses without an id get distinct `pulse_name`s under distinct
      labels. */
  lemma PulseMappingInjective(ref: Pulses.ChannelRef, ops: Operations, a: string, b: string)
    requires PulseMapping(ref, ops).Ok? && a in ops && b in ops && a != b
    requires ops[a].None? && ops[b].None?
    ensures PulseMapping(ref, ops).value[KStr(a)] != PulseMapping(ref, ops).value[KStr(b)]
  {
    var n := ref.name.value;
    var na, nb := n + "." + a, n + "." + b;
    Pulses.LabelsDistinct(na, nb);
    assert na[|n| + 1..] == a && nb[|n| + 1..] == b;
  }

  // ---------------------------------------------------------------------
  // DigitalOutputChannel

  /** `opx_output`: a port object or a plain tuple. */
  datatype PortRef = PortObject(port: Port) | PortTupleRef(items: seq<Json>)

  datatype DigitalOutput = DigitalOutput(
    output: PortRef,
    delay: Option<Json>,
    buffer: Option<Json>,
    shareable: Option<bool>,
    inverted: Option<bool>)

  function OutputTuple(o: PortRef): seq<Json> {
    match o
    case PortObject(p) => PortTuple(p.address)
    case PortTupleRef(t) => t
  }

  /** `generate_element_config`: the port tuple, and `delay` / `buffer`
      only when they are set. */
  function GenerateElementConfig(d: DigitalOutput): (r: Json)
    ensures r.JObj? && KStr("port") in r.fields && r.fields[KStr("port")] == JTuple(OutputTuple(d.output))
    ensures KStr("delay") in r.fields <==> d.delay.Some?
    ensures d.delay.Some? ==> r.fields[KStr("delay")] == d.delay.value
    ensures KStr("buffer") in r.fields <==> d.buffer.Some?
    ensures d.buffer.Some? ==> r.fields[KStr("buffer")] == d.buffer.value
    ensures r.fields.Keys <= {KStr("port"), KStr("delay"), KStr("buffer")}
  {
    var base := map[KStr("port") := JTuple(OutputTuple(d.output))];
    var withDelay := if d.delay.Some? then base[KStr("delay") := d.delay.value] else base;
    JObj(if d.buffer.Some? then withDelay[KStr("buffer") := d.buffer.value] else withDelay)
  }

  /** A port object's element entry names that port. */
  lemma ElementPortNamesAddress(d: DigitalOutput)
    requires d.output.PortObject?
    ensures AddressOfTuple(GenerateElementConfig(d).fields[KStr("port")].items) == Some(d.output.port.address)
  {
    PortTupleNamesAddress(d.output.port.address);
  }

  /** The port a tuple `opx_output` builds: two elements an OPX+ digital
      output, otherwise a FEM digital output, with `shareable` and
      `inverted` defaulting to `False`. A tuple that names no address is a
      `TypeError`, as the constructor call is. */
  function TupleDigitalPort(t: seq<Json>, shareable: Option<bool>, inverted: Option<bool>): (r: Result<Port>)
    ensures r.Ok? <==> AddressOfTuple(t).Some?
    ensures r.Ok? ==> r.value.cls == (if |t| == 2 then OpxPlusDigitalOutput else FemDigitalOutput)
    ensures r.Ok? ==> r.value.address == AddressOfTuple(t).value
    ensures r.Ok? ==> (KStr("shareable") in r.value.attrs && r.value.attrs[KStr("shareable")] == JBool(shareable == Some(true))
      && KStr("inverted") in r.value.attrs && r.value.attrs[KStr("inverted")] == JBool(inverted == Some(true)))
  {
    var kwargs := map[KStr("shareable") := JBool(if shareable.Some? then shareable.value else false),
                      KStr("inverted") := JBool(if inverted.Some? then inverted.value else false)];
    var cls := if |t| == 2 then OpxPlusDigitalOutput else FemDigitalOutput;
    match AddressOfTuple(t)
    case None => Err(TypeError)
    case Some(a) => Construct(cls, a, kwargs)
  }

  /** `DigitalOutputChannel.apply_to_config`: a port object is left to
      itself (its own `shareable` / `inverted` apply); a tuple becomes a
      port that is applied to the config. The result says whether the port
      warned about an overwritten value. */
  function ApplyDigitalOutput(cfg: Obj, d: DigitalOutput): (r: ConfigOutcome<bool>)
    ensures d.output.PortObject? ==> r == ConfigOutcome(Ok(false), cfg)
    ensures d.output.PortTupleRef? && AddressOfTuple(d.output.items).None? ==> r == ConfigOutcome(Err(TypeError), cfg)
  {
    match d.output
    case PortObject(_) => ConfigOutcome(Ok(false), cfg)
    case PortTupleRef(t) =>
      match TupleDigitalPort(t, d.shareable, d.inverted)
      case Err(e) => ConfigOutcome(Err(e), cfg)
      case Ok(port) => ApplyToConfig(cfg, port)
  }

  /** A tuple digital output writes its `shareable` and `inverted`
      settings, `False` when unset, into its port's controller entry. */
  lemma DigitalOutputWritesSettings(cfg: Obj, d: DigitalOutput)
    requires d.output.PortTupleRef? && ApplyDigitalOutput(cfg, d).result.Ok?
    ensures TupleDigitalPort(d.output.items, d.shareable, d.inverted).Ok?
    ensures var port := TupleDigitalPort(d.output.items, d.shareable, d.inverted).value;
      var entry := Lookup(ApplyDigitalOutput(cfg, d).cfg, PortPath(port));
      && entry.Ok? && entry.value.JObj?
      && KStr("shareable") in entry.value.fields && entry.value.fields[KStr("shareable")] == JBool(d.shareable == Some(true))
      && KStr("inverted") in entry.value.fields && entry.value.fields[KStr("inverted")] == JBool(d.inverted == Some(true))
  {
    var port := TupleDigitalPort(d.output.items, d.shareable, d.inverted).value;
    ApplyWritesProperties(cfg, port);
    assert Reported(port, KStr("shareable")) && Reported(port, KStr("inverted"));
  }

  // ---------------------------------------------------------------------
  // _config_add_digital_outputs

  /** The element's `digitalInputs` after the outputs are written in
      order (a later output under the same name replaces an earlier one). */
  function WithInputs(m: map<Key, Json>, outputs: seq<(string, DigitalOutput)>): (r: map<Key, Json>)
    ensures r.Keys == m.Keys + set o | o in outputs :: KStr(o.0)
    decreases |outputs|
  {
    if outputs == [] then m
    else
      var last := outputs[|outputs| - 1];
      assert outputs == outputs[..|outputs| - 1] + [last];
      WithInputs(m, outputs[..|outputs| - 1])[KStr(last.0) := GenerateElementConfig(last.1)]
  }

  /** An output whose name no later output reuses keeps its entry. */
  lemma {:induction false} WithInputsHas(m: map<Key, Json>, outputs: seq<(string, DigitalOutput)>, j: nat)
    requires j < |outputs|
    requires forall i :: j < i < |outputs| ==> outputs[i].0 != outputs[j].0
    ensures WithInputs(m, outputs)[KStr(outputs[j].0)] == GenerateElementConfig(outputs[j].1)
    decreases |outputs|
  {
    if j < |outputs| - 1 {
      var init := outputs[..|outputs| - 1];
      assert init[j] == outputs[j];
      forall i | j < i < |init| ensures init[i].0 != init[j].0 {
        assert init[i] == outputs[i];
      }
      WithInputsHas(m, init, j);
    }
  }

  function InputsPath(name: string): seq<Key> {
    [ElementsKey, KStr(name), DigitalInputsKey]
  }

  /** `element_config.setdefault("digitalInputs", {})` */
  function ExistingInputs(element: Obj): Json {
    if DigitalInputsKey in element then element[DigitalInputsKey] else JObj(map[])
  }

  /** `_config_add_digital_outputs`: nothing without outputs; otherwise
      the element's `digitalInputs` (created empty if absent) receives
      each output's element config under its name. */
  function AddDigitalOutputs(cfg: Obj, name: string, outputs: seq<(string, DigitalOutput)>): (r: ConfigOutcome<()>)
    ensures outputs == [] ==> r == ConfigOutcome(Ok(()), cfg)
    ensures outputs != [] && Lookup(cfg, [ElementsKey, KStr(name)]).Err? ==>
      r == ConfigOutcome(Err(Lookup(cfg, [ElementsKey, KStr(name)]).error), cfg)
    ensures r.result.Ok? && outputs != [] ==>
      && Lookup(cfg, [ElementsKey, KStr(name)]).Ok? && Lookup(cfg, [ElementsKey, KStr(name)]).value.JObj?
      && var existing := ExistingInputs(Lookup(cfg, [ElementsKey, KStr(name)]).value.fields);
      && existing.JObj?
      && Lookup(r.cfg, InputsPath(name)) == Ok(JObj(WithInputs(existing.fields, outputs)))
  {
    if outputs == [] then ConfigOutcome(Ok(()), cfg)
    else
      var elementPath := [ElementsKey, KStr(name)];
      match Lookup(cfg, elementPath)
      case Err(e) => ConfigOutcome(Err(e), cfg)
      case Ok(element) =>
        if !element.JObj? then ConfigOutcome(Err(AttributeError), cfg)
        else
          var existing := ExistingInputs(element.fields);
          if !existing.JObj? then ConfigOutcome(Err(TypeError), cfg)
          else
            UpdateUnder(cfg, elementPath, DigitalInputsKey, JObj(WithInputs(existing.fields, outputs)));
            assert InputsPath(name) == elementPath + [DigitalInputsKey];
            ConfigOutcome(Ok(()), Update(cfg, InputsPath(name), JObj(WithInputs(existing.fields, outputs))).value)
  }

  /** Adding the digital outputs changes no other entry of the element. */
  lemma DigitalOutputsKeepElement(cfg: Obj, name: string, outputs: seq<(string, DigitalOutput)>, k: Key)
    requires k != DigitalInputsKey
    ensures var r := AddDigitalOutputs(cfg, name, outputs);
      r.result.Ok? ==> Lookup(r.cfg, [ElementsKey, KStr(name), k]) == Lookup(cfg, [ElementsKey, KStr(name), k])
  {
    var r := AddDigitalOutputs(cfg, name, outputs);
    if r.result.Ok? && outputs != [] {
      var element := Lookup(cfg, [ElementsKey, KStr(name)]).value;
      var existing := ExistingInputs(element.fields);
      UpdateUnder(cfg, [ElementsKey, KStr(name)], DigitalInputsKey, JObj(WithInputs(existing.fields, outputs)));
      assert InputsPath(name) == [ElementsKey, KStr(name)] + [DigitalInputsKey];
      UpdateDisjoint(cfg, InputsPath(name), JObj(WithInputs(existing.fields, outputs)), [ElementsKey, KStr(name), k], 2);
    }
  }

  /** One write of the loop below moves the entry from one prefix of the
      outputs to the next. */
  lemma InputsStep(start: Obj, path: seq<Key>, existing: map<Key, Json>, outputs: seq<(string, DigitalOutput)>, i: nat)
    requires path != [] && i < |outputs|
    requires Update(start, path, JObj(WithInputs(existing, outputs[..i]))).Ok?
    ensures var data := Update(start, path, JObj(WithInputs(existing, outputs[..i]))).value;
      var k := KStr(outputs[i].0);
      && Update(data, path + [k], GenerateElementConfig(outputs[i].1)).Ok?
      && Update(data, path + [k], GenerateElementConfig(outputs[i].1))
           == Update(start, path, JObj(WithInputs(existing, outputs[..i + 1])))
  {
    var before := JObj(WithInputs(existing, outputs[..i]));
    var data := Update(start, path, before).value;
    var k, v := KStr(outputs[i].0), GenerateElementConfig(outputs[i].1);
    assert outputs[..i + 1][..i] == outputs[..i];
    var after := JObj(WithInputs(existing, outputs[..i + 1]));
    assert after == JObj(before.fields[k := v]);
    UpdateChild(data, path, k, v);
    UpdateWhereFound(data, path, after);
    UpdateTwice(start, path, before, after);
  }

  /** The imperative `_config_add_digital_outputs`: one write per output,
      proved against `AddDigitalOutputs`. */
  method AddDigitalOutputsTo(config: Dict, name: string, outputs: seq<(string, DigitalOutput)>) returns (r: Result<()>)
    modifies config
    ensures ConfigOutcome(r, config.data) == AddDigitalOutputs(old(config.data), name, outputs)
  {
    if |outputs| == 0 {
      return Ok(());
    }
    var elementPath := [ElementsKey, KStr(name)];
    var path := InputsPath(name);
    assert path == elementPath + [DigitalInputsKey];
    var element := Lookup(config.data, elementPath);
    if element.Err? {
      return Err(element.error);
    }
    if !element.value.JObj? {
      return Err(AttributeError);
    }
    var existing := ExistingInputs(element.value.fields);
    if !existing.JObj? {
      return Err(TypeError);
    }
    ghost var start := config.data;
    UpdateUnder(start, elementPath, DigitalInputsKey, existing);
    UpdateUnder(start, elementPath, DigitalInputsKey, JObj(WithInputs(existing.fields, outputs)));
    if DigitalInputsKey !in element.value.fields {
      config.data := Update(config.data, path, existing).value;
    } else {
      LookupExtend(start, elementPath, DigitalInputsKey);
      UpdateSame(start, path, existing);
    }
    var i := 0;
    while i < |outputs|
      invariant 0 <= i <= |outputs|
      invariant Update(start, path, JObj(WithInputs(existing.fields, outputs[..i]))).Ok?
      invariant config.data == Update(start, path, JObj(WithInputs(existing.fields, outputs[..i]))).value
    {
      InputsStep(start, path, existing.fields, outputs, i);
      config.data := Update(config.data, path + [KStr(outputs[i].0)], GenerateElementConfig(outputs[i].1)).value;
      i := i + 1;
    }
    assert outputs[..i] == outputs;
    r := Ok(());
  }

  // ---------------------------------------------------------------------
  // Channel.apply_to_config

  /** The fields of a channel that `apply_to_config` reads. */
  datatype Channel = Channel(
    ref: Pulses.ChannelRef,
    operations: Operations,
    intermediateFrequency: Option<Json>,
    thread: Option<string>,
    core: Option<string>,
    digitalOutputs: seq<(string, DigitalOutput)>)

  /** `core` wins over `thread` when both are set. */
  function CoreSetting(ch: Channel): Option<string> {
    if ch.core.Some? then ch.core else ch.thread
  }

  /** The element key of the core: `thread` up to qm 1.2.1, `core` after. */
  function CoreKey(quaBelow122: bool): Key {
    if quaBelow122 then KStr("thread") else KStr("core")
  }

  /** The element entry before the digital inputs are added. */
  function Element(ch: Channel, mapping: map<Key, Json>, quaBelow122: bool): (r: Obj)
    ensures OperationsKey in r && r[OperationsKey] == JObj(mapping)
    ensures IntermediateFrequencyKey in r <==> ch.intermediateFrequency.Some?
    ensures ch.intermediateFrequency.Some? ==> r[IntermediateFrequencyKey] == ch.intermediateFrequency.value
    ensures CoreKey(quaBelow122) in r <==> ch.core.Some? || ch.thread.Some?
    ensures ch.core.Some? ==> r[CoreKey(quaBelow122)] == JStr(ch.core.value)
    ensures ch.core.None? && ch.thread.Some? ==> r[CoreKey(quaBelow122)] == JStr(ch.thread.value)
    ensures CoreKey(!quaBelow122) !in r && DigitalInputsKey !in r
  {
    var base := map[OperationsKey := JObj(mapping)];
    var withIf := if ch.intermediateFrequency.Some? then base[IntermediateFrequencyKey := ch.intermediateFrequency.value] else base;
    match CoreSetting(ch)
    case None => withIf
    case Some(core) => withIf[CoreKey(quaBelow122) := JStr(core)]
  }

  /** `Channel.apply_to_config`: a new element under the channel's name
      (`ValueError` if one exists) with its operations, intermediate
      frequency and core, then the digital outputs. */
  function ChannelApply(cfg: Obj, ch: Channel, quaBelow122: bool): (r: ConfigOutcome<()>)
    ensures ch.ref.name.Err? ==> r == ConfigOutcome(Err(ch.ref.name.error), cfg)
    ensures (ch.ref.name.Ok? && ElementsKey in cfg && cfg[ElementsKey].JObj?
      && KStr(ch.ref.name.value) in cfg[ElementsKey].fields) ==> r == ConfigOutcome(Err(ValueError), cfg)
  {
    match ch.ref.name
    case Err(e) => ConfigOutcome(Err(e), cfg)
    case Ok(name) =>
      if ElementsKey !in cfg then ConfigOutcome(Err(KeyError), cfg)
      else if !cfg[ElementsKey].JObj? then ConfigOutcome(Err(TypeError), cfg)
      else if KStr(name) in cfg[ElementsKey].fields then ConfigOutcome(Err(ValueError), cfg)
      else
        match PulseMapping(ch.ref, ch.operations)
        case Err(e) => ConfigOutcome(Err(e), cfg)
        case Ok(mapping) =>
          var c1 := Update(cfg, [ElementsKey, KStr(name)], JObj(Element(ch, mapping, quaBelow122))).value;
          AddDigitalOutputs(c1, name, ch.digitalOutputs)
  }

  /** After `apply_to_config` the element holds the operations, the
      intermediate frequency and the core as `Element` gives them. */
  lemma ChannelApplyRecords(cfg: Obj, ch: Channel, quaBelow122: bool, k: Key)
    requires ChannelApply(cfg, ch, quaBelow122).result.Ok? && k != DigitalInputsKey
    ensures ch.ref.name.Ok? && PulseMapping(ch.ref, ch.operations).Ok?
    ensures var e := Element(ch, PulseMapping(ch.ref, ch.operations).value, quaBelow122);
      Lookup(ChannelApply(cfg, ch, quaBelow122).cfg, [ElementsKey, KStr(ch.ref.name.value), k])
        == (if k in e then Ok(e[k]) else Err(KeyError))
  {
    var name := ch.ref.name.value;
    var e := Element(ch, PulseMapping(ch.ref, ch.operations).value, quaBelow122);
    var elementPath := [ElementsKey, KStr(name)];
    var c1 := Update(cfg, elementPath, JObj(e)).value;
    DigitalOutputsKeepElement(c1, name, ch.digitalOutputs, k);
    LookupExtend(c1, elementPath, k);
  }

  /** A channel cannot be applied twice: the second time its element
      exists. */
  lemma ChannelApplyTwice(cfg: Obj, ch: Channel, quaBelow122: bool)
    requires ChannelApply(cfg, ch, quaBelow122).result.Ok?
    ensures ChannelApply(ChannelApply(cfg, ch, quaBelow122).cfg, ch, quaBelow122)
      == ConfigOutcome(Err(ValueError), ChannelApply(cfg, ch, quaBelow122).cfg)
  {
    var c := ChannelApply(cfg, ch, quaBelow122).cfg;
    ChannelApplyRecords(cfg, ch, quaBelow122, OperationsKey);
    LookupPrefix(c, [ElementsKey, KStr(ch.ref.name.value)], OperationsKey);
    LookupPrefix(c, [ElementsKey], KStr(ch.ref.name.value));
  }

  /** The imperative `Channel.apply_to_config`, proved against
      `ChannelApply`. */
  method ApplyChannelTo(config: Dict, ch: Channel, quaBelow122: bool) returns (r: Result<()>)
    modifies config
    ensures ConfigOutcome(r, config.data) == ChannelApply(old(config.data), ch, quaBelow122)
  {
    if ch.ref.name.Err? {
      return Err(ch.ref.name.error);
    }
    var name := ch.ref.name.value;
    if ElementsKey !in config.data {
      return Err(KeyError);
    }
    if !config.data[ElementsKey].JObj? {
      return Err(TypeError);
    }
    if KStr(name) in config.data[ElementsKey].fields {
      return Err(ValueError);
    }
    var mapping := PulseMapping(ch.ref, ch.operations);
    if mapping.Err? {
      return Err(mapping.error);
    }
    config.data := Update(config.data, [ElementsKey, KStr(name)], JObj(Element(ch, mapping.value, quaBelow122))).value;
    r := AddDigitalOutputsTo(config, name, ch.digitalOutputs);
  }

  // ---------------------------------------------------------------------
  // StickyChannelAddon

  datatype Sticky = Sticky(duration: Json, enabled: bool, analog: bool, digital: bool)

  function StickyEntry(s: Sticky): Json {
    JObj(map[KStr("analog") := JBool(s.analog), KStr("digital") := JBool(s.digital), KStr("duration") := s.duration])
  }

  /** `StickyChannelAddon.apply_to_config`: nothing unless the parent is
      a channel and the add-on is enabled; otherwise the settings go under
      the channel element's `sticky`. */
  function StickyApply(cfg: Obj, channel: Option<Pulses.ChannelRef>, s: Sticky): (r: ConfigOutcome<()>)
    ensures channel.None? || !s.enabled ==> r == ConfigOutcome(Ok(()), cfg)
    ensures r.result.Ok? && channel.Some? && s.enabled ==>
      channel.value.name.Ok? && Lookup(r.cfg, [ElementsKey, KStr(channel.value.name.value), StickyKey]) == Ok(StickyEntry(s))
    ensures r.result.Err? ==> r.cfg == cfg
  {
    if channel.None? || !s.enabled then ConfigOutcome(Ok(()), cfg)
    else
      match channel.value.name
      case Err(e) => ConfigOutcome(Err(e), cfg)
      case Ok(name) =>
        match Update(cfg, [ElementsKey, KStr(name), StickyKey], StickyEntry(s))
        case Err(e) => ConfigOutcome(Err(e), cfg)
        case Ok(c) => ConfigOutcome(Ok(()), c)
  }

  /** The sticky settings leave the rest of the element as it was. */
  lemma StickyKeepsElement(cfg: Obj, channel: Option<Pulses.ChannelRef>, s: Sticky, k: Key)
    requires StickyApply(cfg, channel, s).result.Ok? && channel.Some? && channel.value.name.Ok? && k != StickyKey
    ensures var path := [ElementsKey, KStr(channel.value.name.value), k];
      Lookup(StickyApply(cfg, channel, s).cfg, path) == Lookup(cfg, path)
  {
    if s.enabled {
      UpdateDisjoint(cfg, [ElementsKey, KStr(channel.value.name.value), StickyKey], StickyEntry(s),
                     [ElementsKey, KStr(channel.value.name.value), k], 2);
    }
  }

  // ---------------------------------------------------------------------
  // measure_accumulated / measure_sliced

  /** `int(a / b)`: true division truncated toward zero. */
  function TruncDiv(a: int, b: int): (r: int)
    requires b != 0
  {
    var q := (if a < 0 then -a else a) / (if b < 0 then -b else b);
    if (a < 0) == (b < 0) then q else -q
  }

  /** For a non-negative length and a positive divisor the truncated
      quotient is the number of whole divisors that fit. */
  lemma TruncDivFits(a: int, b: int)
    requires a >= 0 && b > 0
    ensures 0 <= TruncDiv(a, b) && TruncDiv(a, b) * b <= a < (TruncDiv(a, b) + 1) * b
  {
    var q := a / b;
    assert TruncDiv(a, b) == q;
    DivFits(a, b);
    assert (q + 1) * b == q * b + b;
  }

  /** Euclidean division of a non-negative number by a positive one, kept
      apart from `TruncDiv` so that the solver sees no other arithmetic. */
  lemma DivFits(a: int, b: int)
    requires a >= 0 && b > 0
    ensures 0 <= a / b && (a / b) * b <= a < (a / b) * b + b
  {
  }

  /** `qua_vars`: not given, a sequence of some length, or something else. */
  datatype QuaVars = NoVars | VarSequence(count: nat) | NotASequence

  /** The segment arithmetic shared by `measure_accumulated` and
      `measure_sliced`: the pulse must be one of the channel's operations
      (`KeyError`), exactly one of `num_segments` / `segment_length` is
      given (`ValueError`), the other is `int(length / (4 * given))`
      (`ZeroDivisionError` for a zero), and `qua_vars`, when given, is a
      sequence of `expected` variables (2 for single channels, 4 for IQ
      channels). The result is `(num_segments, segment_length)`. */
  function Segments(lengths: map<string, int>, pulseName: string, numSegments: Option<int>,
                    segmentLength: Option<int>, quaVars: QuaVars, expected: nat): (r: Result<(int, int)>)
    ensures pulseName !in lengths ==> r == Err(KeyError)
    ensures pulseName in lengths && numSegments.None? == segmentLength.None? ==> r == Err(ValueError)
    ensures (pulseName in lengths && (numSegments == Some(0) || segmentLength == Some(0))
      && numSegments.None? != segmentLength.None?) ==> r == Err(ZeroDivisionError)
    ensures r.Ok? ==> (quaVars.NoVars? || quaVars == VarSequence(expected))
    ensures r.Ok? && segmentLength.Some? ==>
      r.value == (TruncDiv(lengths[pulseName], 4 * segmentLength.value), segmentLength.value)
    ensures r.Ok? && numSegments.Some? ==>
      r.value == (numSegments.value, TruncDiv(lengths[pulseName], 4 * numSegments.value))
  {
    if pulseName !in lengths then Err(KeyError)
    else
      var length := lengths[pulseName];
      var counts :-
        if numSegments.None? && segmentLength.None? then Err(ValueError)
        else if numSegments.Some? && segmentLength.Some? then Err(ValueError)
        else if numSegments.None? then
          if segmentLength.value == 0 then Err(ZeroDivisionError)
          else Ok((TruncDiv(length, 4 * segmentLength.value), segmentLength.value))
        else
          if numSegments.value == 0 then Err(ZeroDivisionError)
          else Ok((numSegments.value, TruncDiv(length, 4 * numSegments.value)));
      if quaVars.NotASequence? || (quaVars.VarSequence? && quaVars.count != expected) then Err(ValueError)
      else Ok(counts)
  }

  /** With a positive segment length the segments, of `4 * segment_length`
      samples each, fit in the pulse and leave less than one segment over. */
  lemma SegmentsFitPulse(lengths: map<string, int>, pulseName: string, segmentLength: int, quaVars: QuaVars,
                         expected: nat)
    requires pulseName in lengths && lengths[pulseName] >= 0 && segmentLength > 0
    requires Segments(lengths, pulseName, None, Some(segmentLength), quaVars, expected).Ok?
    ensures var n := Segments(lengths, pulseName, None, Some(segmentLength), quaVars, expected).value.0;
      0 <= n && n * (4 * segmentLength) <= lengths[pulseName] < (n + 1) * (4 * segmentLength)
  {
    var a, b := lengths[pulseName], 4 * segmentLength;
    var n := TruncDiv(a, b);
    assert Segments(lengths, pulseName, None, Some(segmentLength), quaVars, expected).value.0 == n;
    TruncDivFits(a, b);
    assert n * b <= a < (n + 1) * b;
  }

  // ---------------------------------------------------------------------
  // MWChannel

  /** `MWChannel.upconverter_frequency`: the port's own
      `upconverter_frequency` if set, else `upconverters[upconverter]`
      (`KeyError` if absent), else `ValueError`. */
  function UpconverterFrequency(port: Port, upconverter: int): (r: Result<Json>)
    ensures var f := PortsContainers.GetOr(port.attrs, PortsContainers.UpconverterFrequencyKey, JNull);
      f != JNull ==> r == Ok(f)
    ensures r.Err? && r.error == ValueError ==>
      PortsContainers.GetOr(port.attrs, PortsContainers.UpconverterFrequencyKey, JNull) == JNull
      && PortsContainers.GetOr(port.attrs, PortsContainers.UpconvertersKey, JNull) == JNull
    ensures var u := PortsContainers.GetOr(port.attrs, PortsContainers.UpconvertersKey, JNull);
      PortsContainers.GetOr(port.attrs, PortsContainers.UpconverterFrequencyKey, JNull) == JNull && u.JObj? ==>
      r == (if KInt(upconverter) in u.fields then Ok(u.fields[KInt(upconverter)]) else Err(KeyError))
  {
    var f := PortsContainers.GetOr(port.attrs, PortsContainers.UpconverterFrequencyKey, JNull);
    var u := PortsContainers.GetOr(port.attrs, PortsContainers.UpconvertersKey, JNull);
    if f != JNull then Ok(f)
    else if u == JNull then Err(ValueError)
    else if !u.JObj? then Err(TypeError)
    else if KInt(upconverter) in u.fields then Ok(u.fields[KInt(upconverter)])
    else Err(KeyError)
  }

  /** A MW output created by its FEM without converter settings gives its
      channel the 5 GHz default, whichever upconverter the channel uses. */
  lemma NewMwOutputFrequency(groups: map<PortClass, PortsContainers.FemTable>, ctrl: Key, fem: int, port: int,
                             kwargs: Obj, upconverter: int)
    requires PortsContainers.ValidFemGroups(groups)
    requires !(ctrl in groups[MwFemAnalogOutput] && fem in groups[MwFemAnalogOutput][ctrl]
               && port in groups[MwFemAnalogOutput][ctrl][fem])
    requires PortsContainers.UpconverterFrequencyKey !in kwargs && PortsContainers.UpconvertersKey !in kwargs
    requires kwargs.Keys <= Fields(MwFemAnalogOutput)
    ensures var o := PortsContainers.FemGetPort(groups, ctrl, fem, port, "mw_output", true, kwargs);
      o.result.Ok? && UpconverterFrequency(o.result.value, upconverter) == Ok(PortsContainers.DefaultConverterFrequency)
  {
    PortsContainers.NewMwOutputAtDefaultFrequency(groups, ctrl, fem, port, kwargs);
  }

  /** `MWChannel.apply_to_config`: the channel's element, then its
      `MWInput` with the output's port tuple and the upconverter. */
  function MwChannelApply(cfg: Obj, ch: Channel, quaBelow122: bool, output: Port, upconverter: int): (r: ConfigOutcome<()>)
    ensures ChannelApply(cfg, ch, quaBelow122).result.Err? ==> r == ChannelApply(cfg, ch, quaBelow122)
    ensures r.result.Ok? ==> (ch.ref.name.Ok?
      && Lookup(r.cfg, [ElementsKey, KStr(ch.ref.name.value), MwInputKey])
           == Ok(JObj(map[KStr("port") := JTuple(PortTuple(output.address)), KStr("upconverter") := JInt(upconverter)])))
  {
    var c := ChannelApply(cfg, ch, quaBelow122);
    if c.result.Err? then c
    else
      var entry := JObj(map[KStr("port") := JTuple(PortTuple(output.address)), KStr("upconverter") := JInt(upconverter)]);
      match Update(c.cfg, [ElementsKey, KStr(ch.ref.name.value), MwInputKey], entry)
      case Err(e) => ConfigOutcome(Err(e), c.cfg)
      case Ok(c2) => ConfigOutcome(Ok(()), c2)
  }
}

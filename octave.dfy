/** `quam/components/octave.py`: the QM Octave, its default frequency
    converters, its `octaves` entry in the QUA config, and the entries its
    up- and down-converters add under that entry. */
module Octaves {
  import opened Wrappers
  import opened Strings
  import opened JsonValue
  import opened Ports

  const OctavesKey: Key := KStr("octaves")
  const RFOutputsKey: Key := KStr("RF_outputs")
  const IFOutputsKey: Key := KStr("IF_outputs")
  const RFInputsKey: Key := KStr("RF_inputs")
  const LoopbacksKey: Key := KStr("loopbacks")
  const PortKey: Key := KStr("port")
  const NameKey: Key := KStr("name")

  // ---------------------------------------------------------------------
  // Converters and the channels they serve

  /** An OPX port a channel names: an LF port object, or a port tuple given
      as a Python tuple or list. */
  datatype OpxPortRef = LfPort(address: Address) | PortSequence(items: seq<Json>, isList: bool)

  /** The channel a converter serves, by the classes `apply_to_config`
      tests for: a `SingleChannel` (with its input when it is an
      `InOutSingleChannel`), an `IQChannel` (with its inputs when it is an
      `InOutIQChannel`), or a channel of any other class. */
  datatype ConverterChannel =
    | NoChannel
    | OutSingle(output: OpxPortRef, input: Option<OpxPortRef>)
    | OutIQ(outputI: OpxPortRef, outputQ: OpxPortRef, inputs: Option<(OpxPortRef, OpxPortRef)>)
    | OtherChannel

  datatype UpConverter = UpConverter(
    id: int, loFrequency: Json, loSource: string, gain: Json,
    outputMode: string, inputAttenuators: string, channel: ConverterChannel)

  datatype DownConverter = DownConverter(
    id: int, loFrequency: Json, loSource: string, ifModeI: string, ifModeQ: string,
    ifOutputI: int, ifOutputQ: int, channel: ConverterChannel)

  /** A converter created with only its id, as the class defaults give it. */
  function DefaultUpConverter(id: int): UpConverter {
    UpConverter(id, JNull, "internal", JInt(0), "always_off", "off", NoChannel)
  }

  function DefaultDownConverter(id: int): DownConverter {
    DownConverter(id, JNull, "internal", "direct", "direct", 1, 2, NoChannel)
  }

  /** The converters of the default connectivity: RF outputs 1 to 5 and RF
      inputs 1 and 2, each converter's id equal to its key. */
  function DefaultUpConverters(): map<int, UpConverter> {
    map idx | 1 <= idx < 6 :: DefaultUpConverter(idx)
  }

  function DefaultDownConverters(): map<int, DownConverter> {
    map idx | 1 <= idx < 3 :: DefaultDownConverter(idx)
  }

  /** `isinstance(x, (int, float))`; a bool is an int in Python. */
  predicate IsNumber(v: Json) {
    v.JInt? || v.JFloat? || v.JBool?
  }

  // ---------------------------------------------------------------------
  // Octave

  /** The Octave component, whose converter dicts
      `initialize_frequency_converters` fills in place. */
  class Octave {
    var name: string
    var loopbacks: seq<Json>
    var rfOutputs: map<int, UpConverter>
    var rfInputs: map<int, DownConverter>

    constructor (name: string, loopbacks: seq<Json>)
      ensures this.name == name && this.loopbacks == loopbacks
      ensures rfOutputs == map[] && rfInputs == map[]
    {
      this.name := name;
      this.loopbacks := loopbacks;
      rfOutputs := map[];
      rfInputs := map[];
    }

    /** `Octave.initialize_frequency_converters`: a `ValueError` when
        either converter dict already has an entry, otherwise the default
        converters. */
    method InitializeFrequencyConverters() returns (r: Result<()>)
      modifies this
      ensures r.Err? <==> old(rfOutputs) != map[] || old(rfInputs) != map[]
      ensures r.Err? ==> r.error == ValueError && rfOutputs == old(rfOutputs) && rfInputs == old(rfInputs)
      ensures r.Ok? ==> rfOutputs == DefaultUpConverters() && rfInputs == DefaultDownConverters()
      ensures name == old(name) && loopbacks == old(loopbacks)
    {
      if rfOutputs != map[] || rfInputs != map[] {
        return Err(ValueError);
      }
      for idx := 1 to 6
        invariant rfOutputs == map i | 1 <= i < idx :: DefaultUpConverter(i)
        invariant rfInputs == map[] && name == old(name) && loopbacks == old(loopbacks)
      {
        rfOutputs := rfOutputs[idx := DefaultUpConverter(idx)];
      }
      for idx := 1 to 3
        invariant rfOutputs == DefaultUpConverters()
        invariant rfInputs == map i | 1 <= i < idx :: DefaultDownConverter(i)
        invariant name == old(name) && loopbacks == old(loopbacks)
      {
        rfInputs := rfInputs[idx := DefaultDownConverter(idx)];
      }
      r := Ok(());
    }

    /** `Octave.apply_to_config` on the config dict it mutates. */
    method ApplyTo(config: Dict) returns (r: Result<()>)
      modifies config
      ensures ConfigOutcome(r, config.data) == OctaveApply(old(config.data), name, loopbacks)
    {
      if OctavesKey !in config.data {
        config.data := config.data[OctavesKey := JObj(map[])];
      }
      var octaves := config.data[OctavesKey];
      var found := ContainsStr(octaves, name);
      if found.Err? {
        return Err(found.error);
      }
      if found.value {
        return Err(KeyError);
      }
      if !octaves.JObj? {
        return Err(TypeError);
      }
      config.data := config.data[OctavesKey := JObj(octaves.fields[KStr(name) := OctaveEntry(loopbacks)])];
      r := Ok(());
    }
  }

  /** The default converters are numbered 1 to 5 and 1 to 2, each carries
      its key as id, and none has an LO frequency or a channel yet. */
  lemma DefaultConvertersNumbered()
    ensures DefaultUpConverters().Keys == {1, 2, 3, 4, 5}
    ensures DefaultDownConverters().Keys == {1, 2}
    ensures forall i | i in DefaultUpConverters() ::
      DefaultUpConverters()[i].id == i && !IsNumber(DefaultUpConverters()[i].loFrequency)
      && DefaultUpConverters()[i].channel.NoChannel?
    ensures forall i | i in DefaultDownConverters() ::
      DefaultDownConverters()[i].id == i && !IsNumber(DefaultDownConverters()[i].loFrequency)
      && DefaultDownConverters()[i].channel.NoChannel?
  {
    assert DefaultUpConverters().Keys == {1, 2, 3, 4, 5} by {
      forall i | i in {1, 2, 3, 4, 5} ensures i in DefaultUpConverters() { }
    }
    assert DefaultDownConverters().Keys == {1, 2} by {
      forall i | i in {1, 2} ensures i in DefaultDownConverters() { }
    }
  }

  /** The entry `Octave.apply_to_config` adds for one Octave. */
  function OctaveEntry(loopbacks: seq<Json>): Json {
    JObj(map[RFOutputsKey := JObj(map[]), IFOutputsKey := JObj(map[]),
             RFInputsKey := JObj(map[]), LoopbacksKey := JList(loopbacks)])
  }

  /** `Octave.apply_to_config`: creates `octaves` when it is missing (that
      stays even when the call then raises), raises `KeyError` when the
      Octave's name is already `in` it, and otherwise adds the Octave's
      entry. `in` is Python's: a list or tuple `octaves` is searched for
      the name, a string for it as a substring, and any other non-dict is
      a `TypeError`; storing the entry into a list, tuple or string is a
      `TypeError` too. */
  function OctaveApply(cfg: Obj, name: string, loopbacks: seq<Json>): (r: ConfigOutcome<()>)
    ensures OctavesKey in r.cfg && r.cfg.Keys == cfg.Keys + {OctavesKey}
    ensures forall k | k in cfg && k != OctavesKey :: r.cfg[k] == cfg[k]
    ensures r.result.Ok? <==>
      OctavesKey !in cfg || (cfg[OctavesKey].JObj? && KStr(name) !in cfg[OctavesKey].fields)
    ensures OctavesKey in cfg && cfg[OctavesKey].JObj? && KStr(name) in cfg[OctavesKey].fields ==>
      r == ConfigOutcome(Err(KeyError), cfg)
    ensures OctavesKey in cfg && ContainsStr(cfg[OctavesKey], name) == Ok(true) ==>
      r == ConfigOutcome(Err(KeyError), cfg)
    ensures OctavesKey in cfg && !cfg[OctavesKey].JObj? && ContainsStr(cfg[OctavesKey], name) != Ok(true) ==>
      r == ConfigOutcome(Err(TypeError), cfg)
    ensures r.result.Err? && OctavesKey in cfg ==> r.cfg == cfg
    ensures r.result.Ok? ==> Lookup(r.cfg, [OctavesKey, KStr(name)]) == Ok(OctaveEntry(loopbacks))
    ensures r.result.Ok? ==> (r.cfg[OctavesKey].JObj?
      && r.cfg[OctavesKey].fields.Keys == OctaveNames(cfg) + {KStr(name)})
    ensures r.result.Ok? ==> forall k | k in OctaveNames(cfg) :: r.cfg[OctavesKey].fields[k] == cfg[OctavesKey].fields[k]
  {
    var c := if OctavesKey in cfg then cfg else cfg[OctavesKey := JObj(map[])];
    match ContainsStr(c[OctavesKey], name)
    case Err(e) => ConfigOutcome(Err(e), c)
    case Ok(found) =>
      if found then ConfigOutcome(Err(KeyError), c)
      else if !c[OctavesKey].JObj? then ConfigOutcome(Err(TypeError), c)
      else ConfigOutcome(Ok(()), c[OctavesKey := JObj(c[OctavesKey].fields[KStr(name) := OctaveEntry(loopbacks)])])
  }

  /** A list-valued `octaves` is searched with Python's `in`: holding the
      Octave's name, it makes `Octave.apply_to_config` raise `KeyError`;
      not holding it, it makes the converters' check raise `KeyError`. */
  lemma ListOctaves(cfg: Obj, name: string, loopbacks: seq<Json>, dictKey: Key, id: int)
    requires OctavesKey in cfg && cfg[OctavesKey].JList?
    ensures JStr(name) in cfg[OctavesKey].items ==> OctaveApply(cfg, name, loopbacks) == ConfigOutcome(Err(KeyError), cfg)
    ensures JStr(name) !in cfg[OctavesKey].items ==> ConverterSlot(cfg, Some(name), dictKey, id) == Err(KeyError)
  {
  }

  /** The Octaves already in the config. */
  function OctaveNames(cfg: Obj): set<Key> {
    if OctavesKey in cfg && cfg[OctavesKey].JObj? then cfg[OctavesKey].fields.Keys else {}
  }

  /** Each Octave can be added once: a second `apply_to_config` raises
      `KeyError` and changes nothing. */
  lemma OctaveApplyTwice(cfg: Obj, name: string, loopbacks: seq<Json>, other: seq<Json>)
    requires OctaveApply(cfg, name, loopbacks).result.Ok?
    ensures var c := OctaveApply(cfg, name, loopbacks).cfg;
      OctaveApply(c, name, other) == ConfigOutcome(Err(KeyError), c)
  {
  }

  // ---------------------------------------------------------------------
  // OctaveFrequencyConverter

  /** What sits above a converter: nothing, or the dict holding it with
      that dict's own parent, which is an Octave or some other object. */
  datatype Grandparent = NoGrandparent | OctaveGrandparent(octaveName: string) | OtherGrandparent
  datatype ConverterParent = Unattached | InContainer(grandparent: Grandparent)

  /** `OctaveFrequencyConverter.octave`: the name of the Octave two levels
      up, if that object is an Octave. */
  function ConverterOctave(p: ConverterParent): (r: Option<string>)
    ensures r.Some? <==> p.InContainer? && p.grandparent.OctaveGrandparent?
    ensures r.Some? ==> r.value == p.grandparent.octaveName
  {
    match p
    case Unattached => None
    case InContainer(g) => if g.OctaveGrandparent? then Some(g.octaveName) else None
  }

  /** The checks of `OctaveFrequencyConverter.apply_to_config` followed by
      the duplicate check of a subclass: the path of the dict under the
      converter's Octave (`RF_outputs` or `RF_inputs`) that gets the
      converter's entry. `KeyError` when `octaves` is missing, the
      converter has no Octave, the Octave's name is not `in` `octaves`
      (Python's `in`, as in `OctaveApply`), the dict is missing or already
      has the converter's id. Indexing a list, tuple or string `octaves`
      by the name is a `TypeError`. */
  function ConverterSlot(cfg: Obj, octave: Option<string>, dictKey: Key, id: int): (r: Result<seq<Key>>)
    ensures OctavesKey !in cfg || octave.None? ==> r == Err(KeyError)
    ensures r.Ok? ==> r.value == [OctavesKey, KStr(octave.value), dictKey]
    ensures r.Ok? ==> (Lookup(cfg, r.value).Ok? && Lookup(cfg, r.value).value.JObj?
      && KInt(id) !in Lookup(cfg, r.value).value.fields)
    ensures OctavesKey in cfg && octave.Some? && ContainsStr(cfg[OctavesKey], octave.value).Err? ==>
      r == Err(TypeError)
    ensures OctavesKey in cfg && octave.Some? && ContainsStr(cfg[OctavesKey], octave.value) == Ok(false) ==>
      r == Err(KeyError)
    ensures (OctavesKey in cfg && octave.Some? && !cfg[OctavesKey].JObj?
             && ContainsStr(cfg[OctavesKey], octave.value) == Ok(true)) ==> r == Err(TypeError)
    ensures OctavesKey in cfg && octave.Some? && cfg[OctavesKey].JObj? && Lookup(cfg, [OctavesKey, KStr(octave.value)]).Err? ==>
      r == Err(Lookup(cfg, [OctavesKey, KStr(octave.value)]).error)
    ensures (OctavesKey in cfg && octave.Some? && Lookup(cfg, [OctavesKey, KStr(octave.value), dictKey]).Ok?
      && Lookup(cfg, [OctavesKey, KStr(octave.value), dictKey]).value.JObj?
      && KInt(id) in Lookup(cfg, [OctavesKey, KStr(octave.value), dictKey]).value.fields) ==> r == Err(KeyError)
  {
    if OctavesKey !in cfg || octave.None? then Err(KeyError)
    else if ContainsStr(cfg[OctavesKey], octave.value).Err? then Err(TypeError)
    else if !ContainsStr(cfg[OctavesKey], octave.value).value then Err(KeyError)
    else
      var entryPath := [OctavesKey, KStr(octave.value)];
      var path := [OctavesKey, KStr(octave.value), dictKey];
      assert entryPath + [dictKey] == path;
      match Lookup(cfg, entryPath)
      case Err(e) =>
        LookupFailsBelow(cfg, entryPath, dictKey);
        Err(e)
      case Ok(entry) =>
        if !entry.JObj? then
          LookupBelowNonDict(cfg, entryPath, dictKey);
          Err(TypeError)
        else
          LookupExtend(cfg, entryPath, dictKey);
          if dictKey !in entry.fields then Err(KeyError)
          else if !entry.fields[dictKey].JObj? then Err(TypeError)
          else if KInt(id) in entry.fields[dictKey].fields then Err(KeyError)
          else Ok(path)
  }

  // ---------------------------------------------------------------------
  // OctaveUpConverter.apply_to_config

  /** `port_tuple` of a port object, `tuple(p)` of a port sequence. */
  function PortTupleOf(o: OpxPortRef): Json {
    match o
    case LfPort(a) => JTuple(PortTuple(a))
    case PortSequence(items, _) => JTuple(items)
  }

  /** A `SingleChannel`'s output as stored: an LF port as its tuple, a
      port sequence as it was given. */
  function AsGiven(o: OpxPortRef): Json {
    match o
    case LfPort(a) => JTuple(PortTuple(a))
    case PortSequence(items, isList) => if isList then JList(items) else JTuple(items)
  }

  /** The `RF_outputs[id]` entry of an up-converter. */
  function UpEntry(u: UpConverter): (r: Json)
    ensures r.JObj? && KStr("LO_frequency") in r.fields && r.fields[KStr("LO_frequency")] == u.loFrequency
    ensures u.channel.OutSingle? ==> (r.fields.Keys == UpSettings(u).Keys + {KStr("I_connection")}
      && r.fields[KStr("I_connection")] == AsGiven(u.channel.output))
    ensures u.channel.OutIQ? ==> (r.fields.Keys == UpSettings(u).Keys + {KStr("I_connection"), KStr("Q_connection")}
      && r.fields[KStr("I_connection")] == PortTupleOf(u.channel.outputI)
      && r.fields[KStr("Q_connection")] == PortTupleOf(u.channel.outputQ))
    ensures !u.channel.OutSingle? && !u.channel.OutIQ? ==> r.fields == UpSettings(u)
  {
    var base := UpSettings(u);
    match u.channel
    case OutSingle(o, _) => JObj(base[KStr("I_connection") := AsGiven(o)])
    case OutIQ(i, q, _) =>
      JObj(base[KStr("I_connection") := PortTupleOf(i)][KStr("Q_connection") := PortTupleOf(q)])
    case _ => JObj(base)
  }

  function UpSettings(u: UpConverter): Obj {
    map[KStr("LO_frequency") := u.loFrequency, KStr("LO_source") := JStr(u.loSource),
        KStr("gain") := u.gain, KStr("output_mode") := JStr(u.outputMode),
        KStr("input_attenuators") := JStr(u.inputAttenuators)]
  }

  /** `OctaveUpConverter.apply_to_config`: without a numeric LO frequency
      the converter is skipped when it serves no channel and raises
      `ValueError` when it does; otherwise its entry goes under
      `RF_outputs` of its Octave, after the checks of `ConverterSlot`. */
  function UpApply(cfg: Obj, u: UpConverter, octave: Option<string>): (r: ConfigOutcome<()>)
    ensures !IsNumber(u.loFrequency) && u.channel.NoChannel? ==> r == ConfigOutcome(Ok(()), cfg)
    ensures !IsNumber(u.loFrequency) && !u.channel.NoChannel? ==> r == ConfigOutcome(Err(ValueError), cfg)
    ensures IsNumber(u.loFrequency) ==>
      (r.result.Ok? <==> ConverterSlot(cfg, octave, RFOutputsKey, u.id).Ok?)
    ensures r.result.Err? ==> r.cfg == cfg
    ensures r.result.Ok? && IsNumber(u.loFrequency) ==>
      Lookup(r.cfg, [OctavesKey, KStr(octave.value), RFOutputsKey, KInt(u.id)]) == Ok(UpEntry(u))
      && Lookup(cfg, [OctavesKey, KStr(octave.value), RFOutputsKey, KInt(u.id)]) == Err(KeyError)
  {
    if !IsNumber(u.loFrequency) then
      if u.channel.NoChannel? then ConfigOutcome(Ok(()), cfg) else ConfigOutcome(Err(ValueError), cfg)
    else
      match ConverterSlot(cfg, octave, RFOutputsKey, u.id)
      case Err(e) => ConfigOutcome(Err(e), cfg)
      case Ok(path) =>
        UpdateUnder(cfg, path, KInt(u.id), UpEntry(u));
        LookupExtend(cfg, path, KInt(u.id));
        assert path + [KInt(u.id)] == [OctavesKey, KStr(octave.value), RFOutputsKey, KInt(u.id)];
        ConfigOutcome(Ok(()), Update(cfg, path + [KInt(u.id)], UpEntry(u)).value)
  }

  /** An up-converter can be applied once per id: the second time raises
      `KeyError` and changes nothing. */
  lemma UpApplyTwice(cfg: Obj, u: UpConverter, v: UpConverter, octave: Option<string>)
    requires IsNumber(u.loFrequency) && UpApply(cfg, u, octave).result.Ok?
    requires IsNumber(v.loFrequency) && v.id == u.id
    ensures var c := UpApply(cfg, u, octave).cfg;
      UpApply(c, v, octave) == ConfigOutcome(Err(KeyError), c)
  {
    var c := UpApply(cfg, u, octave).cfg;
    var path := [OctavesKey, KStr(octave.value), RFOutputsKey];
    assert path + [KInt(u.id)] == [OctavesKey, KStr(octave.value), RFOutputsKey, KInt(u.id)];
    LookupPrefix(c, path, KInt(u.id));
    LookupPrefix(c, path[..2], RFOutputsKey);
    assert path[..2] + [RFOutputsKey] == path;
  }

  /** Once its Octave is in the config, an up-converter with an LO frequency
      and a fresh id is added; the `after` ordering of `config_settings`
      exists for this. */
  lemma UpApplyAfterOctave(cfg: Obj, name: string, loopbacks: seq<Json>, u: UpConverter)
    requires OctaveApply(cfg, name, loopbacks).result.Ok? && IsNumber(u.loFrequency)
    ensures var c := OctaveApply(cfg, name, loopbacks).cfg;
      UpApply(c, u, Some(name)).result.Ok?
  {
    var c := OctaveApply(cfg, name, loopbacks).cfg;
    LookupExtend(c, [OctavesKey, KStr(name)], RFOutputsKey);
    assert [OctavesKey, KStr(name)] + [RFOutputsKey] == [OctavesKey, KStr(name), RFOutputsKey];
  }

  /** A default converter adds nothing, since it has no LO frequency and no
      channel. */
  lemma DefaultUpConverterSkipped(cfg: Obj, id: int, octave: Option<string>)
    ensures UpApply(cfg, DefaultUpConverter(id), octave) == ConfigOutcome(Ok(()), cfg)
  {
  }

  // ---------------------------------------------------------------------
  // OctaveDownConverter.apply_to_config

  function DownEntry(d: DownConverter): Json {
    JObj(map[KStr("RF_source") := JStr("RF_in"), KStr("LO_frequency") := d.loFrequency,
             KStr("LO_source") := JStr(d.loSource), KStr("IF_mode_I") := JStr(d.ifModeI),
             KStr("IF_mode_Q") := JStr(d.ifModeQ)])
  }

  /** The IF outputs a down-converter wires and the OPX input port tuple
      each one feeds: I and Q for an `InOutIQChannel`, I alone for an
      `InOutSingleChannel`, none otherwise. */
  function IFPairs(d: DownConverter): (r: seq<(int, Json)>)
    ensures |r| <= 2
    ensures |r| > 0 ==> r[0].0 == d.ifOutputI
    ensures |r| == 2 ==> r[1].0 == d.ifOutputQ
  {
    match d.channel
    case OutIQ(_, _, Some(inputs)) => [(d.ifOutputI, PortTupleOf(inputs.0)), (d.ifOutputQ, PortTupleOf(inputs.1))]
    case OutSingle(_, Some(input)) => [(d.ifOutputI, PortTupleOf(input))]
    case _ => []
  }

  /** `f"IF_out{n}"` */
  function IFLabel(n: int): Key {
    KStr("IF_out" + IntToString(n))
  }

  /** The IF output labels of different outputs differ. */
  lemma IFLabelsDistinct(a: int, b: int)
    ensures IFLabel(a) == IFLabel(b) <==> a == b
  {
    var sa, sb := "IF_out" + IntToString(a), "IF_out" + IntToString(b);
    if sa == sb {
      assert sa[6..] == IntToString(a) && sb[6..] == IntToString(b);
      IntToStringParses(a);
      IntToStringParses(b);
    }
  }

  /** One step of the IF loop, on the `IF_outputs` dict: `setdefault` of
      the outLabel with this port and the name `out<k>`, then a `ValueError`
      when the outLabel is bound to another port. An existing entry that is
      not a dict or has no `port` raises `TypeError` or `KeyError`. */
  function IFStep(m: Obj, ifOutput: int, port: Json, k: int): (r: ConfigOutcome<()>)
    ensures r.result.Ok? <==> (IFLabel(ifOutput) !in m
      || (m[IFLabel(ifOutput)].JObj? && PortKey in m[IFLabel(ifOutput)].fields
          && m[IFLabel(ifOutput)].fields[PortKey] == port))
    ensures r.result.Ok? ==> (IFLabel(ifOutput) in r.cfg && r.cfg[IFLabel(ifOutput)].JObj?
      && PortKey in r.cfg[IFLabel(ifOutput)].fields && r.cfg[IFLabel(ifOutput)].fields[PortKey] == port)
    ensures r.cfg.Keys == m.Keys + {IFLabel(ifOutput)}
    ensures forall l | l in m :: r.cfg[l] == m[l]
  {
    var outLabel := IFLabel(ifOutput);
    var c := if outLabel in m then m
      else m[outLabel := JObj(map[PortKey := port, NameKey := JStr("out" + IntToString(k))])];
    var entry := c[outLabel];
    if !entry.JObj? then ConfigOutcome(Err(TypeError), c)
    else if PortKey !in entry.fields then ConfigOutcome(Err(KeyError), c)
    else if entry.fields[PortKey] != port then ConfigOutcome(Err(ValueError), c)
    else ConfigOutcome(Ok(()), c)
  }

  /** The IF loop over the first `|pairs|` pairs, numbered from 1; it stops
      at the first error with the labels set so far kept. */
  function IFOutputs(m: Obj, pairs: seq<(int, Json)>): (r: ConfigOutcome<()>)
    ensures m.Keys <= r.cfg.Keys
    decreases |pairs|
  {
    if pairs == [] then ConfigOutcome(Ok(()), m)
    else
      var prev := IFOutputs(m, pairs[..|pairs| - 1]);
      if prev.result.Err? then prev
      else IFStep(prev.cfg, pairs[|pairs| - 1].0, pairs[|pairs| - 1].1, |pairs|)
  }

  /** After a successful IF loop every wired IF output is bound to the port
      it feeds, and entries that were there are kept. */
  lemma {:induction false} IFOutputsRecords(m: Obj, pairs: seq<(int, Json)>, j: nat)
    requires IFOutputs(m, pairs).result.Ok? && j < |pairs|
    ensures var c := IFOutputs(m, pairs).cfg;
      IFLabel(pairs[j].0) in c && c[IFLabel(pairs[j].0)].JObj?
      && PortKey in c[IFLabel(pairs[j].0)].fields && c[IFLabel(pairs[j].0)].fields[PortKey] == pairs[j].1
    ensures forall l | l in m :: IFOutputs(m, pairs).cfg[l] == m[l]
    decreases |pairs|
  {
    var init := pairs[..|pairs| - 1];
    var prev := IFOutputs(m, init);
    if |pairs| > 1 {
      if j < |pairs| - 1 {
        IFOutputsRecords(m, init, j);
      } else {
        IFOutputsRecords(m, init, 0);
      }
    }
  }

  /** The loop stops at its first error. */
  lemma {:induction false} IFOutputsStops(m: Obj, pairs: seq<(int, Json)>, i: nat)
    requires i <= |pairs| && IFOutputs(m, pairs[..i]).result.Err?
    ensures IFOutputs(m, pairs) == IFOutputs(m, pairs[..i])
    decreases |pairs| - i
  {
    if i < |pairs| {
      var init := pairs[..|pairs| - 1];
      assert init[..i] == pairs[..i];
      IFOutputsStops(m, init, i);
    } else {
      assert pairs[..i] == pairs;
    }
  }

  /** An IF output already bound to another port makes the loop raise
      `ValueError`. */
  lemma IFOutputTaken(m: Obj, pairs: seq<(int, Json)>, port: Json)
    requires |pairs| == 1 && IFLabel(pairs[0].0) in m && m[IFLabel(pairs[0].0)].JObj?
    requires m[IFLabel(pairs[0].0)].fields == map[PortKey := port, NameKey := JStr("out1")]
    requires port != pairs[0].1
    ensures IFOutputs(m, pairs).result == Err(ValueError)
  {
    assert pairs[..0] == [];
  }

  /** `OctaveDownConverter.apply_to_config`: the same skip and checks as
      the up-converter, against `RF_inputs`; then the entry, then the IF
      loop on `IF_outputs` of the same Octave. An `IF_outputs` that is
      missing raises `KeyError`; one that is not a dict has no
      `setdefault` (`AttributeError`). An error in the IF loop leaves the
      entry and the labels set before it in place. */
  function DownApply(cfg: Obj, d: DownConverter, octave: Option<string>): (r: ConfigOutcome<()>)
    ensures !IsNumber(d.loFrequency) && d.channel.NoChannel? ==> r == ConfigOutcome(Ok(()), cfg)
    ensures !IsNumber(d.loFrequency) && !d.channel.NoChannel? ==> r == ConfigOutcome(Err(ValueError), cfg)
    ensures IsNumber(d.loFrequency) && ConverterSlot(cfg, octave, RFInputsKey, d.id).Err? ==>
      r == ConfigOutcome(Err(ConverterSlot(cfg, octave, RFInputsKey, d.id).error), cfg)
    ensures r.result.Ok? && IsNumber(d.loFrequency) ==> ConverterSlot(cfg, octave, RFInputsKey, d.id).Ok?
  {
    if !IsNumber(d.loFrequency) then
      if d.channel.NoChannel? then ConfigOutcome(Ok(()), cfg) else ConfigOutcome(Err(ValueError), cfg)
    else
      match ConverterSlot(cfg, octave, RFInputsKey, d.id)
      case Err(e) => ConfigOutcome(Err(e), cfg)
      case Ok(path) =>
        UpdateUnder(cfg, path, KInt(d.id), DownEntry(d));
        var c := Update(cfg, path + [KInt(d.id)], DownEntry(d)).value;
        IFApply(c, IFOutputsPath(octave.value), IFPairs(d))
  }

  /** The IF part of `OctaveDownConverter.apply_to_config`: the entry at
      `ifPath` is read first, whether or not there are IF outputs to wire
      (`KeyError` when it is missing); the loop then runs on it
      (`AttributeError` at the first `setdefault` when it is not a dict),
      and the dict is written back whatever the loop's outcome. */
  function IFApply(c: Obj, ifPath: seq<Key>, pairs: seq<(int, Json)>): (r: ConfigOutcome<()>)
    requires ifPath != []
    ensures Lookup(c, ifPath).Err? ==> r == ConfigOutcome(Err(Lookup(c, ifPath).error), c)
    ensures Lookup(c, ifPath).Ok? && pairs == [] ==> r.result.Ok? && r.cfg == c
    ensures Lookup(c, ifPath).Ok? && !Lookup(c, ifPath).value.JObj? && pairs != [] ==>
      r == ConfigOutcome(Err(AttributeError), c)
  {
    match Lookup(c, ifPath)
    case Err(e) => ConfigOutcome(Err(e), c)
    case Ok(ifc) =>
      if !ifc.JObj? then
        if pairs == [] then ConfigOutcome(Ok(()), c) else ConfigOutcome(Err(AttributeError), c)
      else
        var o := IFOutputs(ifc.fields, pairs);
        UpdateWhereFound(c, ifPath, JObj(o.cfg));
        assert pairs == [] ==> Update(c, ifPath, JObj(o.cfg)) == Ok(c) by {
          if pairs == [] { UpdateSame(c, ifPath, ifc); }
        }
        ConfigOutcome(o.result, Update(c, ifPath, JObj(o.cfg)).value)
  }

  /** After a successful IF part, every wired IF output is bound below
      `ifPath` to the port it feeds. */
  lemma IFApplyRecords(c: Obj, ifPath: seq<Key>, pairs: seq<(int, Json)>, j: nat)
    requires ifPath != [] && IFApply(c, ifPath, pairs).result.Ok? && j < |pairs|
    ensures Lookup(IFApply(c, ifPath, pairs).cfg, ifPath + [IFLabel(pairs[j].0), PortKey]) == Ok(pairs[j].1)
  {
    var ifc := Lookup(c, ifPath).value;
    var o := IFOutputs(ifc.fields, pairs);
    UpdateWhereFound(c, ifPath, JObj(o.cfg));
    var c2 := Update(c, ifPath, JObj(o.cfg)).value;
    IFOutputsRecords(ifc.fields, pairs, j);
    var outLabel := IFLabel(pairs[j].0);
    LookupExtend(c2, ifPath, outLabel);
    LookupExtend(c2, ifPath + [outLabel], PortKey);
    assert ifPath + [outLabel] + [PortKey] == ifPath + [outLabel, PortKey];
  }

  function IFOutputsPath(octave: string): seq<Key> {
    [OctavesKey, KStr(octave), IFOutputsKey]
  }

  function RFInputPath(octave: string, id: int): seq<Key> {
    [OctavesKey, KStr(octave), RFInputsKey, KInt(id)]
  }

  /** A successful down-converter leaves its entry under `RF_inputs` and
      every IF output it wires bound to the OPX input it feeds. */
  lemma DownApplyRecords(cfg: Obj, d: DownConverter, octave: Option<string>, j: nat)
    requires IsNumber(d.loFrequency) && DownApply(cfg, d, octave).result.Ok?
    requires j < |IFPairs(d)|
    ensures var c := DownApply(cfg, d, octave).cfg;
      && Lookup(c, RFInputPath(octave.value, d.id)) == Ok(DownEntry(d))
      && Lookup(c, IFOutputsPath(octave.value) + [IFLabel(IFPairs(d)[j].0), PortKey]) == Ok(IFPairs(d)[j].1)
  {
    DownApplyEntry(cfg, d, octave);
    DownApplyIFOutput(cfg, d, octave, j);
  }

  lemma DownApplyEntry(cfg: Obj, d: DownConverter, octave: Option<string>)
    requires IsNumber(d.loFrequency) && DownApply(cfg, d, octave).result.Ok?
    ensures Lookup(DownApply(cfg, d, octave).cfg, RFInputPath(octave.value, d.id)) == Ok(DownEntry(d))
  {
    var path := [OctavesKey, KStr(octave.value), RFInputsKey];
    UpdateUnder(cfg, path, KInt(d.id), DownEntry(d));
    var c := Update(cfg, path + [KInt(d.id)], DownEntry(d)).value;
    assert path + [KInt(d.id)] == RFInputPath(octave.value, d.id);
    var ifPath := IFOutputsPath(octave.value);
    assert DownApply(cfg, d, octave) == IFApply(c, ifPath, IFPairs(d));
    var ifc := Lookup(c, ifPath).value;
    if ifc.JObj? {
      var o := IFOutputs(ifc.fields, IFPairs(d));
      UpdateWhereFound(c, ifPath, JObj(o.cfg));
      assert DownApply(cfg, d, octave).cfg == Update(c, ifPath, JObj(o.cfg)).value;
      UpdateDisjoint(c, ifPath, JObj(o.cfg), RFInputPath(octave.value, d.id), 2);
    }
  }

  lemma DownApplyIFOutput(cfg: Obj, d: DownConverter, octave: Option<string>, j: nat)
    requires IsNumber(d.loFrequency) && DownApply(cfg, d, octave).result.Ok?
    requires j < |IFPairs(d)|
    ensures Lookup(DownApply(cfg, d, octave).cfg, IFOutputsPath(octave.value) + [IFLabel(IFPairs(d)[j].0), PortKey])
      == Ok(IFPairs(d)[j].1)
  {
    var path := ConverterSlot(cfg, octave, RFInputsKey, d.id).value;
    UpdateUnder(cfg, path, KInt(d.id), DownEntry(d));
    var c := Update(cfg, path + [KInt(d.id)], DownEntry(d)).value;
    assert DownApply(cfg, d, octave) == IFApply(c, IFOutputsPath(octave.value), IFPairs(d));
    IFApplyRecords(c, IFOutputsPath(octave.value), IFPairs(d), j);
  }

  /** A default down-converter adds nothing. */
  lemma DefaultDownConverterSkipped(cfg: Obj, id: int, octave: Option<string>)
    ensures DownApply(cfg, DefaultDownConverter(id), octave) == ConfigOutcome(Ok(()), cfg)
  {
  }

  /** The up- and down-converter `apply_to_config` on the config dict they
      mutate; the down-converter's IF loop runs on the `IF_outputs` dict
      and is written back once. */
  method ApplyUpConverterTo(config: Dict, u: UpConverter, octave: Option<string>) returns (r: Result<()>)
    modifies config
    ensures ConfigOutcome(r, config.data) == UpApply(old(config.data), u, octave)
  {
    if !IsNumber(u.loFrequency) {
      r := if u.channel.NoChannel? then Ok(()) else Err(ValueError);
      return;
    }
    var slot := ConverterSlot(config.data, octave, RFOutputsKey, u.id);
    if slot.Err? {
      return Err(slot.error);
    }
    UpdateUnder(config.data, slot.value, KInt(u.id), UpEntry(u));
    config.data := Update(config.data, slot.value + [KInt(u.id)], UpEntry(u)).value;
    r := Ok(());
  }

  method ApplyDownConverterTo(config: Dict, d: DownConverter, octave: Option<string>) returns (r: Result<()>)
    modifies config
    ensures ConfigOutcome(r, config.data) == DownApply(old(config.data), d, octave)
  {
    if !IsNumber(d.loFrequency) {
      r := if d.channel.NoChannel? then Ok(()) else Err(ValueError);
      return;
    }
    var slot := ConverterSlot(config.data, octave, RFInputsKey, d.id);
    if slot.Err? {
      return Err(slot.error);
    }
    UpdateUnder(config.data, slot.value, KInt(d.id), DownEntry(d));
    config.data := Update(config.data, slot.value + [KInt(d.id)], DownEntry(d)).value;
    var ifPath := IFOutputsPath(octave.value);
    var found := Lookup(config.data, ifPath);
    if found.Err? {
      return Err(found.error);
    }
    if !found.value.JObj? {
      r := if IFPairs(d) == [] then Ok(()) else Err(AttributeError);
      return;
    }
    var ifConfig := new Dict(found.value.fields);
    r := RunIFOutputs(ifConfig, IFPairs(d));
    var ifc := ifConfig.data;
    UpdateWhereFound(config.data, ifPath, JObj(ifc));
    config.data := Update(config.data, ifPath, JObj(ifc)).value;
  }

  /** The loop of `OctaveDownConverter.apply_to_config` over the IF
      outputs, on the `IF_outputs` dict it mutates. */
  method RunIFOutputs(ifConfig: Dict, pairs: seq<(int, Json)>) returns (r: Result<()>)
    modifies ifConfig
    ensures ConfigOutcome(r, ifConfig.data) == IFOutputs(old(ifConfig.data), pairs)
  {
    r := Ok(());
    var i := 0;
    while i < |pairs|
      invariant 0 <= i <= |pairs|
      invariant ConfigOutcome(r, ifConfig.data) == IFOutputs(old(ifConfig.data), pairs[..i])
      invariant r.Ok?
    {
      assert pairs[..i + 1][..i] == pairs[..i];
      var step := IFStep(ifConfig.data, pairs[i].0, pairs[i].1, i + 1);
      r, ifConfig.data := step.result, step.cfg;
      i := i + 1;
      if r.Err? {
        IFOutputsStops(old(ifConfig.data), pairs, i);
        return;
      }
    }
    assert pairs[..i] == pairs;
  }
}

/** `quam/components/hardware.py`: the local oscillator, the mixer with its
    name, default references and `mixers` entry of the QUA config, and the
    frequency converter that holds both. */
module Hardware {
  import opened Wrappers
  import opened JsonValue
  import opened Ports
  import Strings
  import StringReference

  const MixersKey: Key := KStr("mixers")
  const LocalOscillatorAttr: string := "local_oscillator"
  const FrequencyAttr: string := "frequency"
  const IntermediateFrequencyAttr: string := "intermediate_frequency"

  /** The class defaults of `Mixer.local_oscillator_frequency` and
      `Mixer.intermediate_frequency`. */
  const DefaultLOFrequencyReference: string := "#../local_oscillator/frequency"
  const DefaultIntermediateFrequencyReference: string := "#../../intermediate_frequency"

  /** The default references spelled out piece by piece. */
  lemma DefaultReferencesText()
    ensures "#" + "../" + (LocalOscillatorAttr + "/" + FrequencyAttr) == DefaultLOFrequencyReference
    ensures Strings.Join([LocalOscillatorAttr, FrequencyAttr], "/") == LocalOscillatorAttr + "/" + FrequencyAttr
    ensures "#" + "../../" + IntermediateFrequencyAttr == DefaultIntermediateFrequencyReference
    ensures Strings.Join([IntermediateFrequencyAttr], "/") == IntermediateFrequencyAttr
    ensures StringReference.Repeat("../", 1) == "../"
    ensures StringReference.Repeat("../", 2) == "../../"
  {
    assert [LocalOscillatorAttr, FrequencyAttr][1..] == [FrequencyAttr];
    assert StringReference.Repeat("../", 1) == "../" + "";
  }

  /** The mixer's LO default climbs to its frequency converter and reads
      `local_oscillator.frequency` there: the attribute chain that
      `FrequencyConverter.LO_frequency` reads. */
  lemma DefaultLOFrequencyReferenceParses()
    ensures StringReference.IsReferenceStr(DefaultLOFrequencyReference)
    ensures StringReference.Parse(DefaultLOFrequencyReference)
      == Ok(StringReference.Path(StringReference.Relative(1), [LocalOscillatorAttr, FrequencyAttr]))
  {
    var lo := StringReference.Path(StringReference.Relative(1), [LocalOscillatorAttr, FrequencyAttr]);
    DefaultReferencesText();
    assert StringReference.Render(lo)
      == "#" + StringReference.Repeat("../", 1) + Strings.Join(lo.segs, "/");
    StringReference.ParseRender(lo);
  }

  /** The mixer's intermediate-frequency default climbs past the converter
      to the channel and reads its `intermediate_frequency`. */
  lemma DefaultIntermediateFrequencyReferenceParses()
    ensures StringReference.IsReferenceStr(DefaultIntermediateFrequencyReference)
    ensures StringReference.Parse(DefaultIntermediateFrequencyReference)
      == Ok(StringReference.Path(StringReference.Relative(2), [IntermediateFrequencyAttr]))
  {
    var iff := StringReference.Path(StringReference.Relative(2), [IntermediateFrequencyAttr]);
    DefaultReferencesText();
    assert StringReference.Render(iff)
      == "#" + StringReference.Repeat("../", 2) + Strings.Join(iff.segs, "/");
    StringReference.ParseRender(iff);
  }

  // ---------------------------------------------------------------------
  // LocalOscillator and FrequencyConverter

  datatype LocalOscillator = LocalOscillator(frequency: Json, power: Json)

  datatype FrequencyConverter = FrequencyConverter(localOscillator: Option<LocalOscillator>, gain: Json)

  /** `FrequencyConverter.LO_frequency`: the frequency of its local
      oscillator; reading it through a missing (`None`) oscillator is an
      `AttributeError`. */
  function LOFrequency(fc: FrequencyConverter): (r: Result<Json>)
    ensures r.Ok? <==> fc.localOscillator.Some?
    ensures r.Ok? ==> r.value == fc.localOscillator.value.frequency
    ensures r.Err? ==> r.error == AttributeError
  {
    match fc.localOscillator
    case None => Err(AttributeError)
    case Some(lo) => Ok(lo.frequency)
  }

  // ---------------------------------------------------------------------
  // Mixer.name

  /** The channel above a mixer's frequency converter, with its `name`:
      `Err(AttributeError)` stands for a missing or `None` name, which
      `getattr(channel, "name", None)` both turn into `None`. */
  datatype ChannelNode = ChannelNode(name: Result<string>)

  /** Where a mixer sits: nowhere, or inside a frequency converter that may
      or may not itself have a parent channel. */
  datatype MixerParent = Orphan | InConverter(channel: Option<ChannelNode>)

  /** `Mixer.name`: `<channel name>.mixer`, an `AttributeError` without a
      converter or without a named channel above it. An error other than
      `AttributeError` raised by the channel's own `name` propagates. */
  function MixerName(p: MixerParent): (r: Result<string>)
    ensures r.Ok? <==> p.InConverter? && p.channel.Some? && p.channel.value.name.Ok?
    ensures r.Ok? ==> r.value == p.channel.value.name.value + ".mixer"
    ensures (p.Orphan? || p.channel.None?) ==> r == Err(AttributeError)
    ensures p.InConverter? && p.channel.Some? && p.channel.value.name.Err? ==> r == p.channel.value.name
  {
    match p
    case Orphan => Err(AttributeError)
    case InConverter(ch) =>
      if ch.None? then Err(AttributeError)
      else
        var n :- ch.value.name;
        Ok(n + ".mixer")
  }

  /** Mixers of differently named channels have different names, and the
      channel name can be read back from the mixer name. */
  lemma MixerNamesDistinct(p: MixerParent, q: MixerParent)
    requires MixerName(p).Ok? && MixerName(q).Ok?
    ensures MixerName(p) == MixerName(q) <==> p.channel.value.name == q.channel.value.name
    ensures MixerName(p).value[..|MixerName(p).value| - 6] == p.channel.value.name.value
  {
    var a, b := p.channel.value.name.value, q.channel.value.name.value;
    var ma, mb := MixerName(p).value, MixerName(q).value;
    assert ma[..|a|] == a && mb[..|b|] == b;
    if ma == mb {
      assert |a| == |b|;
    }
  }

  // ---------------------------------------------------------------------
  // Mixer.apply_to_config

  /** The mixer's settings, with references already resolved. */
  datatype Mixer = Mixer(localOscillatorFrequency: Json, intermediateFrequency: Json,
                         correctionGain: Json, correctionPhase: Json)

  /** The single entry of `config["mixers"][name]`; `correction` is the
      matrix `Mixer.IQ_imbalance` computes from the gain and phase. */
  function MixerEntry(m: Mixer, correction: seq<Json>): Json {
    JObj(map[KStr("intermediate_frequency") := m.intermediateFrequency,
             KStr("lo_frequency") := m.localOscillatorFrequency,
             KStr("correction") := JList(correction)])
  }

  /** `Mixer.apply_to_config`: `config["mixers"][name] = [entry]`.
      `config["mixers"]` is read before the name is computed, so a missing
      `mixers` is a `KeyError` even for a mixer without a name; a `mixers`
      value that is not a dict cannot take a string key (`TypeError`).
      An existing entry for the same name is overwritten. */
  function MixerApply(cfg: Obj, name: Result<string>, m: Mixer, correction: seq<Json>): (r: ConfigOutcome<()>)
    ensures r.result.Ok? <==> MixersKey in cfg && name.Ok? && cfg[MixersKey].JObj?
    ensures MixersKey !in cfg ==> r.result == Err(KeyError)
    ensures MixersKey in cfg && name.Err? ==> r.result == Err(name.error)
    ensures r.result.Err? ==> r.cfg == cfg
    ensures r.result.Ok? ==>
      Lookup(r.cfg, [MixersKey, KStr(name.value)]) == Ok(JList([MixerEntry(m, correction)]))
    ensures r.result.Ok? ==> r.cfg.Keys == cfg.Keys && r.cfg[MixersKey].JObj?
    ensures r.result.Ok? ==> forall k | k in cfg && k != MixersKey :: r.cfg[k] == cfg[k]
    ensures r.result.Ok? ==>
      r.cfg[MixersKey].fields.Keys == cfg[MixersKey].fields.Keys + {KStr(name.value)}
    ensures r.result.Ok? ==> forall k | k in cfg[MixersKey].fields && k != KStr(name.value) ::
      r.cfg[MixersKey].fields[k] == cfg[MixersKey].fields[k]
  {
    if MixersKey !in cfg then ConfigOutcome(Err(KeyError), cfg)
    else if name.Err? then ConfigOutcome(Err(name.error), cfg)
    else if !cfg[MixersKey].JObj? then ConfigOutcome(Err(TypeError), cfg)
    else
      var mixers := cfg[MixersKey].fields[KStr(name.value) := JList([MixerEntry(m, correction)])];
      ConfigOutcome(Ok(()), cfg[MixersKey := JObj(mixers)])
  }

  /** Applying a mixer twice leaves the config as applying it once, and
      the mixers of two differently named channels both keep their
      entries. */
  lemma MixerApplyIdempotent(cfg: Obj, p: MixerParent, m: Mixer, correction: seq<Json>)
    requires MixerApply(cfg, MixerName(p), m, correction).result.Ok?
    ensures var once := MixerApply(cfg, MixerName(p), m, correction).cfg;
      MixerApply(once, MixerName(p), m, correction) == ConfigOutcome(Ok(()), once)
  {
    var once := MixerApply(cfg, MixerName(p), m, correction).cfg;
    var k := KStr(MixerName(p).value);
    assert once[MixersKey].fields[k := JList([MixerEntry(m, correction)])] == once[MixersKey].fields;
    assert once[MixersKey := JObj(once[MixersKey].fields)] == once;
  }

  lemma MixersOfTwoChannels(cfg: Obj, p: MixerParent, mp: Mixer, q: MixerParent, mq: Mixer,
                            cp: seq<Json>, cq: seq<Json>)
    requires MixerApply(cfg, MixerName(p), mp, cp).result.Ok? && MixerName(q).Ok?
    requires p.channel.value.name != q.channel.value.name
    ensures var first := MixerApply(cfg, MixerName(p), mp, cp).cfg;
      var second := MixerApply(first, MixerName(q), mq, cq);
      && second.result.Ok?
      && Lookup(second.cfg, [MixersKey, KStr(MixerName(p).value)]) == Ok(JList([MixerEntry(mp, cp)]))
      && Lookup(second.cfg, [MixersKey, KStr(MixerName(q).value)]) == Ok(JList([MixerEntry(mq, cq)]))
  {
    MixerNamesDistinct(p, q);
  }

  /** `Mixer.apply_to_config` on the config dict it mutates. */
  method ApplyMixerTo(config: Dict, name: Result<string>, m: Mixer, correction: seq<Json>)
    returns (r: Result<()>)
    modifies config
    ensures ConfigOutcome(r, config.data) == MixerApply(old(config.data), name, m, correction)
  {
    if MixersKey !in config.data {
      r := Err(KeyError);
    } else if name.Err? {
      r := Err(name.error);
    } else if !config.data[MixersKey].JObj? {
      r := Err(TypeError);
    } else {
      var mixers := config.data[MixersKey].fields;
      mixers := mixers[KStr(name.value) := JList([MixerEntry(m, correction)])];
      config.data := config.data[MixersKey := JObj(mixers)];
      r := Ok(());
    }
  }
}

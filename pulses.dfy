/** `quam/components/pulses.py`: a pulse's names, derived from the channel
    it is attached to, and the entries it adds to the QUA config under
    `pulses`, `waveforms`, `digital_waveforms` and `integration_weights`. */
module Pulses {
  import opened Wrappers
  import opened Strings
  import opened JsonValue
  import opened Ports

  const PulsesKey: Key := KStr("pulses")
  const WaveformsKey: Key := KStr("waveforms")
  const DigitalWaveformsKey: Key := KStr("digital_waveforms")
  const IntegrationWeightsKey: Key := KStr("integration_weights")
  const DigitalMarkerKey: Key := KStr("digital_marker")

  /** The channel classes as the waveform check tells them apart:
      `SingleChannel` and its subclasses, `IQChannel` and its subclasses,
      `MWChannel` and its subclasses, and the input-only channels. */
  datatype ChannelKind = SingleKind | IQKind | MWKind | OtherKind

  /** A channel as a pulse sees it: its `name` (which may raise) and kind. */
  datatype ChannelRef = ChannelRef(name: Result<string>, kind: ChannelKind)

  /** Where a pulse is attached: nowhere, directly as attribute `attr` of a
      channel, or under `key` in a container (such as a channel's
      `operations` dict) whose own parent may be a channel. */
  datatype Placement =
    | Detached
    | OnChannel(channel: ChannelRef, attr: string)
    | InHolder(key: string, holderParent: Option<ChannelRef>)

  /** `Pulse.channel`: the parent if it is a channel, else the grandparent
      if that is a channel, else `None`. */
  function Channel(pl: Placement): (r: Option<ChannelRef>)
    ensures pl.OnChannel? ==> r == Some(pl.channel)
    ensures pl.InHolder? ==> r == pl.holderParent
    ensures pl.Detached? ==> r.None?
  {
    match pl
    case Detached => None
    case OnChannel(ch, _) => Some(ch)
    case InHolder(_, parent) => parent
  }

  /** `Pulse.name`: the channel's name, a `.`, and the pulse's `id` or else
      the name its parent holds it under; `AttributeError` without a
      channel. */
  function PulseName(id: Option<string>, pl: Placement): (r: Result<string>)
    ensures Channel(pl).None? ==> r == Err(AttributeError)
    ensures Channel(pl).Some? && Channel(pl).value.name.Err? ==> r == Err(Channel(pl).value.name.error)
    ensures r.Ok? ==> (Channel(pl).Some? && Channel(pl).value.name.Ok?
      && r.value == Channel(pl).value.name.value + "." + LocalName(id, pl))
  {
    match Channel(pl)
    case None => Err(AttributeError)
    case Some(ch) =>
      var channelName :- ch.name;
      Ok(channelName + "." + LocalName(id, pl))
  }

  /** The pulse's own part of its name. */
  function LocalName(id: Option<string>, pl: Placement): string {
    if id.Some? then id.value
    else match pl
      case OnChannel(_, attr) => attr
      case InHolder(key, _) => key
      case Detached => ""
  }

  /** `pulse_name`, `waveform_name` and `digital_marker_name`. */
  function PulseLabel(name: string): string { name + ".pulse" }
  function WaveformLabel(name: string): string { name + ".wf" }
  function DigitalMarkerLabel(name: string): string { name + ".dm" }

  /** The three labels of one or two pulses never collide, and each tag
      determines the pulse name. */
  lemma LabelsDistinct(a: string, b: string)
    ensures PulseLabel(a) != WaveformLabel(b)
    ensures PulseLabel(a) != DigitalMarkerLabel(b)
    ensures WaveformLabel(a) != DigitalMarkerLabel(b)
    ensures PulseLabel(a) == PulseLabel(b) ==> a == b
    ensures WaveformLabel(a) == WaveformLabel(b) ==> a == b
    ensures DigitalMarkerLabel(a) == DigitalMarkerLabel(b) ==> a == b
  {
    var pa, wb, db := PulseLabel(a), WaveformLabel(b), DigitalMarkerLabel(b);
    assert pa[|pa| - 1] == 'e' && wb[|wb| - 1] == 'f' && db[|db| - 1] == 'm';
    var wa := WaveformLabel(a);
    assert wa[|wa| - 1] == 'f';
    if PulseLabel(a) == PulseLabel(b) { assert a == PulseLabel(a)[..|a|] && b == PulseLabel(b)[..|b|]; }
    if WaveformLabel(a) == WaveformLabel(b) { assert a == WaveformLabel(a)[..|a|] && b == WaveformLabel(b)[..|b|]; }
    if DigitalMarkerLabel(a) == DigitalMarkerLabel(b) {
      assert a == DigitalMarkerLabel(a)[..|a|] && b == DigitalMarkerLabel(b)[..|b|];
    }
  }

  // ---------------------------------------------------------------------
  // _config_add_pulse

  /** `_config_add_pulse`: asserts the operation is `control` or
      `measurement` and the length an int (a bool is an int in Python),
      then records both under `pulses[pulse_name]`. The assignment reads
      `config["pulses"]` before it computes `pulse_name`, so a missing
      `pulses` entry raises `KeyError` before the name can fail; the name
      is passed in as the outcome of computing it. */
  function AddPulse(cfg: Obj, pulseLabel: Result<string>, operation: string, length: Json): (r: ConfigOutcome<()>)
    ensures operation !in {"control", "measurement"} || !(length.JInt? || length.JBool?) ==>
      r == ConfigOutcome(Err(AssertionError), cfg)
    ensures operation in {"control", "measurement"} && (length.JInt? || length.JBool?) && PulsesKey !in cfg ==>
      r == ConfigOutcome(Err(KeyError), cfg)
    ensures (operation in {"control", "measurement"} && (length.JInt? || length.JBool?) && PulsesKey in cfg
             && pulseLabel.Err?) ==> r == ConfigOutcome(Err(pulseLabel.error), cfg)
    ensures r.result.Ok? ==>
      (pulseLabel.Ok? && Lookup(r.cfg, [PulsesKey, KStr(pulseLabel.value)])
         == Ok(JObj(map[KStr("operation") := JStr(operation), KStr("length") := length])))
    ensures r.result.Ok? <==> (operation in {"control", "measurement"} && (length.JInt? || length.JBool?)
      && PulsesKey in cfg && cfg[PulsesKey].JObj? && pulseLabel.Ok?)
    ensures r.result.Err? ==> r.cfg == cfg
  {
    if operation !in {"control", "measurement"} || !(length.JInt? || length.JBool?) then
      ConfigOutcome(Err(AssertionError), cfg)
    else if PulsesKey !in cfg then ConfigOutcome(Err(KeyError), cfg)
    else match pulseLabel
      case Err(e) => ConfigOutcome(Err(e), cfg)
      case Ok(tag) =>
        var entry := JObj(map[KStr("operation") := JStr(operation), KStr("length") := length]);
        match Update(cfg, [PulsesKey, KStr(tag)], entry)
        case Err(e) => ConfigOutcome(Err(e), cfg)
        case Ok(c) => ConfigOutcome(Ok(()), c)
  }

  /** `pulse_name` as the outcome of computing the pulse's name. */
  function PulseLabelOf(name: Result<string>): Result<string> {
    match name
    case Ok(n) => Ok(PulseLabel(n))
    case Err(e) => Err(e)
  }

  // ---------------------------------------------------------------------
  // _config_add_waveforms

  /** What `calculate_waveform` returns: nothing, a (complex) number, or a
      (complex) list of samples; anything else is unsupported. */
  datatype Waveform =
    | NoWaveform
    | RealConstant(v: real)
    | ComplexConstant(re: real, im: real)
    | RealSamples(samples: seq<real>)
    | ComplexSamples(reSamples: seq<real>, imSamples: seq<real>)
    | Unsupported

  predicate IsComplex(w: Waveform) { w.ComplexConstant? || w.ComplexSamples? }
  predicate IsIQKind(k: ChannelKind) { k.IQKind? || k.MWKind? }

  function Samples(s: seq<real>): (r: Json)
    ensures r.JList? && |r.items| == |s|
  {
    JList(seq(|s|, i requires 0 <= i < |s| => JFloat(s[i])))
  }

  /** `"constant"` for a number, `"arbitrary"` for a list. */
  function WaveformType(w: Waveform): string {
    if w.RealConstant? || w.ComplexConstant? then "constant" else "arbitrary"
  }

  /** `"sample"` for a constant, `"samples"` for a list. */
  function SampleLabel(w: Waveform): string {
    if w.RealConstant? || w.ComplexConstant? then "sample" else "samples"
  }

  /** The waveforms a pulse contributes, by suffix, in insertion order: a
      complex waveform, or a real one on an IQ or MW channel, has `I` and
      `Q` parts (a real one with a zero `Q`); otherwise it is `single`.
      A `single` waveform needs a `SingleChannel` and an `I`/`Q` one an IQ
      or MW channel, or `ValueError`. */
  function WaveformParts(w: Waveform, kind: ChannelKind): (r: Result<seq<(string, Json)>>)
    requires !w.NoWaveform?
    ensures r.Err? ==> r.error == ValueError
    ensures r.Ok? <==> !w.Unsupported? && (if IsComplex(w) then IsIQKind(kind) else IsIQKind(kind) || kind.SingleKind?)
    ensures r.Ok? && (IsComplex(w) || IsIQKind(kind)) ==> |r.value| == 2 && r.value[0].0 == "I" && r.value[1].0 == "Q"
    ensures r.Ok? && !(IsComplex(w) || IsIQKind(kind)) ==> |r.value| == 1 && r.value[0].0 == "single"
  {
    var parts :=
      match w
      case RealConstant(v) =>
        if IsIQKind(kind) then [("I", JFloat(v)), ("Q", JFloat(0.0))] else [("single", JFloat(v))]
      case ComplexConstant(re, im) => [("I", JFloat(re)), ("Q", JFloat(im))]
      case RealSamples(s) =>
        if IsIQKind(kind) then [("I", Samples(s)), ("Q", Samples(seq(|s|, _ => 0.0)))] else [("single", Samples(s))]
      case ComplexSamples(re, im) => [("I", Samples(re)), ("Q", Samples(im))]
      case _ => [];
    if w.Unsupported? then Err(ValueError)
    else if parts[0].0 == "single" && !kind.SingleKind? then Err(ValueError)
    else if parts[0].0 == "I" && !IsIQKind(kind) then Err(ValueError)
    else Ok(parts)
  }

  /** The waveform's config name: `waveform_name`, with `.I` / `.Q` for
      the parts of an IQ waveform. */
  function WaveformFullName(wfLabel: string, suffix: string): string {
    if suffix == "single" then wfLabel else wfLabel + "." + suffix
  }

  /** The suffixes name distinct waveforms. */
  lemma FullNamesDistinct(wfLabel: string, s: string, t: string)
    requires s in {"single", "I", "Q"} && t in {"single", "I", "Q"} && s != t
    ensures WaveformFullName(wfLabel, s) != WaveformFullName(wfLabel, t)
  {
    var a, b := WaveformFullName(wfLabel, s), WaveformFullName(wfLabel, t);
    if |a| == |b| {
      assert a[|a| - 1] != b[|b| - 1];
    }
  }

  function WaveformEntry(w: Waveform, v: Json): Json {
    JObj(map[KStr("type") := JStr(WaveformType(w)), KStr(SampleLabel(w)) := v])
  }

  function WaveformPath(wfLabel: string, suffix: string): seq<Key> {
    [WaveformsKey, KStr(WaveformFullName(wfLabel, suffix))]
  }

  function PulseWaveformPath(pulseLabel: string, suffix: string): seq<Key> {
    [PulsesKey, KStr(pulseLabel), WaveformsKey, KStr(suffix)]
  }

  /** The loop over the parts: each writes `waveforms[<full name>]` and
      records the full name in the pulse's `waveforms` under its suffix. */
  function WriteParts(cfg: Obj, pulseLabel: string, wfLabel: string, w: Waveform, parts: seq<(string, Json)>)
    : (r: ConfigOutcome<()>)
    decreases |parts|
  {
    if parts == [] then ConfigOutcome(Ok(()), cfg)
    else
      var suffix := parts[0].0;
      match Update(cfg, WaveformPath(wfLabel, suffix), WaveformEntry(w, parts[0].1))
      case Err(e) => ConfigOutcome(Err(e), cfg)
      case Ok(c1) =>
        match Update(c1, PulseWaveformPath(pulseLabel, suffix), JStr(WaveformFullName(wfLabel, suffix)))
        case Err(e) => ConfigOutcome(Err(e), c1)
        case Ok(c2) => WriteParts(c2, pulseLabel, wfLabel, w, parts[1..])
  }

  /** `_config_add_waveforms`: nothing for no waveform; otherwise the
      pulse's `waveforms` is reset to `{}` before the parts are checked
      and written, so a rejected waveform leaves that reset behind. */
  function AddWaveforms(cfg: Obj, pulseLabel: string, wfLabel: string, w: Waveform, kind: ChannelKind)
    : (r: ConfigOutcome<()>)
    ensures Lookup(cfg, [PulsesKey, KStr(pulseLabel)]).Err? ==>
      r == ConfigOutcome(Err(Lookup(cfg, [PulsesKey, KStr(pulseLabel)]).error), cfg)
    ensures w.NoWaveform? && Lookup(cfg, [PulsesKey, KStr(pulseLabel)]).Ok? ==> r == ConfigOutcome(Ok(()), cfg)
    ensures (!w.NoWaveform? && WaveformParts(w, kind).Err? && Lookup(cfg, [PulsesKey, KStr(pulseLabel)]).Ok?
      && Lookup(cfg, [PulsesKey, KStr(pulseLabel)]).value.JObj?) ==> r.result == Err(ValueError)
  {
    var pulsePath := [PulsesKey, KStr(pulseLabel)];
    match Lookup(cfg, pulsePath)
    case Err(e) => ConfigOutcome(Err(e), cfg)
    case Ok(pc) =>
      if w.NoWaveform? then ConfigOutcome(Ok(()), cfg)
      else if !pc.JObj? then ConfigOutcome(Err(TypeError), cfg)
      else
        UpdateUnder(cfg, pulsePath, WaveformsKey, JObj(map[]));
        var c1 := Update(cfg, pulsePath + [WaveformsKey], JObj(map[])).value;
        match WaveformParts(w, kind)
        case Err(e) => ConfigOutcome(Err(e), c1)
        case Ok(parts) => WriteParts(c1, pulseLabel, wfLabel, w, parts)
  }

  /** Paths that branch off every path the loop writes, at index `iw` from
      the `waveforms` entries and at `ip` from the pulse's references. */
  ghost predicate AvoidsParts(q: seq<Key>, pulseLabel: string, wfLabel: string, parts: seq<(string, Json)>,
                              iw: nat, ip: nat) {
    forall j :: 0 <= j < |parts| ==>
      Branches(WaveformPath(wfLabel, parts[j].0), q, iw) && Branches(PulseWaveformPath(pulseLabel, parts[j].0), q, ip)
  }

  ghost predicate Branches(p: seq<Key>, q: seq<Key>, i: nat) {
    i < |p| && i < |q| && p[..i] == q[..i] && p[i] != q[i]
  }

  /** The loop leaves every path it does not write alone. */
  lemma {:induction false} WritePartsPreserves(cfg: Obj, pulseLabel: string, wfLabel: string, w: Waveform,
                                                parts: seq<(string, Json)>, q: seq<Key>, iw: nat, ip: nat)
    requires q != [] && WriteParts(cfg, pulseLabel, wfLabel, w, parts).result.Ok?
    requires AvoidsParts(q, pulseLabel, wfLabel, parts, iw, ip)
    ensures Lookup(WriteParts(cfg, pulseLabel, wfLabel, w, parts).cfg, q) == Lookup(cfg, q)
    decreases |parts|
  {
    if parts != [] {
      var suffix := parts[0].0;
      var p1 := WaveformPath(wfLabel, suffix);
      var p2 := PulseWaveformPath(pulseLabel, suffix);
      var c1 := Update(cfg, p1, WaveformEntry(w, parts[0].1)).value;
      var c2 := Update(c1, p2, JStr(WaveformFullName(wfLabel, suffix))).value;
      UpdateDisjoint(cfg, p1, WaveformEntry(w, parts[0].1), q, iw);
      UpdateDisjoint(c1, p2, JStr(WaveformFullName(wfLabel, suffix)), q, ip);
      assert AvoidsParts(q, pulseLabel, wfLabel, parts[1..], iw, ip) by {
        forall j | 0 <= j < |parts| - 1
          ensures Branches(WaveformPath(wfLabel, parts[1..][j].0), q, iw)
            && Branches(PulseWaveformPath(pulseLabel, parts[1..][j].0), q, ip)
        {
          assert parts[1..][j] == parts[j + 1];
        }
      }
      WritePartsPreserves(c2, pulseLabel, wfLabel, w, parts[1..], q, iw, ip);
    }
  }

  predicate SuffixesOk(parts: seq<(string, Json)>) {
    && (forall j :: 0 <= j < |parts| ==> parts[j].0 in {"single", "I", "Q"})
    && (forall i, j :: 0 <= i < j < |parts| ==> parts[i].0 != parts[j].0)
  }

  lemma SuffixesOkTail(parts: seq<(string, Json)>)
    requires parts != [] && SuffixesOk(parts)
    ensures SuffixesOk(parts[1..])
    ensures forall j :: 0 <= j < |parts| - 1 ==> parts[1..][j].0 != parts[0].0
  {
    var rest := parts[1..];
    forall j | 0 <= j < |rest| ensures rest[j].0 in {"single", "I", "Q"} && rest[j].0 != parts[0].0 {
      assert rest[j] == parts[j + 1];
    }
    forall i, j | 0 <= i < j < |rest| ensures rest[i].0 != rest[j].0 {
      assert rest[i] == parts[i + 1] && rest[j] == parts[j + 1];
    }
  }

  /** The first part written survives the rest of the loop. */
  lemma FirstPartSurvives(c1: Obj, pulseLabel: string, wfLabel: string, w: Waveform, parts: seq<(string, Json)>)
    requires parts != [] && SuffixesOk(parts)
    requires Lookup(c1, WaveformPath(wfLabel, parts[0].0)) == Ok(WaveformEntry(w, parts[0].1))
    requires Update(c1, PulseWaveformPath(pulseLabel, parts[0].0), JStr(WaveformFullName(wfLabel, parts[0].0))).Ok?
    requires WriteParts(Update(c1, PulseWaveformPath(pulseLabel, parts[0].0), JStr(WaveformFullName(wfLabel, parts[0].0))).value,
                        pulseLabel, wfLabel, w, parts[1..]).result.Ok?
    ensures var c := WriteParts(Update(c1, PulseWaveformPath(pulseLabel, parts[0].0), JStr(WaveformFullName(wfLabel, parts[0].0))).value,
                                pulseLabel, wfLabel, w, parts[1..]).cfg;
      && Lookup(c, WaveformPath(wfLabel, parts[0].0)) == Ok(WaveformEntry(w, parts[0].1))
      && Lookup(c, PulseWaveformPath(pulseLabel, parts[0].0)) == Ok(JStr(WaveformFullName(wfLabel, parts[0].0)))
  {
    var suffix := parts[0].0;
    var p1 := WaveformPath(wfLabel, suffix);
    var p2 := PulseWaveformPath(pulseLabel, suffix);
    var c2 := Update(c1, p2, JStr(WaveformFullName(wfLabel, suffix))).value;
    var rest := parts[1..];
    SuffixesOkTail(parts);
    UpdateDisjoint(c1, p2, JStr(WaveformFullName(wfLabel, suffix)), p1, 0);
    forall j | 0 <= j < |rest|
      ensures Branches(WaveformPath(wfLabel, rest[j].0), p1, 1)
        && Branches(PulseWaveformPath(pulseLabel, rest[j].0), p1, 0)
      ensures Branches(WaveformPath(wfLabel, rest[j].0), p2, 0)
        && Branches(PulseWaveformPath(pulseLabel, rest[j].0), p2, 3)
    {
      FullNamesDistinct(wfLabel, suffix, rest[j].0);
      assert WaveformPath(wfLabel, rest[j].0)[..1] == p1[..1];
      assert PulseWaveformPath(pulseLabel, rest[j].0)[..3] == p2[..3];
    }
    WritePartsPreserves(c2, pulseLabel, wfLabel, w, rest, p1, 1, 0);
    WritePartsPreserves(c2, pulseLabel, wfLabel, w, rest, p2, 0, 3);
  }

  /** After the loop, every part is stored under its full name and the
      pulse refers to it under its suffix. */
  lemma {:induction false} WritePartsRecords(cfg: Obj, pulseLabel: string, wfLabel: string, w: Waveform,
                                              parts: seq<(string, Json)>, k: nat)
    requires WriteParts(cfg, pulseLabel, wfLabel, w, parts).result.Ok?
    requires SuffixesOk(parts) && k < |parts|
    ensures var c := WriteParts(cfg, pulseLabel, wfLabel, w, parts).cfg;
      && Lookup(c, WaveformPath(wfLabel, parts[k].0)) == Ok(WaveformEntry(w, parts[k].1))
      && Lookup(c, PulseWaveformPath(pulseLabel, parts[k].0)) == Ok(JStr(WaveformFullName(wfLabel, parts[k].0)))
    decreases |parts|
  {
    var suffix := parts[0].0;
    var c1 := Update(cfg, WaveformPath(wfLabel, suffix), WaveformEntry(w, parts[0].1)).value;
    var c2 := Update(c1, PulseWaveformPath(pulseLabel, suffix), JStr(WaveformFullName(wfLabel, suffix))).value;
    assert WriteParts(cfg, pulseLabel, wfLabel, w, parts) == WriteParts(c2, pulseLabel, wfLabel, w, parts[1..]);
    if k > 0 {
      SuffixesOkTail(parts);
      assert parts[1..][k - 1] == parts[k];
      WritePartsRecords(c2, pulseLabel, wfLabel, w, parts[1..], k - 1);
    } else {
      FirstPartSurvives(c1, pulseLabel, wfLabel, w, parts);
    }
  }

  /** The imperative loop of `_config_add_waveforms`, proved against
      `WriteParts`. */
  method WritePartsLoop(config: Dict, pulseLabel: string, wfLabel: string, w: Waveform, parts: seq<(string, Json)>)
    returns (r: Result<()>)
    modifies config
    ensures ConfigOutcome(r, config.data) == WriteParts(old(config.data), pulseLabel, wfLabel, w, parts)
  {
    var i := 0;
    while i < |parts|
      invariant 0 <= i <= |parts|
      invariant WriteParts(old(config.data), pulseLabel, wfLabel, w, parts)
        == WriteParts(config.data, pulseLabel, wfLabel, w, parts[i..])
    {
      var suffix := parts[i].0;
      assert parts[i..][1..] == parts[i + 1..];
      var c1 := Update(config.data, WaveformPath(wfLabel, suffix), WaveformEntry(w, parts[i].1));
      if c1.Err? {
        return Err(c1.error);
      }
      config.data := c1.value;
      var c2 := Update(config.data, PulseWaveformPath(pulseLabel, suffix), JStr(WaveformFullName(wfLabel, suffix)));
      if c2.Err? {
        return Err(c2.error);
      }
      config.data := c2.value;
      i := i + 1;
    }
    r := Ok(());
  }

  // ---------------------------------------------------------------------
  // _config_add_digital_markers

  /** `digital_marker`: `None`, the name of a marker already in the config,
      or a list of `(value, length)` pairs. */
  datatype Marker = MarkerNone | MarkerName(name: string) | MarkerSamples(items: seq<seq<Json>>)

  /** Python truthiness of the marker. */
  predicate Truthy(m: Marker) {
    match m
    case MarkerNone => false
    case MarkerName(s) => s != ""
    case MarkerSamples(items) => items != []
  }

  /** `[tuple(t) for t in digital_marker]` */
  function MarkerTuples(items: seq<seq<Json>>): (r: Json)
    ensures r.JList? && |r.items| == |items|
    ensures forall i :: 0 <= i < |items| ==> r.items[i] == JTuple(items[i])
  {
    JList(seq(|items|, i requires 0 <= i < |items| => JTuple(items[i])))
  }

  function MarkerEntry(items: seq<seq<Json>>): Json {
    JObj(map[KStr("samples") := MarkerTuples(items)])
  }

  /** `_config_add_digital_markers`: a named marker must already be in
      `digital_waveforms` (`KeyError`); a list is stored there under
      `digital_marker_name`. Either way the pulse names its marker. */
  function AddDigitalMarker(cfg: Obj, pulseLabel: string, dmLabel: string, m: Marker): (r: ConfigOutcome<()>)
    requires !m.MarkerNone?
    ensures m.MarkerName? && r.result.Ok? ==>
      DigitalWaveformsKey in cfg && cfg[DigitalWaveformsKey].JObj? && KStr(m.name) in cfg[DigitalWaveformsKey].fields
    ensures (m.MarkerName? && DigitalWaveformsKey in cfg && cfg[DigitalWaveformsKey].JObj?
      && KStr(m.name) !in cfg[DigitalWaveformsKey].fields) ==> r == ConfigOutcome(Err(KeyError), cfg)
    ensures r.result.Ok? ==> (Lookup(r.cfg, [PulsesKey, KStr(pulseLabel), DigitalMarkerKey])
      == Ok(JStr(if m.MarkerName? then m.name else dmLabel)))
    ensures r.result.Ok? && m.MarkerSamples? ==>
      Lookup(r.cfg, [DigitalWaveformsKey, KStr(dmLabel)]) == Ok(MarkerEntry(m.items))
  {
    var c1: Result<(Obj, string)> :=
      match m
      case MarkerName(s) =>
        if DigitalWaveformsKey !in cfg then Err(KeyError)
        else if !cfg[DigitalWaveformsKey].JObj? then Err(TypeError)
        else if KStr(s) !in cfg[DigitalWaveformsKey].fields then Err(KeyError)
        else Ok((cfg, s))
      case MarkerSamples(items) =>
        match Update(cfg, [DigitalWaveformsKey, KStr(dmLabel)], MarkerEntry(items))
        case Err(e) => Err(e)
        case Ok(c) => Ok((c, dmLabel));
    if c1.Err? then ConfigOutcome(Err(c1.error), cfg)
    else
      var path := [PulsesKey, KStr(pulseLabel), DigitalMarkerKey];
      match Update(c1.value.0, path, JStr(c1.value.1))
      case Err(e) => ConfigOutcome(Err(e), c1.value.0)
      case Ok(c2) =>
        UpdateDisjoint(c1.value.0, path, JStr(c1.value.1), [DigitalWaveformsKey, KStr(dmLabel)], 0);
        ConfigOutcome(Ok(()), c2)
  }

  // ---------------------------------------------------------------------
  // apply_to_config

  /** The fields of a pulse that `apply_to_config` reads. `operation` is
      the class variable (`control`, or `measurement` for readout pulses). */
  datatype Pulse = Pulse(
    operation: string,
    length: Json,
    id: Option<string>,
    placement: Placement,
    waveform: Waveform,
    marker: Marker)

  /** `Pulse.apply_to_config`: nothing without a channel; otherwise the
      pulse, its waveforms and, when `digital_marker` is truthy, its
      digital marker. */
  function ApplyPulse(cfg: Obj, p: Pulse): (r: ConfigOutcome<()>)
    ensures Channel(p.placement).None? ==> r == ConfigOutcome(Ok(()), cfg)
    ensures Channel(p.placement).Some? ==>
      r.result.Err? || PulseName(p.id, p.placement).Ok?
    ensures (Channel(p.placement).Some? && p.operation in {"control", "measurement"}
             && (p.length.JInt? || p.length.JBool?) && PulsesKey in cfg && PulseName(p.id, p.placement).Err?) ==>
      r == ConfigOutcome(Err(PulseName(p.id, p.placement).error), cfg)
  {
    match Channel(p.placement)
    case None => ConfigOutcome(Ok(()), cfg)
    case Some(ch) =>
      var c1 := AddPulse(cfg, PulseLabelOf(PulseName(p.id, p.placement)), p.operation, p.length);
      if c1.result.Err? then c1
      else
        var name := PulseName(p.id, p.placement).value;
        var c2 := AddWaveforms(c1.cfg, PulseLabel(name), WaveformLabel(name), p.waveform, ch.kind);
        if c2.result.Err? || !Truthy(p.marker) then c2
        else AddDigitalMarker(c2.cfg, PulseLabel(name), DigitalMarkerLabel(name), p.marker)
  }

  /** A pulse applied successfully to the config has an entry under its
      `pulse_name` with its operation and length, and names its digital
      marker when it has one. */
  lemma ApplyPulseRecords(cfg: Obj, p: Pulse)
    requires ApplyPulse(cfg, p).result.Ok? && Channel(p.placement).Some?
    ensures PulseName(p.id, p.placement).Ok?
    ensures var r := ApplyPulse(cfg, p);
      var tag := PulseLabel(PulseName(p.id, p.placement).value);
      && Lookup(r.cfg, [PulsesKey, KStr(tag)]).Ok?
      && Lookup(r.cfg, [PulsesKey, KStr(tag)]).value.JObj?
      && Lookup(r.cfg, [PulsesKey, KStr(tag), KStr("operation")]) == Ok(JStr(p.operation))
      && (Truthy(p.marker) ==>
            Lookup(r.cfg, [PulsesKey, KStr(tag), DigitalMarkerKey])
              == Ok(JStr(if p.marker.MarkerName? then p.marker.name else DigitalMarkerLabel(PulseName(p.id, p.placement).value))))
  {
    var ch := Channel(p.placement).value;
    var name := PulseName(p.id, p.placement).value;
    var tag := PulseLabel(name);
    var pulsePath := [PulsesKey, KStr(tag)];
    var opPath := pulsePath + [KStr("operation")];
    var c1 := AddPulse(cfg, Ok(tag), p.operation, p.length);
    assert Lookup(c1.cfg, opPath) == Ok(JStr(p.operation)) by {
      LookupExtend(c1.cfg, pulsePath, KStr("operation"));
    }
    var c2 := AddWaveforms(c1.cfg, tag, WaveformLabel(name), p.waveform, ch.kind);
    AddWaveformsKeepsPulseFields(c1.cfg, tag, WaveformLabel(name), p.waveform, ch.kind, KStr("operation"));
    LookupPrefix(c2.cfg, pulsePath, KStr("operation"));
    if Truthy(p.marker) {
      var c3 := AddDigitalMarker(c2.cfg, tag, DigitalMarkerLabel(name), p.marker);
      AddDigitalMarkerKeepsPulseFields(c2.cfg, tag, DigitalMarkerLabel(name), p.marker, KStr("operation"));
      assert opPath == [PulsesKey, KStr(tag), KStr("operation")];
      LookupPrefix(c3.cfg, pulsePath, KStr("operation"));
    }
  }

  /** Adding the waveforms changes no field of the pulse but `waveforms`. */
  lemma AddWaveformsKeepsPulseFields(cfg: Obj, pulseLabel: string, wfLabel: string, w: Waveform,
                                     kind: ChannelKind, k: Key)
    requires k != WaveformsKey
    ensures var r := AddWaveforms(cfg, pulseLabel, wfLabel, w, kind);
      r.result.Ok? ==> Lookup(r.cfg, [PulsesKey, KStr(pulseLabel), k]) == Lookup(cfg, [PulsesKey, KStr(pulseLabel), k])
  {
    var r := AddWaveforms(cfg, pulseLabel, wfLabel, w, kind);
    var q := [PulsesKey, KStr(pulseLabel), k];
    if r.result.Ok? && !w.NoWaveform? {
      var parts := WaveformParts(w, kind).value;
      var pulsePath := [PulsesKey, KStr(pulseLabel)];
      UpdateUnder(cfg, pulsePath, WaveformsKey, JObj(map[]));
      var c1 := Update(cfg, pulsePath + [WaveformsKey], JObj(map[])).value;
      UpdateDisjoint(cfg, pulsePath + [WaveformsKey], JObj(map[]), q, 2);
      forall j | 0 <= j < |parts|
        ensures Branches(WaveformPath(wfLabel, parts[j].0), q, 0) && Branches(PulseWaveformPath(pulseLabel, parts[j].0), q, 2)
      {
        assert PulseWaveformPath(pulseLabel, parts[j].0)[..2] == q[..2];
      }
      WritePartsPreserves(c1, pulseLabel, wfLabel, w, parts, q, 0, 2);
    }
  }

  /** Adding the digital marker changes no field of the pulse but
      `digital_marker`. */
  lemma AddDigitalMarkerKeepsPulseFields(cfg: Obj, pulseLabel: string, dmLabel: string, m: Marker, k: Key)
    requires !m.MarkerNone? && k != DigitalMarkerKey
    ensures var r := AddDigitalMarker(cfg, pulseLabel, dmLabel, m);
      r.result.Ok? ==> Lookup(r.cfg, [PulsesKey, KStr(pulseLabel), k]) == Lookup(cfg, [PulsesKey, KStr(pulseLabel), k])
  {
    var r := AddDigitalMarker(cfg, pulseLabel, dmLabel, m);
    var q := [PulsesKey, KStr(pulseLabel), k];
    if r.result.Ok? {
      var c1 := if m.MarkerName? then cfg else Update(cfg, [DigitalWaveformsKey, KStr(dmLabel)], MarkerEntry(m.items)).value;
      if m.MarkerSamples? {
        UpdateDisjoint(cfg, [DigitalWaveformsKey, KStr(dmLabel)], MarkerEntry(m.items), q, 0);
      }
      var name := if m.MarkerName? then m.name else dmLabel;
      UpdateDisjoint(c1, [PulsesKey, KStr(pulseLabel), DigitalMarkerKey], JStr(name), q, 2);
    }
  }

  /** After `_config_add_waveforms` succeeds on a waveform, each of its
      parts is in `waveforms` under its full name and the pulse refers to
      it under its suffix. */
  lemma AddWaveformsRecords(cfg: Obj, pulseLabel: string, wfLabel: string, w: Waveform, kind: ChannelKind, k: nat)
    requires !w.NoWaveform? && AddWaveforms(cfg, pulseLabel, wfLabel, w, kind).result.Ok?
    requires WaveformParts(w, kind).Ok? && k < |WaveformParts(w, kind).value|
    ensures var c := AddWaveforms(cfg, pulseLabel, wfLabel, w, kind).cfg;
      var part := WaveformParts(w, kind).value[k];
      && Lookup(c, [WaveformsKey, KStr(WaveformFullName(wfLabel, part.0))]) == Ok(WaveformEntry(w, part.1))
      && Lookup(c, [PulsesKey, KStr(pulseLabel), WaveformsKey, KStr(part.0)])
           == Ok(JStr(WaveformFullName(wfLabel, part.0)))
  {
    var pulsePath := [PulsesKey, KStr(pulseLabel)];
    UpdateUnder(cfg, pulsePath, WaveformsKey, JObj(map[]));
    var c1 := Update(cfg, pulsePath + [WaveformsKey], JObj(map[])).value;
    var parts := WaveformParts(w, kind).value;
    assert AddWaveforms(cfg, pulseLabel, wfLabel, w, kind) == WriteParts(c1, pulseLabel, wfLabel, w, parts);
    PartsSuffixesOk(w, kind);
    WritePartsRecords(c1, pulseLabel, wfLabel, w, parts, k);
  }

  lemma PartsSuffixesOk(w: Waveform, kind: ChannelKind)
    requires !w.NoWaveform? && WaveformParts(w, kind).Ok?
    ensures SuffixesOk(WaveformParts(w, kind).value)
  {
  }

  /** A real waveform on a single channel is one config waveform named
      `waveform_name`, and the pulse's `single` waveform refers to it. */
  lemma SingleWaveform(cfg: Obj, pulseLabel: string, wfLabel: string, w: Waveform)
    requires (w.RealConstant? || w.RealSamples?) && AddWaveforms(cfg, pulseLabel, wfLabel, w, SingleKind).result.Ok?
    ensures var c := AddWaveforms(cfg, pulseLabel, wfLabel, w, SingleKind).cfg;
      && Lookup(c, [WaveformsKey, KStr(wfLabel)]).Ok?
      && Lookup(c, [PulsesKey, KStr(pulseLabel), WaveformsKey, KStr("single")]) == Ok(JStr(wfLabel))
  {
    AddWaveformsRecords(cfg, pulseLabel, wfLabel, w, SingleKind, 0);
  }

  /** The imperative `_config_add_waveforms`, proved against `AddWaveforms`. */
  method AddWaveformsTo(config: Dict, pulseLabel: string, wfLabel: string, w: Waveform, kind: ChannelKind)
    returns (r: Result<()>)
    modifies config
    ensures ConfigOutcome(r, config.data) == AddWaveforms(old(config.data), pulseLabel, wfLabel, w, kind)
  {
    var pulsePath := [PulsesKey, KStr(pulseLabel)];
    var pulseConfig := Lookup(config.data, pulsePath);
    if pulseConfig.Err? {
      return Err(pulseConfig.error);
    }
    if w.NoWaveform? {
      return Ok(());
    }
    if !pulseConfig.value.JObj? {
      return Err(TypeError);
    }
    UpdateUnder(config.data, pulsePath, WaveformsKey, JObj(map[]));
    config.data := Update(config.data, pulsePath + [WaveformsKey], JObj(map[])).value;
    var parts := WaveformParts(w, kind);
    if parts.Err? {
      return Err(parts.error);
    }
    r := WritePartsLoop(config, pulseLabel, wfLabel, w, parts.value);
  }

  /** The imperative `Pulse.apply_to_config`, proved against `ApplyPulse`. */
  method ApplyPulseTo(config: Dict, p: Pulse) returns (r: Result<()>)
    modifies config
    ensures ConfigOutcome(r, config.data) == ApplyPulse(old(config.data), p)
  {
    var ch := Channel(p.placement);
    if ch.None? {
      return Ok(());
    }
    var name := PulseName(p.id, p.placement);
    var added := AddPulse(config.data, PulseLabelOf(name), p.operation, p.length);
    config.data := added.cfg;
    if added.result.Err? {
      return added.result;
    }
    r := AddWaveformsTo(config, PulseLabel(name.value), WaveformLabel(name.value), p.waveform, ch.value.kind);
    if r.Err? || !Truthy(p.marker) {
      return;
    }
    var marked := AddDigitalMarker(config.data, PulseLabel(name.value), DigitalMarkerLabel(name.value), p.marker);
    config.data := marked.cfg;
    r := marked.result;
  }

  // ---------------------------------------------------------------------
  // Readout pulses

  const WeightLabels: seq<string> := ["iw1", "iw2", "iw3"]

  /** `integration_weights_names`: the pulse name with each weight label. */
  function IntegrationWeightsNames(name: string): (r: seq<string>)
    ensures |r| == |WeightLabels|
    ensures forall i :: 0 <= i < |r| ==> r[i] == name + "." + WeightLabels[i]
  {
    seq(|WeightLabels|, i requires 0 <= i < |WeightLabels| => name + "." + WeightLabels[i])
  }

  /** `integration_weights_mapping`: `dict(zip(labels, names))`. */
  function IntegrationWeightsMapping(name: string): map<Key, Json> {
    var names := IntegrationWeightsNames(name);
    map[KStr("iw1") := JStr(names[0]), KStr("iw2") := JStr(names[1]), KStr("iw3") := JStr(names[2])]
  }

  /** The mapping sends each weight label to the name at its position, and
      the three names are distinct. */
  lemma IntegrationWeightsZip(name: string)
    ensures forall i :: 0 <= i < |WeightLabels| ==>
      IntegrationWeightsMapping(name)[KStr(WeightLabels[i])] == JStr(IntegrationWeightsNames(name)[i])
    ensures IntegrationWeightsMapping(name).Keys == set l | l in WeightLabels :: KStr(l)
    ensures forall i, j :: 0 <= i < j < |WeightLabels| ==>
      IntegrationWeightsNames(name)[i] != IntegrationWeightsNames(name)[j]
  {
    var names := IntegrationWeightsNames(name);
    forall i, j | 0 <= i < j < |WeightLabels| ensures names[i] != names[j] {
      assert names[i][|names[i]| - 1] != names[j][|names[j]| - 1];
    }
  }

  /** What `integration_weights_function` returns, by key. */
  datatype Weights = Weights(realPart: Json, imagPart: Json, minusReal: Json, minusImag: Json)

  function WeightEntry(cosine: Json, sine: Json): Json {
    JObj(map[KStr("cosine") := cosine, KStr("sine") := sine])
  }

  /** The `cosine`/`sine` pair stored for weight `i`: `(real, -imag)`,
      `(imag, real)` and `(-imag, -real)`. */
  function WeightPair(w: Weights, i: nat): Json
    requires i < 3
  {
    if i == 0 then WeightEntry(w.realPart, w.minusImag)
    else if i == 1 then WeightEntry(w.imagPart, w.realPart)
    else WeightEntry(w.minusImag, w.minusReal)
  }

  function WeightPath(name: string, i: nat): seq<Key>
    requires i < 3
  {
    [IntegrationWeightsKey, KStr(IntegrationWeightsNames(name)[i])]
  }

  /** The three weights written under `integration_weights`, in order. */
  function WriteWeights(cfg: Obj, name: string, w: Weights): (r: ConfigOutcome<()>) {
    match Update(cfg, WeightPath(name, 0), WeightPair(w, 0))
    case Err(e) => ConfigOutcome(Err(e), cfg)
    case Ok(c1) =>
      match Update(c1, WeightPath(name, 1), WeightPair(w, 1))
      case Err(e) => ConfigOutcome(Err(e), c1)
      case Ok(c2) =>
        match Update(c2, WeightPath(name, 2), WeightPair(w, 2))
        case Err(e) => ConfigOutcome(Err(e), c2)
        case Ok(c3) => ConfigOutcome(Ok(()), c3)
  }

  /** Each weight survives the writes after it, the names being distinct. */
  lemma WriteWeightsRecords(cfg: Obj, name: string, w: Weights, i: nat)
    requires WriteWeights(cfg, name, w).result.Ok? && i < 3
    ensures Lookup(WriteWeights(cfg, name, w).cfg, WeightPath(name, i)) == Ok(WeightPair(w, i))
  {
    var names := IntegrationWeightsNames(name);
    var c1 := Update(cfg, WeightPath(name, 0), WeightPair(w, 0)).value;
    var c2 := Update(c1, WeightPath(name, 1), WeightPair(w, 1)).value;
    if i < 2 {
      assert names[i][|names[i]| - 1] != names[2][|names[2]| - 1];
      UpdateDisjoint(c2, WeightPath(name, 2), WeightPair(w, 2), WeightPath(name, i), 1);
    }
    if i == 0 {
      assert names[0][|names[0]| - 1] != names[1][|names[1]| - 1];
      UpdateDisjoint(c1, WeightPath(name, 1), WeightPair(w, 1), WeightPath(name, 0), 1);
    }
  }

  /** `_config_add_integration_weights`: the three weights under
      `integration_weights`, then the pulse's own `integration_weights`
      mapping. The first assignment reads `config["integration_weights"]`
      (`KeyError` when missing) before it computes the weight's name, so
      only then does a pulse without a channel raise `AttributeError`. */
  function AddIntegrationWeights(cfg: Obj, id: Option<string>, pl: Placement, w: Weights): (r: ConfigOutcome<()>)
    ensures IntegrationWeightsKey !in cfg ==> r == ConfigOutcome(Err(KeyError), cfg)
    ensures IntegrationWeightsKey in cfg && PulseName(id, pl).Err? ==>
      r == ConfigOutcome(Err(PulseName(id, pl).error), cfg)
  {
    if IntegrationWeightsKey !in cfg then ConfigOutcome(Err(KeyError), cfg)
    else match PulseName(id, pl)
    case Err(e) => ConfigOutcome(Err(e), cfg)
    case Ok(name) =>
      var c := WriteWeights(cfg, name, w);
      if c.result.Err? then c
      else
        var pulsePath := [PulsesKey, KStr(PulseLabel(name))];
        match Lookup(c.cfg, pulsePath)
        case Err(e) => ConfigOutcome(Err(e), c.cfg)
        case Ok(pc) =>
          if !pc.JObj? then ConfigOutcome(Err(TypeError), c.cfg)
          else
            var mapping := JObj(IntegrationWeightsMapping(name));
            UpdateUnder(c.cfg, pulsePath, IntegrationWeightsKey, mapping);
            ConfigOutcome(Ok(()), Update(c.cfg, pulsePath + [IntegrationWeightsKey], mapping).value)
  }

  /** After the integration weights are added, each weight is stored under
      its name and the pulse maps the labels to those names. */
  lemma IntegrationWeightsRecorded(cfg: Obj, id: Option<string>, pl: Placement, w: Weights, i: nat)
    requires AddIntegrationWeights(cfg, id, pl, w).result.Ok? && i < 3
    ensures PulseName(id, pl).Ok?
    ensures var c := AddIntegrationWeights(cfg, id, pl, w).cfg;
      var name := PulseName(id, pl).value;
      && Lookup(c, WeightPath(name, i)) == Ok(WeightPair(w, i))
      && Lookup(c, [PulsesKey, KStr(PulseLabel(name)), IntegrationWeightsKey])
           == Ok(JObj(IntegrationWeightsMapping(name)))
  {
    var name := PulseName(id, pl).value;
    var mapping := JObj(IntegrationWeightsMapping(name));
    var c3 := WriteWeights(cfg, name, w).cfg;
    var pulsePath := [PulsesKey, KStr(PulseLabel(name))];
    var last := pulsePath + [IntegrationWeightsKey];
    UpdateUnder(c3, pulsePath, IntegrationWeightsKey, mapping);
    assert AddIntegrationWeights(cfg, id, pl, w).cfg == Update(c3, last, mapping).value;
    WriteWeightsRecords(cfg, name, w, i);
    UpdateDisjoint(c3, last, mapping, WeightPath(name, i), 0);
  }

  /** `BaseReadoutPulse.apply_to_config`: the plain pulse, then its
      integration weights. */
  function ApplyReadoutPulse(cfg: Obj, p: Pulse, w: Weights): (r: ConfigOutcome<()>)
    ensures ApplyPulse(cfg, p).result.Err? ==> r == ApplyPulse(cfg, p)
  {
    var c := ApplyPulse(cfg, p);
    if c.result.Err? then c else AddIntegrationWeights(c.cfg, p.id, p.placement, w)
  }

  /** A plain pulse without a channel is skipped, but a readout pulse
      without one raises `AttributeError` once it asks for its name. */
  lemma DetachedReadoutPulseRaises(cfg: Obj, p: Pulse, w: Weights)
    requires Channel(p.placement).None? && IntegrationWeightsKey in cfg
    ensures ApplyPulse(cfg, p) == ConfigOutcome(Ok(()), cfg)
    ensures ApplyReadoutPulse(cfg, p, w) == ConfigOutcome(Err(AttributeError), cfg)
  {
  }

  /** The default `digital_marker` of a readout pulse, `"ON"`, must already
      be a digital waveform of the config. */
  lemma ReadoutMarkerMustExist(cfg: Obj, pulseLabel: string, dmLabel: string)
    requires DigitalWaveformsKey in cfg && cfg[DigitalWaveformsKey].JObj?
    ensures AddDigitalMarker(cfg, pulseLabel, dmLabel, MarkerName("ON")).result.Ok?
      ==> KStr("ON") in cfg[DigitalWaveformsKey].fields
    ensures KStr("ON") !in cfg[DigitalWaveformsKey].fields
      ==> AddDigitalMarker(cfg, pulseLabel, dmLabel, MarkerName("ON")).result == Err(KeyError)
  {
  }

  /** `ReadoutPulse.default_integration_weights`: weight 1 over the whole
      pulse. */
  function DefaultIntegrationWeights(length: Json): (r: Json)
    ensures r.JList? && |r.items| == 1 && r.items[0] == JTuple([JInt(1), length])
  {
    JList([JTuple([JInt(1), length])])
  }

  // ---------------------------------------------------------------------
  // Flat-top pulses and waveform pulses

  /** The check shared by the flat-top pulses' `waveform_function`s:
      `rise_fall_length = (length - flat_length) // 2` must add back up to
      `length`, else `ValueError`. Python's `//` floors, as Dafny's `/`
      does for a positive divisor. */
  function RiseFallLength(length: int, flatLength: int): (r: Result<int>)
    ensures r.Ok? <==> (length - flatLength) % 2 == 0
    ensures r.Ok? ==> flatLength + 2 * r.value == length
    ensures r.Err? ==> r.error == ValueError
  {
    var riseFall := (length - flatLength) / 2;
    if flatLength + 2 * riseFall != length then Err(ValueError) else Ok(riseFall)
  }

  /** `WaveformPulse.length`: the number of `waveform_I` samples, or `None`
      when `waveform_I` is not iterable. */
  datatype WaveformData = SampleList(values: seq<real>) | NotIterable

  function WaveformPulseLength(waveformI: WaveformData): (r: Option<nat>)
    ensures r.Some? <==> waveformI.SampleList?
    ensures r.Some? ==> r.value == |waveformI.values|
  {
    match waveformI
    case SampleList(values) => Some(|values|)
    case NotIterable => None
  }

  /** The `length` setter only accepts `None`; any other value raises
      `AttributeError`, so the length always follows `waveform_I`. */
  function SetWaveformPulseLength(length: Option<int>): (r: Result<()>)
    ensures r.Ok? <==> length.None?
    ensures r.Err? ==> r.error == AttributeError
  {
    if length.Some? then Err(AttributeError) else Ok(())
  }
}

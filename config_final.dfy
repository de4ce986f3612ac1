/** `quam/utils/config.py`: the last pass over a generated QUA config,
    which gives every analog output and input port a DC offset of 0.0
    unless it already has one. */
module ConfigFinal {
  import opened Wrappers
  import opened JsonValue

  const ControllersKey: Key := KStr("controllers")
  const FemsKey: Key := KStr("fems")
  const TypeKey: Key := KStr("type")
  const OutputsKey: Key := KStr("analog_outputs")
  const InputsKey: Key := KStr("analog_inputs")
  const OffsetKey: Key := KStr("offset")
  const DefaultOffset: Json := JFloat(0.0)

  /** `port.setdefault("offset", 0.0)`; a port that is not a dict has no
      `setdefault`. */
  function WithOffset(port: Json): (r: Result<Json>)
    ensures r.Ok? <==> port.JObj?
    ensures r.Err? ==> r.error == AttributeError
    ensures r.Ok? ==> r.value.JObj? && r.value.fields.Keys == port.fields.Keys + {OffsetKey}
    ensures r.Ok? ==> forall k | k in port.fields :: r.value.fields[k] == port.fields[k]
    ensures r.Ok? && OffsetKey !in port.fields ==> r.value.fields[OffsetKey] == DefaultOffset
  {
    if !port.JObj? then Err(AttributeError)
    else if OffsetKey in port.fields then Ok(port)
    else Ok(JObj(port.fields[OffsetKey := DefaultOffset]))
  }

  /** `f` applied to every value of a dict, keys kept. Every failure of the
      functions applied here is the `AttributeError` of a value that is not
      a dict, so the order in which the values are visited does not show. */
  function MapOk(m: Obj, f: Json -> Result<Json>): (r: Result<Obj>)
    ensures r.Ok? <==> forall k | k in m :: f(m[k]).Ok?
    ensures r.Err? ==> r.error == AttributeError
    ensures r.Ok? ==> r.value.Keys == m.Keys && forall k | k in m :: r.value[k] == f(m[k]).value
  {
    if forall k | k in m :: f(m[k]).Ok? then Ok(map k | k in m :: f(m[k]).value)
    else Err(AttributeError)
  }

  /** `for v in d.values(): ...` where `d` must be a dict. */
  function EachValue(d: Json, f: Json -> Result<Json>): (r: Result<Json>)
    ensures r.Ok? ==> d.JObj? && r.value.JObj? && r.value.fields.Keys == d.fields.Keys
    ensures !d.JObj? ==> r == Err(AttributeError)
    ensures r.Err? ==> r.error == AttributeError
    ensures r.Ok? <==> d.JObj? && forall k | k in d.fields :: f(d.fields[k]).Ok?
    ensures r.Ok? ==> forall k | k in d.fields :: f(d.fields[k]) == Ok(r.value.fields[k])
  {
    if !d.JObj? then Err(AttributeError)
    else
      var m :- MapOk(d.fields, f);
      Ok(JObj(m))
  }

  /** The ports under `key` of a dict, when the key is present. */
  function PortsAt(d: Obj, key: Key): (r: Result<Obj>)
    ensures r.Ok? ==> r.value.Keys == d.Keys
    ensures r.Ok? ==> forall k | k in d && k != key :: r.value[k] == d[k]
    ensures key !in d ==> r == Ok(d)
    ensures r.Err? ==> r.error == AttributeError
  {
    if key !in d then Ok(d)
    else
      var ports :- EachValue(d[key], WithOffset);
      Ok(d[key := ports])
  }

  /** `fem.get("type") == "LF"`. */
  predicate IsLf(fem: Obj) {
    TypeKey in fem && fem[TypeKey] == JStr("LF")
  }

  /** One FEM: only an `"LF"` FEM gets offsets. */
  function FemFinal(fem: Json): (r: Result<Json>)
    ensures r.Ok? ==> fem.JObj? && r.value.JObj? && r.value.fields.Keys == fem.fields.Keys
    ensures r.Ok? && !IsLf(fem.fields) ==> r.value == fem
    ensures r.Err? ==> r.error == AttributeError
    ensures r.Ok? ==> forall k | k in fem.fields && k != OutputsKey && k != InputsKey :: r.value.fields[k] == fem.fields[k]
    ensures r.Ok? && IsLf(fem.fields) && OutputsKey in fem.fields ==>
      EachValue(fem.fields[OutputsKey], WithOffset) == Ok(r.value.fields[OutputsKey])
    ensures r.Ok? && IsLf(fem.fields) && InputsKey in fem.fields ==>
      EachValue(fem.fields[InputsKey], WithOffset) == Ok(r.value.fields[InputsKey])
  {
    if !fem.JObj? then Err(AttributeError)
    else if !IsLf(fem.fields) then Ok(fem)
    else
      var withOutputs :- PortsAt(fem.fields, OutputsKey);
      var withInputs :- PortsAt(withOutputs, InputsKey);
      Ok(JObj(withInputs))
  }

  /** One controller: its FEMs, then its own outputs and inputs. */
  function ControllerFinal(c: Json): (r: Result<Json>)
    ensures r.Ok? ==> c.JObj? && r.value.JObj? && r.value.fields.Keys == c.fields.Keys
    ensures r.Err? ==> r.error == AttributeError
    ensures r.Ok? ==> forall k | k in c.fields && k != FemsKey && k != OutputsKey && k != InputsKey ::
      r.value.fields[k] == c.fields[k]
    ensures r.Ok? && FemsKey in c.fields ==> EachValue(c.fields[FemsKey], FemFinal) == Ok(r.value.fields[FemsKey])
    ensures r.Ok? && FemsKey in c.fields ==> forall f | f in c.fields[FemsKey].fields ::
      FemFinal(c.fields[FemsKey].fields[f]) == Ok(r.value.fields[FemsKey].fields[f])
    ensures r.Ok? && OutputsKey in c.fields ==>
      EachValue(c.fields[OutputsKey], WithOffset) == Ok(r.value.fields[OutputsKey])
    ensures r.Ok? && InputsKey in c.fields ==>
      EachValue(c.fields[InputsKey], WithOffset) == Ok(r.value.fields[InputsKey])
  {
    if !c.JObj? then Err(AttributeError)
    else
      var withFems :- if FemsKey in c.fields then
                        var fems :- EachValue(c.fields[FemsKey], FemFinal);
                        Ok(c.fields[FemsKey := fems])
                      else Ok(c.fields);
      var withOutputs :- PortsAt(withFems, OutputsKey);
      var withInputs :- PortsAt(withOutputs, InputsKey);
      Ok(JObj(withInputs))
  }

  /** `generate_config_final_actions(qua_config)`, as the config it leaves. */
  function FinalActions(cfg: Obj): (r: Result<Obj>)
    ensures ControllersKey !in cfg ==> r == Err(KeyError)
    ensures r.Err? && ControllersKey in cfg ==> r.error == AttributeError
    ensures r.Ok? ==> r.value.Keys == cfg.Keys
    ensures r.Ok? ==> forall k | k in cfg && k != ControllersKey :: r.value[k] == cfg[k]
  {
    if ControllersKey !in cfg then Err(KeyError)
    else
      var controllers :- EachValue(cfg[ControllersKey], ControllerFinal);
      Ok(cfg[ControllersKey := controllers])
  }

  // ---------------------------------------------------------------------
  // The in-place pass

  /** The loop `for v in d.values(): ...`, one value at a time in whatever
      order the dict yields them. */
  method EachValueInPlace(d: Json, f: Json -> Result<Json>) returns (r: Result<Json>)
    ensures r == EachValue(d, f)
  {
    if !d.JObj? {
      return Err(AttributeError);
    }
    var m := d.fields;
    var done: Obj := map[];
    var todo := m.Keys;
    while todo != {}
      invariant todo <= m.Keys
      invariant done.Keys == m.Keys - todo
      invariant forall k | k in done :: f(m[k]) == Ok(done[k])
      decreases todo
    {
      var k :| k in todo;
      var v := f(m[k]);
      if v.Err? {
        assert !(forall j | j in m :: f(m[j]).Ok?);
        return Err(AttributeError);
      }
      done := done[k := v.value];
      todo := todo - {k};
    }
    assert done == map k | k in m :: f(m[k]).value;
    return Ok(JObj(done));
  }

  /** `generate_config_final_actions(qua_config)` on the caller's dict. */
  method GenerateConfigFinalActions(quaConfig: Dict) returns (r: Result<()>)
    modifies quaConfig
    ensures r.Ok? <==> FinalActions(old(quaConfig.data)).Ok?
    ensures r.Err? ==> r.error == FinalActions(old(quaConfig.data)).error
    ensures r.Ok? ==> quaConfig.data == FinalActions(old(quaConfig.data)).value
  {
    if ControllersKey !in quaConfig.data {
      return Err(KeyError);
    }
    var controllers := EachValueInPlace(quaConfig.data[ControllersKey], ControllerFinal);
    if controllers.Err? {
      return Err(controllers.error);
    }
    quaConfig.data := quaConfig.data[ControllersKey := controllers.value];
    return Ok(());
  }

  // ---------------------------------------------------------------------
  // Properties

  /** Every output and input port directly under a controller has an
      offset afterwards, and one it had before is kept. */
  lemma ControllerPortsHaveOffsets(c: Json, key: Key, p: Key)
    requires key == OutputsKey || key == InputsKey
    requires ControllerFinal(c).Ok? && key in c.fields && c.fields[key].JObj? && p in c.fields[key].fields
    ensures var out := ControllerFinal(c).value.fields[key];
      out.JObj? && p in out.fields && OffsetKey in out.fields[p].fields
    ensures var out := ControllerFinal(c).value.fields[key];
      OffsetKey in c.fields[key].fields[p].fields ==>
      out.fields[p].fields[OffsetKey] == c.fields[key].fields[p].fields[OffsetKey]
    ensures var out := ControllerFinal(c).value.fields[key];
      OffsetKey !in c.fields[key].fields[p].fields ==> out.fields[p].fields[OffsetKey] == DefaultOffset
  {
    var withFems := if FemsKey in c.fields then c.fields[FemsKey := EachValue(c.fields[FemsKey], FemFinal).value]
                    else c.fields;
    var withOutputs := PortsAt(withFems, OutputsKey).value;
    assert withFems[key] == c.fields[key];
    if key == OutputsKey {
      assert withOutputs[key] == EachValue(c.fields[key], WithOffset).value;
    } else {
      assert withOutputs[key] == c.fields[key];
    }
  }

  /** Every output and input port of an `"LF"` FEM has an offset
      afterwards, and one it had before is kept. */
  lemma LfFemPortsHaveOffsets(fem: Json, key: Key, p: Key)
    requires key == OutputsKey || key == InputsKey
    requires FemFinal(fem).Ok? && IsLf(fem.fields)
    requires key in fem.fields && fem.fields[key].JObj? && p in fem.fields[key].fields
    ensures var out := FemFinal(fem).value.fields[key];
      out.JObj? && p in out.fields && OffsetKey in out.fields[p].fields
    ensures var out := FemFinal(fem).value.fields[key];
      OffsetKey in fem.fields[key].fields[p].fields ==>
      out.fields[p].fields[OffsetKey] == fem.fields[key].fields[p].fields[OffsetKey]
    ensures var out := FemFinal(fem).value.fields[key];
      OffsetKey !in fem.fields[key].fields[p].fields ==> out.fields[p].fields[OffsetKey] == DefaultOffset
  {
    var withOutputs := PortsAt(fem.fields, OutputsKey).value;
    if key == OutputsKey {
      assert withOutputs[key] == EachValue(fem.fields[key], WithOffset).value;
    } else {
      assert withOutputs[key] == fem.fields[key];
    }
  }

  /** A controller with neither FEMs nor ports is left as it is. */
  lemma BareControllerUnchanged(c: Json)
    requires c.JObj? && FemsKey !in c.fields && OutputsKey !in c.fields && InputsKey !in c.fields
    ensures ControllerFinal(c) == Ok(c)
  {
    assert JObj(c.fields) == c;
  }

  /** A FEM whose type is not `"LF"` is never touched, even when it has
      analog ports without offsets. */
  lemma NonLfFemUnchanged(fem: Json)
    requires fem.JObj? && !IsLf(fem.fields)
    ensures FemFinal(fem) == Ok(fem)
  {
  }

  /** Mapping an idempotent step twice is mapping it once. */
  lemma MapOkIdempotent(m: Obj, f: Json -> Result<Json>)
    requires MapOk(m, f).Ok?
    requires forall k | k in m :: f(f(m[k]).value) == f(m[k])
    ensures MapOk(MapOk(m, f).value, f) == MapOk(m, f)
  {
    var m1 := MapOk(m, f).value;
    assert forall k | k in m1 :: f(m1[k]) == Ok(m1[k]);
    assert MapOk(m1, f).value == m1;
  }

  lemma EachValueIdempotent(d: Json, f: Json -> Result<Json>)
    requires EachValue(d, f).Ok?
    requires forall k | k in d.fields :: f(f(d.fields[k]).value) == f(d.fields[k])
    ensures EachValue(EachValue(d, f).value, f) == EachValue(d, f)
  {
    MapOkIdempotent(d.fields, f);
  }

  lemma PortsAtIdempotent(d: Obj, key: Key)
    requires PortsAt(d, key).Ok?
    ensures PortsAt(PortsAt(d, key).value, key) == PortsAt(d, key)
  {
    if key in d {
      forall k | k in d[key].fields
        ensures WithOffset(WithOffset(d[key].fields[k]).value) == WithOffset(d[key].fields[k])
      {
        var port := d[key].fields[k];
        assert port.JObj? && OffsetKey in WithOffset(port).value.fields;
      }
      EachValueIdempotent(d[key], WithOffset);
      var d1 := PortsAt(d, key).value;
      assert d1[key := EachValue(d1[key], WithOffset).value] == d1;
    }
  }

  /** The outputs pass and the inputs pass touch different keys, so
      running both again changes nothing. */
  lemma TwoPortsIdempotent(d: Obj)
    requires PortsAt(d, OutputsKey).Ok? && PortsAt(PortsAt(d, OutputsKey).value, InputsKey).Ok?
    ensures var d2 := PortsAt(PortsAt(d, OutputsKey).value, InputsKey).value;
      PortsAt(d2, OutputsKey) == Ok(d2) && PortsAt(d2, InputsKey) == Ok(d2)
  {
    var d1 := PortsAt(d, OutputsKey).value;
    var d2 := PortsAt(d1, InputsKey).value;
    PortsAtIdempotent(d, OutputsKey);
    PortsAtIdempotent(d1, InputsKey);
    if OutputsKey in d {
      assert d2[OutputsKey] == d1[OutputsKey];
      assert PortsAt(d2, OutputsKey).value == d2[OutputsKey := EachValue(d1[OutputsKey], WithOffset).value];
      assert d2[OutputsKey := d1[OutputsKey]] == d2;
    }
  }

  lemma {:induction false} FemFinalIdempotent(fem: Json)
    requires FemFinal(fem).Ok?
    ensures FemFinal(FemFinal(fem).value) == FemFinal(fem)
  {
    if IsLf(fem.fields) {
      var d1 := PortsAt(fem.fields, OutputsKey).value;
      var d2 := PortsAt(d1, InputsKey).value;
      assert d2[TypeKey] == fem.fields[TypeKey];
      TwoPortsIdempotent(fem.fields);
    }
  }

  lemma {:induction false} ControllerFinalIdempotent(c: Json)
    requires ControllerFinal(c).Ok?
    ensures ControllerFinal(ControllerFinal(c).value) == ControllerFinal(c)
  {
    var withFems := if FemsKey in c.fields then c.fields[FemsKey := EachValue(c.fields[FemsKey], FemFinal).value]
                    else c.fields;
    var d2 := ControllerFinal(c).value.fields;
    TwoPortsIdempotent(withFems);
    if FemsKey in c.fields {
      var fems := c.fields[FemsKey];
      forall k | k in fems.fields
        ensures FemFinal(FemFinal(fems.fields[k]).value) == FemFinal(fems.fields[k])
      {
        FemFinalIdempotent(fems.fields[k]);
      }
      EachValueIdempotent(fems, FemFinal);
      assert d2[FemsKey] == withFems[FemsKey];
      assert d2[FemsKey := EachValue(d2[FemsKey], FemFinal).value] == d2;
    }
  }

  /** Running the final actions twice gives the config of running them once. */
  lemma {:induction false} FinalActionsIdempotent(cfg: Obj)
    requires FinalActions(cfg).Ok?
    ensures FinalActions(FinalActions(cfg).value) == FinalActions(cfg)
  {
    var controllers := cfg[ControllersKey];
    forall k | k in controllers.fields
      ensures ControllerFinal(ControllerFinal(controllers.fields[k]).value) == ControllerFinal(controllers.fields[k])
    {
      ControllerFinalIdempotent(controllers.fields[k]);
    }
    EachValueIdempotent(controllers, ControllerFinal);
    var cfg1 := FinalActions(cfg).value;
    assert cfg1[ControllersKey := EachValue(cfg1[ControllersKey], ControllerFinal).value] == cfg1;
  }
}

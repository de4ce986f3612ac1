/** `QuamRoot.generate_config`: the QUA config built from a whole tree.
    The components are collected by the traversal, put in dependency order
    by the sort, and each one writes itself into a copy of the template;
    the final actions then complete the config. Which `apply_to_config`
    runs for which component is the component's class's business: here it
    is a parameter, and the per-class steps are modelled in `Ports`,
    `Channels`, `Pulses`, `Hardware` and `Octaves`. */
module RootConfig {
  import opened Wrappers
  import opened Values
  import opened JsonValue
  import opened QuamModel
  import QuamTree
  import SortComponents
  import ConfigFinal

  /** `qua_config_template`. */
  const Template: Obj := map[
    KStr("version") := JInt(1),
    ConfigFinal.ControllersKey := JObj(map[]),
    KStr("elements") := JObj(map[]),
    KStr("pulses") := JObj(map[
      KStr("const_pulse") := JObj(map[
        KStr("operation") := JStr("control"),
        KStr("length") := JInt(1000),
        KStr("waveforms") := JObj(map[KStr("I") := JStr("const_wf"), KStr("Q") := JStr("zero_wf")])])]),
    KStr("waveforms") := JObj(map[
      KStr("zero_wf") := JObj(map[KStr("type") := JStr("constant"), KStr("sample") := JFloat(0.0)]),
      KStr("const_wf") := JObj(map[KStr("type") := JStr("constant"), KStr("sample") := JFloat(0.1)])]),
    KStr("digital_waveforms") := JObj(map[
      KStr("ON") := JObj(map[KStr("samples") := JList([JList([JInt(1), JInt(0)])])])]),
    KStr("integration_weights") := JObj(map[]),
    KStr("mixers") := JObj(map[]),
    KStr("oscillators") := JObj(map[])]

  /** The default `max_attempts` of `sort_quam_components`. */
  const MaxAttempts: nat := 5

  /** One component's `apply_to_config`, as the config it leaves or the
      exception it raises. */
  type Apply = (Id, Obj) -> Result<Obj>

  /** The loop `for quam_component in sorted_components:
      quam_component.apply_to_config(qua_config)`: the components write in
      turn, and the first one that raises ends the loop. */
  function ApplyAll(cfg: Obj, cs: seq<Id>, apply: Apply): (r: Result<Obj>)
    ensures (forall c, d :: apply(c, d) == Ok(d)) ==> r == Ok(cfg)
    decreases |cs|
  {
    if cs == [] then Ok(cfg)
    else
      var next :- apply(cs[0], cfg);
      ApplyAll(next, cs[1..], apply)
  }

  /** What `generate_config` returns for the components in the order they
      were applied: the applies, then `generate_config_final_actions`. */
  function Build(order: seq<Id>, apply: Apply): (r: Result<Obj>)
    ensures ApplyAll(Template, order, apply).Err? ==> r == Err(ApplyAll(Template, order, apply).error)
    ensures ApplyAll(Template, order, apply).Ok? ==> r == ConfigFinal.FinalActions(ApplyAll(Template, order, apply).value)
  {
    var applied :- ApplyAll(Template, order, apply);
    ConfigFinal.FinalActions(applied)
  }

  /** Applying `a` and then `b` is applying `a + b`; an error in `a`
      stops the loop before `b`. */
  lemma {:induction false} ApplyAllAppend(cfg: Obj, a: seq<Id>, b: seq<Id>, apply: Apply)
    ensures ApplyAll(cfg, a, apply).Err? ==> ApplyAll(cfg, a + b, apply) == ApplyAll(cfg, a, apply)
    ensures ApplyAll(cfg, a, apply).Ok? ==> ApplyAll(cfg, a + b, apply) == ApplyAll(ApplyAll(cfg, a, apply).value, b, apply)
    decreases a
  {
    if a != [] {
      assert (a + b)[0] == a[0] && (a + b)[1..] == a[1..] + b;
      var next := apply(a[0], cfg);
      if next.Ok? {
        ApplyAllAppend(next.value, a[1..], b, apply);
      }
    } else {
      assert a + b == b;
    }
  }

  /** The first component that raises decides the error: when every
      component before index `i` applies and the one at `i` raises, the
      whole loop raises its exception. */
  lemma ApplyAllStops(cfg: Obj, cs: seq<Id>, i: nat, apply: Apply)
    requires i < |cs| && ApplyAll(cfg, cs[..i], apply).Ok?
    requires apply(cs[i], ApplyAll(cfg, cs[..i], apply).value).Err?
    ensures ApplyAll(cfg, cs, apply) == Err(apply(cs[i], ApplyAll(cfg, cs[..i], apply).value).error)
  {
    assert cs == cs[..i] + cs[i..];
    ApplyAllAppend(cfg, cs[..i], cs[i..], apply);
    assert cs[i..][0] == cs[i];
  }

  /** The template has no controllers, so the final actions leave it as
      it is: a tree whose components write nothing gets the template. */
  lemma TemplateIsFinal()
    ensures ConfigFinal.FinalActions(Template) == Ok(Template)
  {
    var controllers := Template[ConfigFinal.ControllersKey];
    assert controllers == JObj(map[]);
    assert ConfigFinal.EachValue(controllers, ConfigFinal.ControllerFinal) == Ok(JObj(map[]));
    assert Template[ConfigFinal.ControllersKey := JObj(map[])] == Template;
  }

  /** When no component writes anything, the config is the template. */
  lemma NothingAppliedGivesTemplate(order: seq<Id>, apply: Apply)
    requires forall c, d :: apply(c, d) == Ok(d)
    ensures Build(order, apply) == Ok(Template)
  {
    TemplateIsFinal();
  }

  /** `generate_config()` on the root `root`: a fresh copy of the template,
      the components of `iterate_components()` sorted by
      `sort_quam_components`, each applied to the config in that order, and
      `generate_config_final_actions` at the end. `warned` is the warning
      the sort gives when it runs out of attempts, and `order` the order in
      which the components were applied. */
  method GenerateConfig(st: Store, root: Id, apply: Apply, fuel: nat)
    returns (r: Result<Obj>, warned: bool, ghost order: Option<seq<Id>>)
    requires Valid(st) && root in st
    ensures QuamTree.IterateComponents(st, root, [], fuel).Err? ==>
      r == Err(QuamTree.IterateComponents(st, root, [], fuel).error) && order.None?
    ensures QuamTree.IterateComponents(st, root, [], fuel).Ok? && order.None? ==> r == Err(ValueError)
    ensures order.Some? ==> QuamTree.IterateComponents(st, root, [], fuel).Ok?
    ensures order.Some? ==>
      multiset(order.value) == multiset(QuamTree.IterateComponents(st, root, [], fuel).value.0)
    ensures order.Some? && !warned ==>
      SortComponents.Sorted(st, QuamTree.IterateComponents(st, root, [], fuel).value.0, order.value)
    ensures order.Some? ==> r == Build(order.value, apply)
    ensures QuamTree.IterateComponents(st, root, [], fuel).Ok? ==>
      (forall c | c in QuamTree.IterateComponents(st, root, [], fuel).value.0 :: st[c].settings.None?) ==>
      order == Some(QuamTree.IterateComponents(st, root, [], fuel).value.0) && !warned
    ensures r.Ok? ==> ConfigFinal.ControllersKey in r.value && ConfigFinal.FinalActions(r.value) == Ok(r.value)
  {
    order := None;
    warned := false;
    var components := QuamTree.IterateComponents(st, root, [], fuel);
    if components.Err? {
      return Err(components.error), warned, order;
    }
    var sorted, passes;
    sorted, warned, passes := SortComponents.SortQuamComponents(st, components.value.0, MaxAttempts);
    if sorted.Err? {
      return Err(sorted.error), warned, order;
    }
    order := Some(sorted.value);
    var quaConfig := new Dict(Template);
    var applied := ApplyInPlace(quaConfig, sorted.value, apply);
    if applied.Err? {
      return Err(applied.error), warned, order;
    }
    ghost var before := quaConfig.data;
    var fin := ConfigFinal.GenerateConfigFinalActions(quaConfig);
    if fin.Err? {
      return Err(fin.error), warned, order;
    }
    assert ConfigFinal.FinalActions(quaConfig.data) == Ok(quaConfig.data) by {
      ConfigFinal.FinalActionsIdempotent(before);
    }
    r := Ok(quaConfig.data);
  }

  /** The apply loop of `generate_config` on the config dict itself. */
  method ApplyInPlace(quaConfig: Dict, cs: seq<Id>, apply: Apply) returns (r: Result<()>)
    modifies quaConfig
    ensures ApplyAll(old(quaConfig.data), cs, apply).Err? ==> r == Err(ApplyAll(old(quaConfig.data), cs, apply).error)
    ensures ApplyAll(old(quaConfig.data), cs, apply).Ok? ==>
      r == Ok(()) && quaConfig.data == ApplyAll(old(quaConfig.data), cs, apply).value
  {
    var i := 0;
    while i < |cs|
      invariant i <= |cs|
      invariant ApplyAll(old(quaConfig.data), cs, apply) == ApplyAll(quaConfig.data, cs[i..], apply)
    {
      assert cs[i..][0] == cs[i] && cs[i..][1..] == cs[i + 1..];
      var next := apply(cs[i], quaConfig.data);
      if next.Err? {
        return Err(next.error);
      }
      quaConfig.data := next.value;
      i := i + 1;
    }
    return Ok(());
  }
}

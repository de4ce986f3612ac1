/** `QuamMacro.inferred_id`: a macro's `id` defaults to the reference
    `#./inferred_id`, which names the macro after the slot its parent holds
    it in. */
module QuamMacro {
  import opened Wrappers
  import opened Strings
  import opened Values
  import opened JsonValue
  import opened StringReference
  import opened QuamModel
  import opened Resolver
  import opened ResolverProps

  /** The default of the `id` field. */
  const DefaultId: Value := VStr("#./inferred_id")

  /** A key as the Python value it is (a dict key may be an int). */
  function KeyValue(k: Key): (v: Value)
    ensures k.KStr? ==> v == VStr(k.s)
    ensures k.KInt? ==> v == VInt(k.i)
  {
    match k
    case KStr(s) => VStr(s)
    case KInt(i) => VInt(i)
  }

  /** `inferred_id` of macro `m`: its own `id` when the raw `id` is not a
      reference; otherwise the name its parent holds it under, and an
      `AttributeError` when it has no parent. */
  function InferredId(st: Store, m: Id): (r: Result<Value>)
    requires Valid(st) && m in st
    ensures var raw := RawValue(st[m], KStr("id"));
      && (raw.Err? ==> r == Err(AttributeError))
      && (raw.Ok? && !IsReference(raw.value) ==> r == raw)
      && (raw.Ok? && IsReference(raw.value) && st[m].parent.None? ==> r == Err(AttributeError))
      && (r.Ok? && raw.Ok? && IsReference(raw.value) ==>
            st[m].parent.Some? &&
            exists k :: r.value == KeyValue(k) && RawValue(st[st[m].parent.value], k) == Ok(VNode(m)))
  {
    var raw :- RawValue(st[m], KStr("id"));
    if !IsReference(raw) then Ok(raw)
    else if st[m].parent.Some? then
      var k :- GetAttrName(st[st[m].parent.value], VNode(m));
      Ok(KeyValue(k))
    else Err(AttributeError)
  }

  /** Scanning names finds the first one whose raw value is the child. */
  lemma {:induction false} FindNameFirst(n: Node, names: seq<Key>, child: Value, i: nat)
    requires i < |names| && Is(child, child)
    requires RawValue(n, names[i]) == Ok(child)
    requires forall j :: 0 <= j < i ==> RawValue(n, names[j]).Ok? && RawValue(n, names[j]) != Ok(child)
    ensures FindName(n, names, child) == Ok(names[i])
    decreases i
  {
    if i > 0 {
      assert RawValue(n, names[0]).Ok?;
      FindNameFirst(n, names[1..], child, i - 1);
    }
  }

  /** A macro with the default `id` held in a `QuamDict` under key `k`
      (the first entry holding it) is identified by `k`. */
  lemma InferredIdInDict(st: Store, m: Id, i: nat)
    requires Valid(st) && m in st
    requires RawValue(st[m], KStr("id")) == Ok(DefaultId)
    requires st[m].parent.Some? && st[st[m].parent.value].body.Entries?
    requires var es := st[st[m].parent.value].body.entries;
      i < |es| && es[i].1 == VNode(m) && forall j :: 0 <= j < i ==> es[j].1 != VNode(m)
    ensures InferredId(st, m) == Ok(KeyValue(st[st[m].parent.value].body.entries[i].0))
  {
    var p := st[st[m].parent.value];
    var es := p.body.entries;
    var names := AttrNames(p);
    assert IsReference(DefaultId) by { assert StartsWith("#./inferred_id", "#./"); }
    forall j | 0 <= j <= i
      ensures DictGet(es, es[j].0) == Some(es[j].1)
    {
      DictGetUnique(es, j);
    }
    FindNameFirst(p, names, VNode(m), i);
  }

  /** In a dict with unique keys, the value looked up under an entry's key
      is that entry's value. */
  lemma {:induction false} DictGetUnique(es: seq<(Key, Value)>, j: nat)
    requires UniqueKeys(es) && j < |es|
    ensures DictGet(es, es[j].0) == Some(es[j].1)
    decreases j
  {
    if j > 0 {
      assert es[0].0 != es[j].0;
      assert UniqueKeys(es[1..]) by {
        forall a, b | 0 <= a < b < |es| - 1 ensures es[1..][a].0 != es[1..][b].0 {
          assert es[1..][a] == es[a + 1] && es[1..][b] == es[b + 1];
        }
      }
      DictGetUnique(es[1..], j - 1);
    }
  }
  /** The `inferred_id` property as a getter of the resolver: it belongs to
      every object whose class is one of `macroClasses` (subclasses of
      `QuamMacro`) and that does not store an attribute of that name. */
  function MacroProps(macroClasses: set<string>, st: Store, id: Id, name: string): (p: Option<Result<Value>>)
    ensures p.Some? <==> name == "inferred_id" && Valid(st) && id in st && st[id].cls in macroClasses
                          && st[id].body.Attrs? && "inferred_id" !in st[id].body.attrs
    ensures p.Some? ==> p.value == InferredId(st, id)
  {
    if name == "inferred_id" && Valid(st) && id in st && st[id].cls in macroClasses
       && st[id].body.Attrs? && "inferred_id" !in st[id].body.attrs
    then Some(InferredId(st, id))
    else None
  }

  /** The getters of the macro classes. */
  function MacroPropsOf(macroClasses: set<string>): Props {
    (st, id, name) => MacroProps(macroClasses, st, id, name)
  }

  /** A resolver context with the getters of the macro classes; they are
      well formed. */
  function MacroCtx(raiseErrorMissingReference: bool, lastRoot: Option<Id>, macroClasses: set<string>): (ctx: Ctx)
    ensures ctx.raiseErrorMissingReference == raiseErrorMissingReference && ctx.lastRoot == lastRoot
    ensures ctx.props == MacroPropsOf(macroClasses)
    ensures PropsWf(ctx.props)
  {
    MacroPropsWf(macroClasses);
    Ctx(raiseErrorMissingReference, lastRoot, MacroPropsOf(macroClasses))
  }

  /** `inferred_id` names a value of the store: the raw `id`, or a key,
      which is never an object. */
  lemma {:induction false} InferredIdIn(st: Store, m: Id)
    requires Valid(st) && m in st
    ensures InferredId(st, m).Ok? ==> ValueIn(st, InferredId(st, m).value)
  {
    var raw := RawValue(st[m], KStr("id"));
    if raw.Ok? && !IsReference(raw.value) {
      assert raw.value in BodyValues(st[m].body);
    }
  }

  /** The macro getters are well formed: `inferred_id` is never a stored
      attribute and gives a value of the store. */
  lemma {:induction false} MacroPropsWf(macroClasses: set<string>)
    ensures PropsWf(MacroPropsOf(macroClasses))
  {
    var props := MacroPropsOf(macroClasses);
    forall st: Store, id: Id, name: string | Valid(st) && id in st
      ensures PropOk(st, id, name, props(st, id, name))
    {
      InferredIdIn(st, id);
    }
  }

  /** The default `id` is the relative reference to the attribute
      `inferred_id` of the macro itself. */
  lemma DefaultIdIsChain()
    ensures SimpleName("inferred_id") && "id" !in HelperNames
    ensures DefaultId == VStr("#./" + "inferred_id")
  {
  }

  /** Reading `inferred_id` of a macro runs the property: its error is
      raised, and a plain value comes back as it is. */
  lemma ReadsInferredId(st: Store, m: Id, macroClasses: set<string>, ctx: Ctx, fuel: nat)
    requires Valid(st) && m in st && st[m].body.Attrs? && st[m].cls in macroClasses
    requires "inferred_id" !in st[m].body.attrs
    requires CtxIn(st, ctx) && ctx.props == MacroPropsOf(macroClasses)
    ensures InferredId(st, m).Err? ==> GetAttribute(st, m, "inferred_id", ctx, fuel) == InferredId(st, m)
    ensures InferredId(st, m).Ok? && !IsReference(InferredId(st, m).value) ==>
      GetAttribute(st, m, "inferred_id", ctx, fuel) == InferredId(st, m)
  {
    assert ctx.props(st, m, "inferred_id") == MacroProps(macroClasses, st, m, "inferred_id");
  }

  /** Reading the `id` of a macro that keeps the default `#./inferred_id`
      follows the reference to the `inferred_id` property: the result is
      `inferred_id` whenever that is a plain value, and the unresolved
      default when `inferred_id` raises. */
  lemma DefaultIdReadsInferredId(st: Store, m: Id, macroClasses: set<string>, raiseErrorMissingReference: bool,
                                 lastRoot: Option<Id>, fuel: nat)
    requires Valid(st) && m in st && st[m].body.Attrs? && st[m].cls in macroClasses
    requires "id" in st[m].body.attrs && st[m].body.attrs["id"] == DefaultId
    requires "inferred_id" !in st[m].body.attrs
    requires lastRoot.Some? ==> lastRoot.value in st
    requires GetRoot(st, m, lastRoot, fuel).Ok?
    ensures var ctx := MacroCtx(raiseErrorMissingReference, lastRoot, macroClasses);
      InferredId(st, m).Ok? && !IsReference(InferredId(st, m).value) ==>
        GetAttribute(st, m, "id", ctx, fuel + 1) == InferredId(st, m)
    ensures var ctx := MacroCtx(raiseErrorMissingReference, lastRoot, macroClasses);
      InferredId(st, m).Err? ==> GetAttribute(st, m, "id", ctx, fuel + 1) == Ok(DefaultId)
  {
    var ctx := MacroCtx(raiseErrorMissingReference, lastRoot, macroClasses);
    ReadsInferredId(st, m, macroClasses, ctx, fuel);
    DefaultIdIsChain();
    ChainIsFollowed(st, m, "id", "inferred_id", ctx, fuel);
  }
}

/** Reference resolution over the object tree. These functions call each
    other exactly as the Python methods do:
    - `Walk` / `WalkStripped` are `get_relative_reference_value`, one path
      segment at a time;
    - `GetAttr` is one segment lookup: a list index, a dict key or `getattr`;
    - `GetAttribute` is `ReferenceClass.__getattribute__`;
    - `DictGetItem` / `ListGetItem` are `QuamDict.__getitem__` / `QuamList.__getitem__`;
    - `Resolve` is `QuamBase._get_referenced_value`;
    - `GetReferencedValue` is `get_referenced_value`.
    A reference is resolved on every read and nothing is cached, so a chain
    of references is followed because each lookup resolves again. `fuel`
    is the remaining Python recursion depth, spent once per reference. */
module Resolver {
  import opened Wrappers
  import opened Strings
  import opened Values
  import opened JsonValue
  import opened StringReference
  import opened QuamModel

  /** The properties the classes define (`inferred_id`, `LO_frequency`, …):
      for an object and a name, `None` when the object's class has no
      property of that name, otherwise what its getter returns or raises. */
  type Props = (Store, Id, string) -> Option<Result<Value>>

  /** No class defines a property. */
  function NoProps(st: Store, id: Id, name: string): Option<Result<Value>> {
    None
  }

  /** Settings the Python code reads from globals: the quam config flag
      `raise_error_missing_reference` and `QuamBase._last_instantiated_root`;
      and the properties of the classes. */
  datatype Ctx = Ctx(raiseErrorMissingReference: bool, lastRoot: Option<Id>, props: Props)

  predicate ValueIn(st: Store, v: Value) {
    v.VNode? ==> v.id in st
  }

  /** What a getter may give: a property belongs to a dataclass object, is
      never also a stored attribute (a property without a setter cannot be
      assigned), and returns a value of the tree. */
  predicate PropOk(st: Store, id: Id, name: string, p: Option<Result<Value>>)
    requires id in st
  {
    p.Some? ==> st[id].body.Attrs? && name !in st[id].body.attrs && (p.value.Ok? ==> ValueIn(st, p.value.value))
  }

  ghost predicate PropsWf(props: Props) {
    forall st: Store, id: Id, name: string | Valid(st) && id in st :: PropOk(st, id, name, props(st, id, name))
  }

  ghost predicate CtxIn(st: Store, ctx: Ctx) {
    (ctx.lastRoot.Some? ==> ctx.lastRoot.value in st) && PropsWf(ctx.props)
  }

  lemma NoPropsWf()
    ensures PropsWf(NoProps)
  {
  }

  /** `obj.parent`: an object's parent or `None`; other values have none. */
  function ParentOf(st: Store, obj: Value): (r: Result<Value>)
    requires Valid(st) && ValueIn(st, obj)
    ensures r.Ok? ==> ValueIn(st, r.value)
    ensures r.Err? <==> !obj.VNode?
  {
    if !obj.VNode? then Err(AttributeError)
    else if st[obj.id].parent.Some? then Ok(VNode(st[obj.id].parent.value))
    else Ok(VNone)
  }

  /** Attribute names that `__getattribute__` never resolves. */
  const HelperNames: set<string> := {"_is_reference", "_get_referenced_value", "__post_init__"}

  /** `get_relative_reference_value(obj, string)`: strips the leading `#`
      and `/` characters, then walks the rest. */
  function Walk(st: Store, obj: Value, s: string, ctx: Ctx, fuel: nat): (r: Result<Value>)
    requires Valid(st) && ValueIn(st, obj) && CtxIn(st, ctx)
    ensures r.Ok? ==> ValueIn(st, r.value)
    decreases fuel, 1, |s|, 1
  {
    WalkStripped(st, obj, LStrip(s, StripChars), ctx, fuel)
  }

  /** The walk of an already stripped path: an empty path is the object
      itself, `../` moves to the parent, `./` stays, and anything else is
      one segment lookup followed by the walk of the rest. */
  function WalkStripped(st: Store, obj: Value, t: string, ctx: Ctx, fuel: nat): (r: Result<Value>)
    requires Valid(st) && ValueIn(st, obj) && CtxIn(st, ctx)
    requires t == [] || t[0] !in StripChars
    ensures t == [] ==> r == Ok(obj)
    ensures r.Ok? ==> ValueIn(st, r.value)
    decreases fuel, 1, |t|, 0
  {
    if t == [] then Ok(obj)
    else if StartsWith(t, "../") then
      var p :- ParentOf(st, obj);
      Walk(st, p, t[3..], ctx, fuel)
    else if StartsWith(t, "./") then Walk(st, obj, t[2..], ctx, fuel)
    else
      var hr := SplitNextAttribute(t);
      assert LStrip(t, StripChars) == t;
      assert |hr.1| < |t|;
      var v :- GetAttr(st, obj, hr.0, ctx, fuel);
      Walk(st, v, hr.1, ctx, fuel)
  }

  /** One segment of the walk: a digit segment indexes a `QuamList`; on a
      `QuamDict` the string key is tried, then its int form; anything else
      is `getattr`. A missing dict key is `AttributeError`. On a `QuamList`
      the only other attribute a path can name is `parent`, which the
      parent descriptor answers. */
  function GetAttr(st: Store, obj: Value, name: string, ctx: Ctx, fuel: nat): (r: Result<Value>)
    requires Valid(st) && ValueIn(st, obj) && CtxIn(st, ctx)
    ensures r.Ok? ==> ValueIn(st, r.value)
    ensures !obj.VNode? ==> r == Err(AttributeError)
    ensures obj.VNode? && st[obj.id].kind.QList? && !IsDigits(name) ==>
      (r.Ok? <==> name == "parent")
      && (r.Ok? ==> r.value == if st[obj.id].parent.Some? then VNode(st[obj.id].parent.value) else VNone)
    decreases fuel, 0, 1, 0
  {
    if !obj.VNode? then Err(AttributeError)
    else
      var n := st[obj.id];
      if IsDigits(name) && n.kind.QList? then ListGetItem(st, obj.id, DigitsValue(name), ctx, fuel)
      else if n.kind.QDict? then
        if DictGet(n.body.entries, KStr(name)).Some? then DictGetItem(st, obj.id, KStr(name), ctx, fuel)
        else if IsDigits(name) && DictGet(n.body.entries, KInt(DigitsValue(name))).Some? then
          DictGetItem(st, obj.id, KInt(DigitsValue(name)), ctx, fuel)
        else Err(AttributeError)
      else if n.kind.QList? then
        if name == "parent" then ParentOf(st, obj) else Err(AttributeError)
      else GetAttribute(st, obj.id, name, ctx, fuel)
  }

  /** `ReferenceClass.__getattribute__(attr)` on a dataclass object: the
      stored attribute, or else the value of the class's property of that
      name (an error its getter raises propagates); a reference is then
      resolved, and if resolution raises anything (a missing target,
      exhausted recursion) the raw string is returned instead. */
  function GetAttribute(st: Store, id: Id, name: string, ctx: Ctx, fuel: nat): (r: Result<Value>)
    requires Valid(st) && id in st && st[id].body.Attrs? && CtxIn(st, ctx)
    ensures name in st[id].body.attrs ==> r.Ok?
    ensures name !in st[id].body.attrs && ctx.props(st, id, name).None? ==> r == Err(AttributeError)
    ensures name !in st[id].body.attrs && ctx.props(st, id, name).Some? && ctx.props(st, id, name).value.Err?
      ==> r == ctx.props(st, id, name).value
    ensures r.Ok? ==> ValueIn(st, r.value)
    ensures r.Ok? && name in st[id].body.attrs && (name in HelperNames || !IsReference(st[id].body.attrs[name]))
      ==> r.value == st[id].body.attrs[name]
    ensures r.Ok? && name !in st[id].body.attrs && (name in HelperNames || !IsReference(ctx.props(st, id, name).value.value))
      ==> r == ctx.props(st, id, name).value
    decreases fuel, 0, 0, 0
  {
    var attrs := st[id].body.attrs;
    var p := ctx.props(st, id, name);
    assert PropOk(st, id, name, p);
    if name !in attrs && p.None? then Err(AttributeError)
    else
      var raw :- if name in attrs then Ok(attrs[name]) else p.value;
      if name in HelperNames || !IsReference(raw) then Ok(raw)
      else if fuel == 0 then Ok(raw)
      else match Resolve(st, id, raw.s, ctx, fuel - 1)
        case Ok(v) => Ok(v)
        case Err(_) => Ok(raw)
  }

  /** `QuamDict.__getitem__(key)`: a reference value is resolved, and an
      `InvalidReferenceError` becomes `KeyError`. */
  function DictGetItem(st: Store, id: Id, k: Key, ctx: Ctx, fuel: nat): (r: Result<Value>)
    requires Valid(st) && id in st && st[id].body.Entries? && CtxIn(st, ctx)
    ensures DictGet(st[id].body.entries, k).None? ==> r == Err(KeyError)
    ensures DictGet(st[id].body.entries, k).Some? && !IsReference(DictGet(st[id].body.entries, k).value)
      ==> r == Ok(DictGet(st[id].body.entries, k).value)
    ensures r.Ok? ==> ValueIn(st, r.value)
    decreases fuel, 0, 0, 0
  {
    var e := DictGet(st[id].body.entries, k);
    if e.None? then Err(KeyError)
    else if !IsReference(e.value) then Ok(e.value)
    else if fuel == 0 then Err(RecursionError)
    else match Resolve(st, id, e.value.s, ctx, fuel - 1)
      case Ok(v) => Ok(v)
      case Err(err) => if err == ValueError then Err(KeyError) else Err(err)
  }

  /** `QuamList.__getitem__(i)` for an index `i >= 0`. */
  function ListGetItem(st: Store, id: Id, i: nat, ctx: Ctx, fuel: nat): (r: Result<Value>)
    requires Valid(st) && id in st && st[id].body.Items? && CtxIn(st, ctx)
    ensures i >= |st[id].body.items| ==> r == Err(IndexError)
    ensures i < |st[id].body.items| && !IsReference(st[id].body.items[i])
      ==> r == Ok(st[id].body.items[i])
    ensures r.Ok? ==> ValueIn(st, r.value)
    decreases fuel, 0, 0, 0
  {
    var items := st[id].body.items;
    if i >= |items| then Err(IndexError)
    else if !IsReference(items[i]) then Ok(items[i])
    else if fuel == 0 then Err(RecursionError)
    else Resolve(st, id, items[i].s, ctx, fuel - 1)
  }

  /** `QuamBase._get_referenced_value(reference)`: a non-reference comes back
      as is; an absolute reference without a root comes back raw; a
      reference that does not resolve is raised as `InvalidReferenceError`
      (a `ValueError`) only when `raise_error_missing_reference` is set, and
      otherwise comes back raw. */
  function Resolve(st: Store, id: Id, ref: string, ctx: Ctx, fuel: nat): (r: Result<Value>)
    requires Valid(st) && id in st && CtxIn(st, ctx)
    ensures !IsReferenceStr(ref) ==> r == Ok(VStr(ref))
    ensures r == Err(ValueError) ==> ctx.raiseErrorMissingReference
    ensures r.Ok? ==> ValueIn(st, r.value)
    decreases fuel, 3, 0, 0
  {
    if !IsReferenceStr(ref) then Ok(VStr(ref))
    else
      var root :- GetRoot(st, id, ctx.lastRoot, fuel);
      if StartsWith(ref, "#/") && root.None? then Ok(VStr(ref))
      else match GetReferencedValue(st, VNode(id), ref, root, ctx, fuel)
        case Ok(v) => Ok(v)
        case Err(e) =>
          if e != ValueError then Err(e)
          else if ctx.raiseErrorMissingReference then Err(ValueError)
          else Ok(VStr(ref))
  }

  /** `get_referenced_value(obj, string, root)`: a non-reference is a
      `ValueError`; an absolute reference starts at `root`; `AttributeError`
      and `KeyError` met on the walk become `ValueError`, any other error
      (an out-of-range list index) passes through. */
  function GetReferencedValue(st: Store, obj: Value, ref: string, root: Option<Id>, ctx: Ctx, fuel: nat)
    : (r: Result<Value>)
    requires Valid(st) && ValueIn(st, obj) && CtxIn(st, ctx)
    requires root.Some? ==> root.value in st
    ensures !IsReferenceStr(ref) ==> r == Err(ValueError)
    ensures r.Ok? ==> ValueIn(st, r.value)
    ensures r.Err? ==> r.error != AttributeError && r.error != KeyError
    decreases fuel, 2, 0, 0
  {
    if !IsReferenceStr(ref) then Err(ValueError)
    else
      var start := if StartsWith(ref, "#/") then (if root.Some? then VNode(root.value) else VNone) else obj;
      match Walk(st, start, ref, ctx, fuel)
      case Ok(v) => Ok(v)
      case Err(e) => if e == AttributeError || e == KeyError then Err(ValueError) else Err(e)
  }
}

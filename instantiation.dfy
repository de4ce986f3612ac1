/** `quam/core/quam_instantiation.py`: rebuilding quam objects from the nested
    dicts of a loaded file, driven by the annotations of each class.

    Python walks a dict in insertion order and raises the first error it
    meets. `Json` objects do not record that order, so the specification
    functions here are order-free: an `Outcome` is either the built value,
    which does not depend on the order, or the set of errors that the
    failing entries raise, one of which Python raises. The methods follow
    the Python code's loops over the keys in an unspecified order and conform to
    these outcomes. */
module Instantiation {
  import opened Wrappers
  import opened Strings
  import opened JsonValue
  import opened StringReference
  import opened TypeChecking
  import opened DataclassUtil
  import opened General

  /** The arguments passed down every call: the importable classes,
      `fix_attrs`, `validate_type`, and the `typeguard.check_type` verdict. */
  datatype Env = Env(reg: Registry, fixAttrs: bool, validateType: bool, check: (Inst, TypeDesc) -> bool)

  datatype Outcome<T> = Done(value: T) | Raises(kinds: set<Error>)

  /** A result that some iteration order produces. */
  predicate Conforms<T(==)>(r: Result<T>, o: Outcome<T>) {
    match o
    case Done(v) => r == Ok(v)
    case Raises(ks) => r.Err? && r.error in ks
  }

  /** The classes whose instances may be built for a value of type `t`. */
  function ComponentPaths(t: TypeDesc): set<string> {
    match t
    case TClass(p, quam) => if quam then {p} else {}
    case TDict(_, v) => ComponentPaths(v)
    case TList(e) => ComponentPaths(e)
    case _ => {}
  }

  /** Every quam class an annotation of `c` names is importable. */
  predicate ClassOk(reg: Registry, c: PyClass) {
    forall i | 0 <= i < |c.schema.hints| :: ComponentPaths(c.schema.hints[i].1) <= reg.classes.Keys
  }

  /** The registry is closed under the annotations of its classes. */
  predicate Closed(reg: Registry) {
    forall p | p in reg.classes :: ClassOk(reg, reg.classes[p])
  }

  predicate AnnotationsOk(reg: Registry, ann: Annotations) {
    forall n | n in ann.allowed :: ComponentPaths(ann.allowed[n]) <= reg.classes.Keys
  }

  lemma {:induction false} PartitionFromHints(s: Schema, hints: seq<(string, TypeDesc)>)
    ensures forall n | n in Partition(s, hints).0 :: exists i | 0 <= i < |hints| :: hints[i].1 == Partition(s, hints).0[n]
    ensures forall n | n in Partition(s, hints).1 :: exists i | 0 <= i < |hints| :: hints[i].1 == Partition(s, hints).1[n]
    decreases |hints|
  {
    if hints != [] {
      var init := hints[..|hints| - 1];
      PartitionFromHints(s, init);
      forall i | 0 <= i < |init| ensures hints[i] == init[i] { }
    }
  }

  /** The annotations of a class with importable annotations name
      importable classes. */
  lemma AnnotationsOfClassOk(reg: Registry, c: PyClass)
    requires ClassOk(reg, c)
    ensures AnnotationsOk(reg, AttrAnnotations(c.schema))
  {
    PartitionFromHints(c.schema, c.schema.hints);
  }

  /** The class a quam annotation names. */
  function ClassAt(env: Env, t: TypeDesc): PyClass
    requires t.TClass? && t.quamComponent && ComponentPaths(t) <= env.reg.classes.Keys
  {
    env.reg.classes[t.path]
  }

  /** Builtin `dict` and `list`, which a rebuilt `Dict[..]` / `List[..]` is
      checked against. */
  const PlainDict: TypeDesc := TClass("dict", false)
  const PlainList: TypeDesc := TClass("list", false)

  /** `issubclass(t, QuamComponent)`, which raises `TypeError` when `t` is
      not a class (a subscripted generic). */
  function IsComponentType(t: TypeDesc): Result<bool> {
    if HasOrigin(t) then Err(TypeError)
    else Ok(t.TClass? && t.quamComponent)
  }

  /** Where `instantiate_attrs` files one entry of the contents. */
  datatype Slot = ToRequired(x: Inst) | ToOptional(x: Inst) | ToExtra(v: Json)

  /** The rebuilt attributes: `required`, `optional`, `extra`. */
  datatype Attrs = Attrs(required: map<string, Inst>, optional: map<string, Inst>, extra: map<Key, Inst>)

  const ClassKey: Key := KStr("__class__")

  // ---------------------------------------------------------------------
  // Specification

  /** `instantiate_attr(attr_val, expected_type, allow_none)`: a string
      starting with `:` and `None` are kept as they are; a quam class is
      instantiated; `Dict[..]` / `List[..]` are rebuilt element-wise; a
      `Union` must consist of builtin types (`AssertionError` otherwise);
      a list for a `Tuple[..]` becomes a tuple; any other generic is a
      `TypeError` when validating. Then, when validating, the value is
      checked against the annotation (`dict` / `list` for rebuilt ones). */
  function InstAttr(env: Env, v: Json, t: TypeDesc, allowNone: bool): (o: Outcome<Inst>)
    requires Closed(env.reg) && ComponentPaths(t) <= env.reg.classes.Keys
    ensures v.JStr? && StartsWith(v.s, ":") && !env.validateType ==> o == Done(Plain(v))
    ensures v.JNull? ==> (o == Done(Plain(JNull)) <==>
      !env.validateType || allowNone || env.check(Plain(JNull), t))
    ensures v.JNull? && o.Raises? ==> o == Raises({TypeError})
    ensures t.TTuple? && v.JList? && o.Done? ==> o.value == Plain(JTuple(v.items))
    ensures t.TGeneric? && env.validateType && !v.JNull? && !(v.JStr? && StartsWith(v.s, ":")) ==>
      o == Raises({TypeError})
    ensures o.Done? && t.TClass? && t.quamComponent && !v.JNull? && !(v.JStr? && StartsWith(v.s, ":")) ==>
      o.value.IObj?
    decreases v, 4
  {
    var (built, expected) :=
      if v.JStr? && StartsWith(v.s, ":") then (Done(Plain(v)), t)
      else if v.JNull? then (Done(Plain(v)), t)
      else if t.TClass? && t.quamComponent then (InstQuamClass(env, ClassAt(env, t), v), t)
      else if t.TDict? then (InstFromDict(env, v, t.value), PlainDict)
      else if t.TList? then (InstFromList(env, v, t.elem), PlainList)
      else if t.TUnion? then
        (if forall i | 0 <= i < |t.args| :: t.args[i].TPrim? then Done(Plain(v)) else Raises({AssertionError}), t)
      else if t.TTuple? then (Done(Plain(if v.JList? then JTuple(v.items) else v)), t)
      else if HasOrigin(t) && env.validateType then (Raises({TypeError}), t)
      else (Done(Plain(v)), t);
    match built
    case Raises(ks) => Raises(ks)
    case Done(x) =>
      if env.validateType && ValidateObjType(x, expected, allowNone, env.check).Err? then Raises({TypeError})
      else Done(x)
  }

  /** `instantiate_quam_class(quam_class, contents)`: a `__class__` entry
      names the class to build instead; contents that are not a dict are a
      `TypeError`; the entries are filed by `instantiate_attrs`; the object
      is constructed from the required and optional ones, and the extras are
      set on it afterwards (`TypeError` for an extra whose name is not a
      string). */
  function InstQuamClass(env: Env, cls: PyClass, contents: Json): (o: Outcome<Inst>)
    requires Closed(env.reg) && ClassOk(env.reg, cls)
    ensures !contents.JObj? ==> o == Raises({TypeError})
    ensures o.Done? ==> o.value.IObj?
    ensures contents.JObj? && ChooseClass(env, cls, contents.fields).Raises? ==>
      o == Raises(ChooseClass(env, cls, contents.fields).kinds)
    ensures contents.JObj? && ChooseClass(env, cls, contents.fields).Done? ==>
      var c := ChooseClass(env, cls, contents.fields).value;
      AnnotationsOk(env.reg, AttrAnnotations(c.schema)) &&
      o == match InstAttrs(env, AttrAnnotations(c.schema), contents.fields)
           case Raises(ks) => Raises(ks)
           case Done(a) => Construct(c, a)
    decreases contents, 3
  {
    if !contents.JObj? then Raises({TypeError})
    else match ChooseClass(env, cls, contents.fields)
      case Raises(ks) => Raises(ks)
      case Done(c) =>
        AnnotationsOfClassOk(env.reg, c);
        match InstAttrs(env, AttrAnnotations(c.schema), contents.fields)
        case Raises(ks) => Raises(ks)
        case Done(a) => Construct(c, a)
  }

  /** The class to build. Saved contents carry the full path of the class
      they were saved from in `__class__`, and that class wins over the
      annotation, so a field annotated with a base class can hold any
      subclass and comes back as that subclass. A `__class__` that is not a
      string has no `rsplit` (`AttributeError`); a path that does not import
      raises what the import raises; without the entry the annotated class
      is built. */
  function ChooseClass(env: Env, cls: PyClass, fields: map<Key, Json>): (o: Outcome<PyClass>)
    requires Closed(env.reg) && ClassOk(env.reg, cls)
    ensures o.Done? ==> ClassOk(env.reg, o.value)
    ensures ClassKey !in fields ==> o == Done(cls)
    ensures ClassKey in fields && !fields[ClassKey].JStr? ==> o == Raises({AttributeError})
    ensures ClassKey in fields && fields[ClassKey].JStr? ==>
      o == match GetClassFromPath(env.reg, fields[ClassKey].s)
           case Ok(c) => Done(c)
           case Err(e) => Raises({e})
  {
    if ClassKey !in fields then Done(cls)
    else
      var name := fields[ClassKey];
      if !name.JStr? then Raises({AttributeError})
      else match GetClassFromPath(env.reg, name.s)
        case Err(e) => Raises({e})
        case Ok(c) => Done(c)
  }

  /** `quam_class(**required, **optional)`, then `setattr` of each extra,
      which raises `TypeError` for a name that is not a string. */
  function Construct(c: PyClass, a: Attrs): (o: Outcome<Inst>)
    ensures o.Done? ==> o.value == IObj(GetFullClassPath(c), a.required + a.optional, a.extra)
  {
    if exists k | k in a.extra :: !k.KStr? then Raises({TypeError})
    else Done(IObj(GetFullClassPath(c), a.required + a.optional, a.extra))
  }

  /** One entry of `instantiate_attrs`. */
  function AttrStep(env: Env, ann: Annotations, k: Key, v: Json): (o: Outcome<Slot>)
    requires Closed(env.reg) && AnnotationsOk(env.reg, ann)
    ensures o.Done? && o.value.ToRequired? ==> k.KStr? && k.s in ann.required
    ensures o.Done? && o.value.ToOptional? ==> k.KStr? && k.s in ann.allowed && k.s !in ann.required
    ensures o.Done? && o.value.ToExtra? ==> !env.fixAttrs && !(k.KStr? && k.s in ann.allowed)
    decreases v, 5
  {
    if !(k.KStr? && k.s in ann.allowed) then
      if !env.fixAttrs then Done(ToExtra(v)) else Raises({AttributeError})
    else match InstAttr(env, v, ann.allowed[k.s], k.s !in ann.required)
      case Raises(ks) => Raises(ks)
      case Done(x) => Done(if k.s in ann.required then ToRequired(x) else ToOptional(x))
  }

  /** The errors of the failing entries of a dict. */
  function Failures<T>(steps: map<Key, Outcome<T>>): set<Error> {
    set k, e | k in steps && steps[k].Raises? && e in steps[k].kinds :: e
  }

  predicate AllDone<T>(steps: map<Key, Outcome<T>>) {
    forall k | k in steps :: steps[k].Done?
  }

  function RequiredOf(placed: map<Key, Slot>): map<string, Inst> {
    map k | k in placed && k.KStr? && placed[k].ToRequired? :: k.s := placed[k].x
  }

  function OptionalOf(placed: map<Key, Slot>): map<string, Inst> {
    map k | k in placed && k.KStr? && placed[k].ToOptional? :: k.s := placed[k].x
  }

  function ExtraOf(placed: map<Key, Slot>): map<Key, Inst> {
    map k | k in placed && placed[k].ToExtra? :: k := Plain(placed[k].v)
  }

  /** `instantiate_attrs(attr_annotations, contents)`: every entry except
      `__class__` is filed; then a required attribute without an entry is
      an `AttributeError`. */
  function InstAttrs(env: Env, ann: Annotations, fields: map<Key, Json>): (o: Outcome<Attrs>)
    requires Closed(env.reg) && AnnotationsOk(env.reg, ann)
    ensures o.Done? ==> ann.required.Keys <= o.value.required.Keys
    ensures o.Done? ==> forall n :: n in o.value.required.Keys + o.value.optional.Keys <==>
      n in ann.allowed && KStr(n) in fields && KStr(n) != ClassKey
    ensures o.Done? ==> o.value.required.Keys <= ann.required.Keys && o.value.optional.Keys !! ann.required.Keys
    ensures o.Done? ==> forall k :: k in o.value.extra <==>
      k in fields && k != ClassKey && !(k.KStr? && k.s in ann.allowed)
    ensures o.Done? && env.fixAttrs ==> o.value.extra == map[]
    ensures env.fixAttrs && (exists k | k in fields :: k != ClassKey && !(k.KStr? && k.s in ann.allowed)) ==>
      o.Raises? && AttributeError in o.kinds
    decreases JObj(fields), 2
  {
    var steps := map k | k in fields && k != ClassKey :: AttrStep(env, ann, k, fields[k]);
    if !AllDone(steps) then
      UnknownNameFails(env, ann, fields, steps);
      Raises(Failures(steps))
    else
      var placed := map k | k in steps :: steps[k].value;
      var required := RequiredOf(placed);
      if !(ann.required.Keys <= required.Keys) then Raises({AttributeError})
      else
        PlacedNames(env, ann, fields, steps, placed);
        Done(Attrs(required, OptionalOf(placed), ExtraOf(placed)))
  }

  /** Under `fix_attrs`, an unknown name makes its step fail with an
      `AttributeError`. */
  lemma UnknownNameFails(env: Env, ann: Annotations, fields: map<Key, Json>, steps: map<Key, Outcome<Slot>>)
    requires Closed(env.reg) && AnnotationsOk(env.reg, ann)
    requires steps == map k | k in fields && k != ClassKey :: AttrStep(env, ann, k, fields[k])
    ensures env.fixAttrs && (exists k | k in fields :: k != ClassKey && !(k.KStr? && k.s in ann.allowed)) ==>
      AttributeError in Failures(steps)
    decreases JObj(fields), 1
  {
    if env.fixAttrs && (exists k | k in fields :: k != ClassKey && !(k.KStr? && k.s in ann.allowed)) {
      var k :| k in fields && k != ClassKey && !(k.KStr? && k.s in ann.allowed);
      assert steps[k] == Raises({AttributeError});
    }
  }

  /** When every entry is filed, the names filed are the allowed names
      present, each in the part its annotation says. */
  lemma PlacedNames(env: Env, ann: Annotations, fields: map<Key, Json>, steps: map<Key, Outcome<Slot>>,
                    placed: map<Key, Slot>)
    requires Closed(env.reg) && AnnotationsOk(env.reg, ann)
    requires steps == map k | k in fields && k != ClassKey :: AttrStep(env, ann, k, fields[k])
    requires AllDone(steps) && placed == map k | k in steps :: steps[k].value
    ensures forall n :: n in RequiredOf(placed).Keys + OptionalOf(placed).Keys <==>
      n in ann.allowed && KStr(n) in fields && KStr(n) != ClassKey
    ensures RequiredOf(placed).Keys <= ann.required.Keys && OptionalOf(placed).Keys !! ann.required.Keys
    ensures forall k :: k in ExtraOf(placed) <==> k in fields && k != ClassKey && !(k.KStr? && k.s in ann.allowed)
    ensures env.fixAttrs ==> ExtraOf(placed) == map[]
    decreases JObj(fields), 1
  {
    forall n ensures n in RequiredOf(placed).Keys + OptionalOf(placed).Keys <==>
      n in ann.allowed && KStr(n) in fields && KStr(n) != ClassKey {
      if n in ann.allowed && KStr(n) in fields && KStr(n) != ClassKey {
        assert KStr(n) in placed;
      }
    }
  }

  /** One value of `instantiate_attrs_from_dict` or
      `instantiate_attrs_from_list` for the element type `sub`: a quam
      element is instantiated (a reference string in a list is kept), and
      the element is checked against `sub` with `None` allowed. */
  function ElemStep(env: Env, sub: TypeDesc, v: Json, keepReferences: bool): (o: Outcome<Inst>)
    requires Closed(env.reg) && ComponentPaths(sub) <= env.reg.classes.Keys
    ensures IsComponentType(sub).Err? ==> o == Raises({IsComponentType(sub).error})
    ensures IsComponentType(sub) == Ok(false) || (IsComponentType(sub) == Ok(true) && keepReferences && v.JStr? && IsReferenceStr(v.s)) ==>
      o == (if ValidateObjType(Plain(v), sub, true, env.check).Err? then Raises({TypeError}) else Done(Plain(v)))
    ensures IsComponentType(sub) == Ok(true) && !(keepReferences && v.JStr? && IsReferenceStr(v.s)) ==>
      o == match InstQuamClass(env, ClassAt(env, sub), v)
           case Raises(ks) => Raises(ks)
           case Done(x) => if ValidateObjType(x, sub, true, env.check).Err? then Raises({TypeError}) else Done(x)
    decreases v, 5
  {
    match IsComponentType(sub)
    case Err(e) => Raises({e})
    case Ok(isComponent) =>
      var built :=
        if !isComponent then Done(Plain(v))
        else if keepReferences && v.JStr? && IsReferenceStr(v.s) then Done(Plain(v))
        else InstQuamClass(env, ClassAt(env, sub), v);
      match built
      case Raises(ks) => Raises(ks)
      case Done(x) =>
        if ValidateObjType(x, sub, true, env.check).Err? then Raises({TypeError}) else Done(x)
  }

  /** `instantiate_attrs_from_dict(attr_dict, Dict[K, sub])`: every value
      is rebuilt under its own key; a value that is not a dict has no
      `items` (`AttributeError`). */
  function InstFromDict(env: Env, v: Json, sub: TypeDesc): (o: Outcome<Inst>)
    requires Closed(env.reg) && ComponentPaths(sub) <= env.reg.classes.Keys
    ensures o.Done? ==> v.JObj? && o.value.IDict? && o.value.entries.Keys == v.fields.Keys
    ensures !v.JObj? ==> o == Raises({AttributeError})
    decreases v, 3
  {
    if !v.JObj? then Raises({AttributeError})
    else
      var steps := map k | k in v.fields :: ElemStep(env, sub, v.fields[k], false);
      if !AllDone(steps) then Raises(Failures(steps))
      else Done(IDict(map k | k in steps :: steps[k].value))
  }

  /** The elements `for k, attr_val in enumerate(attr_list)` visits: a
      list's or tuple's items, or the one-character strings of a string.
      Python also enumerates a dict's keys; a model dict has no key order,
      so a dict is not iterable here. */
  function Elements(v: Json): (r: Option<seq<Json>>)
    ensures r.Some? <==> v.JList? || v.JTuple? || v.JStr?
    ensures r.Some? ==> ElementsOf(v, r.value)
    ensures v.JStr? ==> |r.value| == |v.s| && forall j | 0 <= j < |v.s| :: r.value[j] == JStr([v.s[j]])
  {
    match v
    case JList(items) => Some(items)
    case JTuple(items) => Some(items)
    case JStr(s) => Some(seq(|s|, i requires 0 <= i < |s| => JStr([s[i]])))
    case _ => None
  }

  /** The shape of the elements of `v` (see `Elements`). */
  predicate ElementsOf(v: Json, items: seq<Json>) {
    && (v.JList? || v.JTuple? || v.JStr?)
    && (v.JList? || v.JTuple? ==> items == v.items)
    && (v.JStr? ==> forall j | 0 <= j < |items| :: items[j].JStr? && |items[j].s| == 1)
  }

  /** The element at index `i`: a character of a string is never a
      reference nor a dict, so a quam element type fails on it. */
  function ListElem(env: Env, v: Json, items: seq<Json>, sub: TypeDesc, i: nat): (o: Outcome<Inst>)
    requires Closed(env.reg) && ComponentPaths(sub) <= env.reg.classes.Keys
    requires i < |items| && ElementsOf(v, items)
    ensures v.JStr? && IsComponentType(sub) == Ok(true) ==> o == Raises({TypeError})
    ensures v.JStr? && IsComponentType(sub) == Ok(false) ==>
      o == (if ValidateObjType(Plain(items[i]), sub, true, env.check).Err? then Raises({TypeError}) else Done(Plain(items[i])))
    ensures !v.JStr? ==> o == ElemStep(env, sub, items[i], true)
    decreases v, 1
  {
    if v.JStr? then
      match IsComponentType(sub)
      case Err(e) => Raises({e})
      case Ok(isComponent) =>
        if isComponent then Raises({TypeError})
        else if ValidateObjType(Plain(items[i]), sub, true, env.check).Err? then Raises({TypeError})
        else Done(Plain(items[i]))
    else ElemStep(env, sub, items[i], true)
  }

  /** The elements from index `i` on, in order: the first failure is raised. */
  function ListFrom(env: Env, v: Json, items: seq<Json>, sub: TypeDesc, i: nat): (o: Outcome<seq<Inst>>)
    requires Closed(env.reg) && ComponentPaths(sub) <= env.reg.classes.Keys
    requires i <= |items| && ElementsOf(v, items)
    ensures o.Done? ==> |o.value| == |items| - i
    decreases v, 2, |items| - i
  {
    if i == |items| then Done([])
    else match ListElem(env, v, items, sub, i)
      case Raises(ks) => Raises(ks)
      case Done(x) =>
        match ListFrom(env, v, items, sub, i + 1)
        case Raises(ks) => Raises(ks)
        case Done(rest) => Done([x] + rest)
  }

  /** `instantiate_attrs_from_list(attr_list, List[sub])`: the elements in
      order; a number or bool is not iterable (`TypeError`). */
  function InstFromList(env: Env, v: Json, sub: TypeDesc): (o: Outcome<Inst>)
    requires Closed(env.reg) && ComponentPaths(sub) <= env.reg.classes.Keys
    ensures o.Done? ==> o.value.IList? && Elements(v).Some? && |o.value.items| == |Elements(v).value|
    decreases v, 3
  {
    match Elements(v)
    case None => Raises({TypeError})
    case Some(items) =>
      match ListFrom(env, v, items, sub, 0)
      case Raises(ks) => Raises(ks)
      case Done(xs) => Done(IList(xs))
  }

  // ---------------------------------------------------------------------
  // The loops of the Python code

  /** One failing entry makes the whole dict fail, with its error among
      the possible ones. */
  lemma AttrsFail(env: Env, ann: Annotations, fields: map<Key, Json>, k: Key, e: Error)
    requires Closed(env.reg) && AnnotationsOk(env.reg, ann)
    requires k in fields && k != ClassKey
    requires AttrStep(env, ann, k, fields[k]).Raises? && e in AttrStep(env, ann, k, fields[k]).kinds
    ensures InstAttrs(env, ann, fields).Raises? && e in InstAttrs(env, ann, fields).kinds
  {
    var steps := map k | k in fields && k != ClassKey :: AttrStep(env, ann, k, fields[k]);
    assert k in steps && steps[k].Raises? && e in steps[k].kinds;
  }

  /** When every entry is filed, the outcome is given by where they went. */
  lemma AttrsAllDone(env: Env, ann: Annotations, fields: map<Key, Json>, placed: map<Key, Slot>)
    requires Closed(env.reg) && AnnotationsOk(env.reg, ann)
    requires placed.Keys == fields.Keys - {ClassKey}
    requires forall k | k in placed :: AttrStep(env, ann, k, fields[k]) == Done(placed[k])
    ensures InstAttrs(env, ann, fields) ==
      if !(ann.required.Keys <= RequiredOf(placed).Keys) then Raises({AttributeError})
      else Done(Attrs(RequiredOf(placed), OptionalOf(placed), ExtraOf(placed)))
  {
    var steps := map k | k in fields && k != ClassKey :: AttrStep(env, ann, k, fields[k]);
    assert AllDone(steps);
    assert placed == map k | k in steps :: steps[k].value;
  }

  /** The three maps of `instantiate_attrs` hold the filed entries, each
      under its own kind. */
  ghost predicate Filed(placed: map<Key, Slot>, required: map<string, Inst>, optional: map<string, Inst>, extra: map<Key, Inst>) {
    && (forall n :: n in required <==> KStr(n) in placed && placed[KStr(n)].ToRequired?)
    && (forall n | n in required :: required[n] == placed[KStr(n)].x)
    && (forall n :: n in optional <==> KStr(n) in placed && placed[KStr(n)].ToOptional?)
    && (forall n | n in optional :: optional[n] == placed[KStr(n)].x)
    && (forall k :: k in extra <==> k in placed && placed[k].ToExtra?)
    && (forall k | k in extra :: extra[k] == Plain(placed[k].v))
  }

  /** Filing one more entry keeps the three maps in step with `placed`. */
  lemma FiledAdd(placed: map<Key, Slot>, required: map<string, Inst>, optional: map<string, Inst>,
                 extra: map<Key, Inst>, k: Key, slot: Slot)
    requires Filed(placed, required, optional, extra) && k !in placed
    requires !slot.ToExtra? ==> k.KStr?
    ensures slot.ToRequired? ==> Filed(placed[k := slot], required[k.s := slot.x], optional, extra)
    ensures slot.ToOptional? ==> Filed(placed[k := slot], required, optional[k.s := slot.x], extra)
    ensures slot.ToExtra? ==> Filed(placed[k := slot], required, optional, extra[k := Plain(slot.v)])
  {
  }

  lemma FiledMaps(placed: map<Key, Slot>, required: map<string, Inst>, optional: map<string, Inst>, extra: map<Key, Inst>)
    requires Filed(placed, required, optional, extra)
    ensures required == RequiredOf(placed) && optional == OptionalOf(placed) && extra == ExtraOf(placed)
  {
    FiledRequired(placed, required, optional, extra);
    FiledOptional(placed, required, optional, extra);
  }

  lemma FiledRequired(placed: map<Key, Slot>, required: map<string, Inst>, optional: map<string, Inst>, extra: map<Key, Inst>)
    requires Filed(placed, required, optional, extra)
    ensures required == RequiredOf(placed)
  {
    var m := RequiredOf(placed);
    forall n ensures n in m <==> n in required {
      if n in required {
        assert KStr(n) in placed && KStr(n).s == n;
      }
    }
    forall n | n in m ensures m[n] == required[n] {
      assert KStr(n) in placed && KStr(n).s == n;
    }
  }

  lemma FiledOptional(placed: map<Key, Slot>, required: map<string, Inst>, optional: map<string, Inst>, extra: map<Key, Inst>)
    requires Filed(placed, required, optional, extra)
    ensures optional == OptionalOf(placed)
  {
    var m := OptionalOf(placed);
    forall n ensures n in m <==> n in optional {
      if n in optional {
        assert KStr(n) in placed && KStr(n).s == n;
      }
    }
    forall n | n in m ensures m[n] == optional[n] {
      assert KStr(n) in placed && KStr(n).s == n;
    }
  }

  /** `instantiate_attrs`: files the entries one by one, then checks that no
      required attribute is missing. */
  method InstantiateAttrs(env: Env, ann: Annotations, fields: map<Key, Json>) returns (r: Result<Attrs>)
    requires Closed(env.reg) && AnnotationsOk(env.reg, ann)
    ensures Conforms(r, InstAttrs(env, ann, fields))
    decreases JObj(fields), 2
  {
    var required: map<string, Inst> := map[];
    var optional: map<string, Inst> := map[];
    var extra: map<Key, Inst> := map[];
    ghost var placed: map<Key, Slot> := map[];
    var todo := fields.Keys;
    while todo != {}
      invariant todo <= fields.Keys
      invariant placed.Keys == fields.Keys - todo - {ClassKey}
      invariant forall k | k in placed :: AttrStep(env, ann, k, fields[k]) == Done(placed[k])
      invariant Filed(placed, required, optional, extra)
      decreases todo
    {
      var k :| k in todo;
      todo := todo - {k};
      if k == ClassKey {
        continue;
      }
      var step := InstantiateAttrStep(env, ann, k, fields[k]);
      if step.Err? {
        AttrsFail(env, ann, fields, k, step.error);
        return Err(step.error);
      }
      var slot := step.value;
      FiledAdd(placed, required, optional, extra, k, slot);
      match slot {
        case ToRequired(x) => required := required[k.s := x];
        case ToOptional(x) => optional := optional[k.s := x];
        case ToExtra(v) => extra := extra[k := Plain(v)];
      }
      placed := placed[k := slot];
    }
    FiledMaps(placed, required, optional, extra);
    AttrsAllDone(env, ann, fields, placed);
    if !(ann.required.Keys <= required.Keys) {
      return Err(AttributeError);
    }
    return Ok(Attrs(required, optional, extra));
  }

  /** One entry of the loop of `instantiate_attrs`: an unknown name is an
      extra, or an `AttributeError` under `fix_attrs`; a known one is
      instantiated under its annotation. */
  method InstantiateAttrStep(env: Env, ann: Annotations, k: Key, v: Json) returns (r: Result<Slot>)
    requires Closed(env.reg) && AnnotationsOk(env.reg, ann)
    ensures Conforms(r, AttrStep(env, ann, k, v))
    decreases v, 5
  {
    if !(k.KStr? && k.s in ann.allowed) {
      if !env.fixAttrs {
        return Ok(ToExtra(v));
      }
      return Err(AttributeError);
    }
    var x := InstantiateAttr(env, v, ann.allowed[k.s], k.s !in ann.required);
    if x.Err? {
      return Err(x.error);
    }
    if k.s in ann.required {
      return Ok(ToRequired(x.value));
    }
    return Ok(ToOptional(x.value));
  }

  /** `instantiate_attr`: the branch on the annotation, then the check. */
  method InstantiateAttr(env: Env, v: Json, t: TypeDesc, allowNone: bool) returns (r: Result<Inst>)
    requires Closed(env.reg) && ComponentPaths(t) <= env.reg.classes.Keys
    ensures Conforms(r, InstAttr(env, v, t, allowNone))
    decreases v, 4
  {
    var x: Inst;
    var expected := t;
    if v.JStr? && StartsWith(v.s, ":") {
      x := Plain(v);
    } else if v.JNull? {
      x := Plain(v);
    } else if t.TClass? && t.quamComponent {
      var built := InstantiateQuamClass(env, ClassAt(env, t), v);
      if built.Err? {
        return built;
      }
      x := built.value;
    } else if t.TDict? {
      var built := InstantiateAttrsFromDict(env, v, t.value);
      if built.Err? {
        return built;
      }
      x := built.value;
      expected := PlainDict;
    } else if t.TList? {
      var built := InstantiateAttrsFromList(env, v, t.elem);
      if built.Err? {
        return built;
      }
      x := built.value;
      expected := PlainList;
    } else if t.TUnion? {
      if !(forall i | 0 <= i < |t.args| :: t.args[i].TPrim?) {
        return Err(AssertionError);
      }
      x := Plain(v);
    } else if t.TTuple? {
      x := Plain(if v.JList? then JTuple(v.items) else v);
    } else if HasOrigin(t) && env.validateType {
      return Err(TypeError);
    } else {
      x := Plain(v);
    }
    if env.validateType {
      var ok := ValidateObjType(x, expected, allowNone, env.check);
      if ok.Err? {
        return Err(TypeError);
      }
    }
    return Ok(x);
  }

  /** `instantiate_quam_class`: picks the class, files the entries,
      constructs the object and sets the extras on it. */
  method InstantiateQuamClass(env: Env, cls: PyClass, contents: Json) returns (r: Result<Inst>)
    requires Closed(env.reg) && ClassOk(env.reg, cls)
    ensures Conforms(r, InstQuamClass(env, cls, contents))
    decreases contents, 3
  {
    if !contents.JObj? {
      return Err(TypeError);
    }
    var c := cls;
    if ClassKey in contents.fields {
      var name := contents.fields[ClassKey];
      if !name.JStr? {
        return Err(AttributeError);
      }
      var found := GetClassFromPath(env.reg, name.s);
      if found.Err? {
        return Err(found.error);
      }
      c := found.value;
    }
    assert ChooseClass(env, cls, contents.fields) == Done(c);
    var ann := GetDataclassAttrAnnotations(c.schema);
    AnnotationsOfClassOk(env.reg, c);
    var attrs := InstantiateAttrs(env, ann, contents.fields);
    if attrs.Err? {
      return Err(attrs.error);
    }
    if env.fixAttrs {
      assert attrs.value.extra == map[];
    }
    r := SetExtras(c, attrs.value);
  }

  /** Constructs the object and sets the extras on it one by one. */
  method SetExtras(c: PyClass, a: Attrs) returns (r: Result<Inst>)
    ensures Conforms(r, Construct(c, a))
  {
    var obj := IObj(GetFullClassPath(c), a.required + a.optional, map[]);
    var todo := a.extra.Keys;
    while todo != {}
      invariant todo <= a.extra.Keys
      invariant obj == IObj(GetFullClassPath(c), a.required + a.optional, a.extra - todo)
      invariant forall k | k in a.extra.Keys - todo :: k.KStr?
      decreases todo
    {
      var k :| k in todo;
      if !k.KStr? {
        return Err(TypeError);
      }
      obj := obj.(extras := obj.extras[k := a.extra[k]]);
      todo := todo - {k};
      assert obj.extras == a.extra - todo;
    }
    assert a.extra - todo == a.extra;
    return Ok(obj);
  }

  /** One element of a dict or list being rebuilt. */
  method InstantiateElem(env: Env, sub: TypeDesc, v: Json, keepReferences: bool) returns (r: Result<Inst>)
    requires Closed(env.reg) && ComponentPaths(sub) <= env.reg.classes.Keys
    ensures Conforms(r, ElemStep(env, sub, v, keepReferences))
    decreases v, 5
  {
    var isComponent := IsComponentType(sub);
    if isComponent.Err? {
      return Err(isComponent.error);
    }
    var x: Inst;
    if !isComponent.value {
      x := Plain(v);
    } else if keepReferences && v.JStr? && IsReferenceStr(v.s) {
      x := Plain(v);
    } else {
      var built := InstantiateQuamClass(env, ClassAt(env, sub), v);
      if built.Err? {
        return built;
      }
      x := built.value;
    }
    var ok := ValidateObjType(x, sub, true, env.check);
    if ok.Err? {
      return Err(TypeError);
    }
    return Ok(x);
  }

  /** `Failures` contains the error of any failing entry. */
  lemma FailureIn<T>(steps: map<Key, Outcome<T>>, k: Key, e: Error)
    requires k in steps && steps[k].Raises? && e in steps[k].kinds
    ensures e in Failures(steps) && !AllDone(steps)
  {
  }

  /** One failing value makes the whole dict fail, with its error among
      the possible ones. */
  lemma DictFail(env: Env, v: Json, sub: TypeDesc, k: Key, e: Error)
    requires Closed(env.reg) && ComponentPaths(sub) <= env.reg.classes.Keys
    requires v.JObj? && k in v.fields
    requires ElemStep(env, sub, v.fields[k], false).Raises? && e in ElemStep(env, sub, v.fields[k], false).kinds
    ensures InstFromDict(env, v, sub).Raises? && e in InstFromDict(env, v, sub).kinds
  {
    var steps := map k | k in v.fields :: ElemStep(env, sub, v.fields[k], false);
    FailureIn(steps, k, e);
  }

  /** When every value is rebuilt, the dict holds them under their keys. */
  lemma DictAllDone(env: Env, v: Json, sub: TypeDesc, entries: map<Key, Inst>)
    requires Closed(env.reg) && ComponentPaths(sub) <= env.reg.classes.Keys
    requires v.JObj? && entries.Keys == v.fields.Keys
    requires forall k | k in entries :: ElemStep(env, sub, v.fields[k], false) == Done(entries[k])
    ensures InstFromDict(env, v, sub) == Done(IDict(entries))
  {
    var steps := map k | k in v.fields :: ElemStep(env, sub, v.fields[k], false);
    assert AllDone(steps);
    assert entries == map k | k in steps :: steps[k].value;
  }

  /** `instantiate_attrs_from_dict`: rebuilds the values one by one. */
  method InstantiateAttrsFromDict(env: Env, v: Json, sub: TypeDesc) returns (r: Result<Inst>)
    requires Closed(env.reg) && ComponentPaths(sub) <= env.reg.classes.Keys
    ensures Conforms(r, InstFromDict(env, v, sub))
    decreases v, 3
  {
    if !v.JObj? {
      return Err(AttributeError);
    }
    var entries: map<Key, Inst> := map[];
    var todo := v.fields.Keys;
    while todo != {}
      invariant todo <= v.fields.Keys
      invariant entries.Keys == v.fields.Keys - todo
      invariant forall k | k in entries :: ElemStep(env, sub, v.fields[k], false) == Done(entries[k])
      decreases todo
    {
      var k :| k in todo;
      todo := todo - {k};
      var x := InstantiateElem(env, sub, v.fields[k], false);
      if x.Err? {
        DictFail(env, v, sub, k, x.error);
        return Err(x.error);
      }
      entries := entries[k := x.value];
    }
    DictAllDone(env, v, sub, entries);
    return Ok(IDict(entries));
  }

  /** The rest of a list outcome behind the elements already rebuilt. */
  function Behind(done: seq<Inst>, o: Outcome<seq<Inst>>): Outcome<seq<Inst>> {
    match o
    case Raises(ks) => Raises(ks)
    case Done(rest) => Done(done + rest)
  }

  /** Nothing rebuilt yet: the outcome is the whole list's. */
  lemma ListStart(env: Env, v: Json, sub: TypeDesc)
    requires Closed(env.reg) && ComponentPaths(sub) <= env.reg.classes.Keys
    requires Elements(v).Some?
    ensures ElementsOf(v, Elements(v).value)
    ensures ListFrom(env, v, Elements(v).value, sub, 0) == Behind([], ListFrom(env, v, Elements(v).value, sub, 0))
  {
    match ListFrom(env, v, Elements(v).value, sub, 0) {
      case Raises(_) =>
      case Done(rest) => assert [] + rest == rest;
    }
  }

  /** One more element rebuilt moves it behind the ones before. */
  lemma ListStep(env: Env, v: Json, items: seq<Json>, sub: TypeDesc, i: nat, done: seq<Inst>, x: Inst)
    requires Closed(env.reg) && ComponentPaths(sub) <= env.reg.classes.Keys
    requires i < |items| && ElementsOf(v, items)
    requires ListElem(env, v, items, sub, i) == Done(x)
    ensures Behind(done, ListFrom(env, v, items, sub, i)) == Behind(done + [x], ListFrom(env, v, items, sub, i + 1))
  {
    match ListFrom(env, v, items, sub, i + 1) {
      case Raises(ks) =>
      case Done(rest) => assert done + [x] + rest == done + ([x] + rest);
    }
  }

  /** A failing element makes the whole list fail with its error. */
  lemma ListFail(env: Env, v: Json, items: seq<Json>, sub: TypeDesc, i: nat, done: seq<Inst>, e: Error)
    requires Closed(env.reg) && ComponentPaths(sub) <= env.reg.classes.Keys
    requires Elements(v) == Some(items) && i < |items| && ElementsOf(v, items)
    requires ListFrom(env, v, items, sub, 0) == Behind(done, ListFrom(env, v, items, sub, i))
    requires ListElem(env, v, items, sub, i).Raises? && e in ListElem(env, v, items, sub, i).kinds
    ensures InstFromList(env, v, sub).Raises? && e in InstFromList(env, v, sub).kinds
  {
  }

  /** Every element rebuilt: the list holds them in order. */
  lemma ListAllDone(env: Env, v: Json, items: seq<Json>, sub: TypeDesc, done: seq<Inst>)
    requires Closed(env.reg) && ComponentPaths(sub) <= env.reg.classes.Keys
    requires Elements(v) == Some(items) && ElementsOf(v, items)
    requires ListFrom(env, v, items, sub, 0) == Behind(done, ListFrom(env, v, items, sub, |items|))
    ensures InstFromList(env, v, sub) == Done(IList(done))
  {
    assert done + [] == done;
  }

  /** The loop body of `instantiate_attrs_from_list`. */
  method InstantiateListElem(env: Env, v: Json, items: seq<Json>, sub: TypeDesc, i: nat) returns (r: Result<Inst>)
    requires Closed(env.reg) && ComponentPaths(sub) <= env.reg.classes.Keys
    requires i < |items| && ElementsOf(v, items)
    ensures Conforms(r, ListElem(env, v, items, sub, i))
    decreases v, 1
  {
    if v.JStr? {
      var isComponent := IsComponentType(sub);
      if isComponent.Err? {
        return Err(isComponent.error);
      } else if isComponent.value {
        return Err(TypeError);
      } else if ValidateObjType(Plain(items[i]), sub, true, env.check).Err? {
        return Err(TypeError);
      }
      return Ok(Plain(items[i]));
    }
    r := InstantiateElem(env, sub, items[i], true);
  }

  /** `instantiate_attrs_from_list`: rebuilds the elements in order and
      stops at the first that fails. */
  method InstantiateAttrsFromList(env: Env, v: Json, sub: TypeDesc) returns (r: Result<Inst>)
    requires Closed(env.reg) && ComponentPaths(sub) <= env.reg.classes.Keys
    ensures Conforms(r, InstFromList(env, v, sub))
    decreases v, 3
  {
    var elements := Elements(v);
    if elements.None? {
      return Err(TypeError);
    }
    var items := elements.value;
    var done: seq<Inst> := [];
    ListStart(env, v, sub);
    var i := 0;
    while i < |items|
      invariant 0 <= i <= |items|
      invariant ListFrom(env, v, items, sub, 0) == Behind(done, ListFrom(env, v, items, sub, i))
      decreases |items| - i
    {
      var x := InstantiateListElem(env, v, items, sub, i);
      if x.Err? {
        ListFail(env, v, items, sub, i, done, x.error);
        return Err(x.error);
      }
      ListStep(env, v, items, sub, i, done, x.value);
      done := done + [x.value];
      i := i + 1;
    }
    ListAllDone(env, v, items, sub, done);
    return Ok(IList(done));
  }
}

/** The quam object tree: every `QuamRoot`, `QuamComponent`, `QuamDict` and
    `QuamList` object is a `Node` in a `Store`, addressed by its identity.
    A node records its parent link (`ParentDescriptor`), its dataclass
    field declarations and its raw (unresolved) attribute values. */
module QuamModel {
  import opened Wrappers
  import opened Strings
  import opened Values
  import opened JsonValue
  import opened StringReference

  datatype Kind = Root | Component | QDict | QList

  /** The default of a dataclass field. A `default_factory` of `dict` or
      `list` produces an empty container, which a `QuamDict` / `QuamList`
      compares equal to when its own data is empty. */
  datatype Default =
    | NoDefault
    | DefaultValue(v: Value)
    | FactoryEmptyDict
    | FactoryEmptyList
    | FactoryValue(v: Value)
    /** a factory that raises `TypeError` when called without arguments */
    | FactoryTypeError

  datatype FieldDecl = FieldDecl(name: string, default: Default)

  /** `config_settings`: the components this one must come after / before. */
  datatype Settings = Settings(after: seq<Id>, before: seq<Id>)

  /** Raw contents: the instance attributes of a dataclass object, the
      items of a `QuamDict` in insertion order, the elements of a `QuamList`. */
  datatype Body =
    | Attrs(attrs: map<string, Value>)
    | Entries(entries: seq<(Key, Value)>)
    | Items(items: seq<Value>)

  datatype Node = Node(
    kind: Kind,
    /** `get_full_class_path` of the object's class */
    cls: string,
    /** the dataclass fields, in declaration order */
    fields: seq<FieldDecl>,
    /** `_skip_attrs` */
    skip: set<string>,
    /** `ReferenceClass._initialized` */
    initialized: bool,
    parent: Option<Id>,
    body: Body,
    settings: Option<Settings>)

  type Store = map<Id, Node>

  predicate UniqueKeys(entries: seq<(Key, Value)>) {
    forall i, j | 0 <= i < j < |entries| :: entries[i].0 != entries[j].0
  }

  predicate WfNode(n: Node) {
    && ((n.kind.Root? || n.kind.Component?) <==> n.body.Attrs?)
    && (n.kind.QDict? <==> n.body.Entries?)
    && (n.kind.QList? <==> n.body.Items?)
    && (n.body.Entries? ==> UniqueKeys(n.body.entries))
    // the parent link lives in `parent`, never among the fields
    && (n.body.Attrs? ==> "parent" !in n.body.attrs)
  }

  /** Every value a body holds. */
  function BodyValues(b: Body): set<Value> {
    match b
    case Attrs(attrs) => attrs.Values
    case Entries(entries) => set e | e in entries :: e.1
    case Items(items) => set v | v in items
  }

  /** Every node is well formed and every identity it mentions exists. */
  predicate Valid(st: Store) {
    && (forall id | id in st :: WfNode(st[id]))
    && (forall id | id in st && st[id].parent.Some? :: st[id].parent.value in st)
    && (forall id, v | id in st && v in BodyValues(st[id].body) :: v.VNode? ==> v.id in st)
  }

  /** Python's `is` between a value and an object: only objects have an
      identity in this model. */
  predicate Is(a: Value, b: Value) {
    a.VNode? && a == b
  }

  /** The first value stored under key `k` of a dict's items. */
  function DictGet(entries: seq<(Key, Value)>, k: Key): (r: Option<Value>)
    ensures r.Some? <==> exists i :: 0 <= i < |entries| && entries[i].0 == k
    ensures r.Some? ==> r.value in set e | e in entries :: e.1
  {
    if entries == [] then None
    else if entries[0].0 == k then Some(entries[0].1)
    else
      var r := DictGet(entries[1..], k);
      assert forall i :: 1 <= i < |entries| ==> entries[i] == entries[1..][i - 1];
      r
  }

  /** `get_raw_value(attr)` / `get_unreferenced_value(attr)`: the stored
      value without following references; `AttributeError` when absent. A
      list slot is named by its decimal index. */
  function RawValue(n: Node, k: Key): (r: Result<Value>)
    ensures r.Ok? ==> r.value in BodyValues(n.body)
    ensures r.Err? ==> r.error == AttributeError
  {
    match n.body
    case Attrs(attrs) =>
      if k.KStr? && k.s in attrs then Ok(attrs[k.s]) else Err(AttributeError)
    case Entries(entries) =>
      var v := DictGet(entries, k);
      if v.Some? then Ok(v.value) else Err(AttributeError)
    case Items(items) =>
      if k.KStr? && IsDigits(k.s) && DigitsValue(k.s) < |items| then Ok(items[DigitsValue(k.s)])
      else Err(AttributeError)
  }

  /** `_get_attr_names()`: dataclass field names, or the keys of a dict. */
  function AttrNames(n: Node): (r: seq<Key>)
    ensures n.body.Attrs? ==> |r| == |n.fields|
  {
    match n.body
    case Attrs(_) => seq(|n.fields|, i requires 0 <= i < |n.fields| => KStr(n.fields[i].name))
    case Entries(entries) => seq(|entries|, i requires 0 <= i < |entries| => entries[i].0)
    case Items(_) => []
  }

  /** Scans `names` for the first one whose raw value is `child`; a name
      whose raw value is missing stops the scan with `AttributeError`. */
  function FindName(n: Node, names: seq<Key>, child: Value): (r: Result<Key>)
    ensures r.Ok? ==> r.value in names && RawValue(n, r.value) == Ok(child) && Is(child, child)
    ensures r.Err? ==> r.error == AttributeError
    decreases |names|
  {
    if names == [] then Err(AttributeError)
    else
      var v :- RawValue(n, names[0]);
      if Is(v, child) then Ok(names[0]) else FindName(n, names[1..], child)
  }

  function FindIndex(items: seq<Value>, child: Value, from: nat): (r: Option<nat>)
    requires from <= |items|
    ensures r.Some? ==> from <= r.value < |items| && Is(items[r.value], child)
    ensures r.Some? ==> forall j :: from <= j < r.value ==> !Is(items[j], child)
    ensures r.None? ==> forall j :: from <= j < |items| ==> !Is(items[j], child)
    decreases |items| - from
  {
    if from == |items| then None
    else if Is(items[from], child) then Some(from)
    else FindIndex(items, child, from + 1)
  }

  /** `get_attr_name(attr_val)`: the name under which the object holds
      `child` (identity), the first one when several slots hold it; a list
      names the slot by `str(index)`. `AttributeError` when not held. */
  function GetAttrName(n: Node, child: Value): (r: Result<Key>)
    ensures r.Ok? ==> RawValue(n, r.value) == Ok(child) && child.VNode?
    ensures r.Err? ==> r.error == AttributeError
  {
    match n.body
    case Items(items) =>
      var k := FindIndex(items, child, 0);
      if k.Some? then
        NatToStringValue(k.value);
        Ok(KStr(NatToString(k.value)))
      else Err(AttributeError)
    case _ => FindName(n, AttrNames(n), child)
  }

  /** `get_root()`: a `QuamRoot` is its own root; any other object asks its
      parent, and an object without a parent falls back to the last
      instantiated root (`lastRoot`). Each step up is one Python call,
      so running out of `fuel` is a `RecursionError`. */
  function GetRoot(st: Store, id: Id, lastRoot: Option<Id>, fuel: nat): (r: Result<Option<Id>>)
    requires Valid(st) && id in st
    ensures r.Ok? && r.value.Some? && r.value != lastRoot ==> r.value.value in st && st[r.value.value].kind.Root?
    ensures r.Err? ==> r.error == RecursionError
    decreases fuel
  {
    if st[id].kind.Root? then Ok(Some(id))
    else if st[id].parent.Some? then
      if fuel == 0 then Err(RecursionError) else GetRoot(st, st[id].parent.value, lastRoot, fuel - 1)
    else Ok(lastRoot)
  }

  /** `get_reference(attr, relative_path)`.
      The root's reference is `#/` (`#/attr` with an attribute). Any other
      object needs a parent: its reference is the parent's (with `#/`
      collapsed to `#`) followed by `/` and the name under which the parent
      holds it; `relative_path` is then joined to it, or `attr` appended. */
  function GetReference(st: Store, id: Id, attr: Option<string>, relativePath: Option<string>, fuel: nat)
    : (r: Result<string>)
    requires Valid(st) && id in st
    ensures st[id].kind.Root? && attr.Some? ==> r == Ok("#/" + attr.value)
    ensures !st[id].kind.Root? && attr.Some? && relativePath.Some? ==> r == Err(ValueError)
    ensures !st[id].kind.Root? && st[id].parent.None? && !(attr.Some? && relativePath.Some?)
      ==> r == Err(AttributeError)
    ensures r.Ok? && relativePath.None? ==> StartsWith(r.value, "#/")
    decreases fuel
  {
    var n := st[id];
    if n.kind.Root? then
      if attr.Some? then Ok("#/" + attr.value)
      else if relativePath.Some? then JoinReferences("#/", relativePath.value)
      else Ok("#/")
    else if attr.Some? && relativePath.Some? then Err(ValueError)
    else if n.parent.None? then Err(AttributeError)
    else if fuel == 0 then Err(RecursionError)
    else
      var p := n.parent.value;
      match GetReference(st, p, None, None, fuel - 1)
      case Err(e) => if e == AttributeError then Err(AttributeError) else Err(e)
      case Ok(parentRef) =>
        var base := if parentRef == "#/" then "#" else parentRef;
        match GetAttrName(st[p], VNode(id))
        case Err(_) => Err(AttributeError)
        case Ok(name) =>
          var reference := base + "/" + KeyStr(name);
          assert StartsWith(reference, "#/") by {
            if parentRef != "#/" { assert reference[..2] == parentRef[..2]; }
          }
          if relativePath.Some? then
            if !IsReferenceStr(relativePath.value) then Err(ValueError)
            else JoinReferences(reference, relativePath.value)
          else if attr.Some? then Ok(reference + "/" + attr.value)
          else Ok(reference)
  }

  /** The number a bool, int or float stands for in Python comparisons. */
  function NumValue(v: Value): real
    requires v.VBool? || v.VInt? || v.VFloat?
  {
    match v
    case VBool(b) => if b then 1.0 else 0.0
    case VInt(i) => i as real
    case VFloat(f) => f
  }

  /** Python `==` between two attribute values: numbers compare by value
      (`True == 1 == 1.0`), objects by identity. */
  predicate PyEq(a: Value, b: Value) {
    if (a.VBool? || a.VInt? || a.VFloat?) && (b.VBool? || b.VInt? || b.VFloat?) then
      NumValue(a) == NumValue(b)
    else a == b
  }

  function FieldDefault(fields: seq<FieldDecl>, name: string): (r: Option<Default>)
    ensures r.Some? <==> exists i :: 0 <= i < |fields| && fields[i].name == name
  {
    if fields == [] then None
    else if fields[0].name == name then Some(fields[0].default)
    else
      var r := FieldDefault(fields[1..], name);
      assert forall i :: 1 <= i < |fields| ==> fields[i] == fields[1..][i - 1];
      r
  }

  /** `_attr_val_is_default(attr, val)`: whether `val` equals the declared
      default (or the factory's product) of field `attr`. A `QuamDict` and an
      undeclared name never have defaults; a factory raising `TypeError`
      counts as no default. */
  predicate AttrValIsDefault(st: Store, n: Node, attr: string, val: Value) {
    if n.kind.QDict? then false
    else match FieldDefault(n.fields, attr)
      case None => false
      case Some(d) =>
        match d
        case NoDefault => false
        case DefaultValue(dv) => PyEq(val, dv)
        case FactoryValue(dv) => PyEq(val, dv)
        case FactoryTypeError => false
        case FactoryEmptyDict =>
          val.VNode? && val.id in st && st[val.id].body.Entries? && st[val.id].body.entries == []
        case FactoryEmptyList =>
          val.VNode? && val.id in st && st[val.id].body.Items? && st[val.id].body.items == []
  }

  lemma UndeclaredIsNeverDefault(st: Store, n: Node, attr: string, val: Value)
    requires forall i :: 0 <= i < |n.fields| ==> n.fields[i].name != attr
    ensures !AttrValIsDefault(st, n, attr, val)
  {
  }
}

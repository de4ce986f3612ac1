/** Reading the whole object tree: `get_attrs`, `to_dict` and
    `iterate_components`, each as the recursion the Python methods perform
    (with `fuel` for the recursion depth). */
module QuamTree {
  import opened Wrappers
  import opened Values
  import opened JsonValue
  import opened StringReference
  import opened QuamModel
  import opened Resolver

  /** The declared field names that are not in `_skip_attrs`, in
      declaration order. */
  function VisibleNames(fields: seq<FieldDecl>, skip: set<string>): (r: seq<string>)
    ensures forall x :: x in r <==> x !in skip && exists i :: 0 <= i < |fields| && fields[i].name == x
    decreases |fields|
  {
    if fields == [] then []
    else
      var rest := VisibleNames(fields[1..], skip);
      assert forall i :: 1 <= i < |fields| ==> fields[i] == fields[1..][i - 1];
      if fields[0].name in skip then rest else [fields[0].name] + rest
  }

  /** The values `get_attrs` reads for `names`: raw values, or with
      `follow` the values `getattr` returns (references resolved; a name
      that is not stored may still be a property). */
  function ReadFields(st: Store, id: Id, names: seq<string>, follow: bool, ctx: Ctx, fuel: nat)
    : (r: Result<seq<(Key, Value)>>)
    requires Valid(st) && id in st && st[id].body.Attrs? && CtxIn(st, ctx)
    ensures (forall i | 0 <= i < |names| :: names[i] in st[id].body.attrs) ==> r.Ok?
    ensures !follow ==> (r.Ok? <==> forall i | 0 <= i < |names| :: names[i] in st[id].body.attrs)
    ensures !follow && r.Err? ==> r.error == AttributeError
    ensures r.Ok? ==> |r.value| == |names|
    ensures r.Ok? ==> forall i | 0 <= i < |names| :: r.value[i].0 == KStr(names[i])
    ensures r.Ok? ==> forall i | 0 <= i < |names| :: ValueIn(st, r.value[i].1)
    ensures r.Ok? ==> forall i | 0 <= i < |names| && names[i] in st[id].body.attrs
      && (!follow || !IsReference(st[id].body.attrs[names[i]])) ::
      r.value[i].1 == st[id].body.attrs[names[i]]
    decreases |names|
  {
    if names == [] then Ok([])
    else
      var v :- if follow then GetAttribute(st, id, names[0], ctx, fuel)
               else RawValue(st[id], KStr(names[0]));
      var rest :- ReadFields(st, id, names[1..], follow, ctx, fuel);
      Ok([(KStr(names[0]), v)] + rest)
  }

  /** The entries whose value is not the field's default. */
  function DropDefaults(st: Store, n: Node, kvs: seq<(Key, Value)>): (r: seq<(Key, Value)>)
    ensures forall e :: e in r <==> e in kvs && !(e.0.KStr? && AttrValIsDefault(st, n, e.0.s, e.1))
    decreases |kvs|
  {
    if kvs == [] then []
    else
      var rest := DropDefaults(st, n, kvs[1..]);
      assert forall e :: e in kvs <==> e == kvs[0] || e in kvs[1..];
      if kvs[0].0.KStr? && AttrValIsDefault(st, n, kvs[0].0.s, kvs[0].1) then rest else [kvs[0]] + rest
  }

  /** `get_attrs(follow_references, include_defaults)`. A dataclass
      object reports its non-skipped fields, without the ones equal to
      their default unless `include_defaults`; a `QuamDict` reports its
      items whatever the flags; a `QuamList` raises `NotImplementedError`. */
  function GetAttrs(st: Store, id: Id, follow: bool, includeDefaults: bool, ctx: Ctx, fuel: nat)
    : (r: Result<seq<(Key, Value)>>)
    requires Valid(st) && id in st && CtxIn(st, ctx)
    ensures st[id].body.Items? ==> r == Err(NotImplementedError)
    ensures st[id].body.Entries? ==> r == Ok(st[id].body.entries)
    ensures r.Ok? ==> forall e | e in r.value :: ValueIn(st, e.1)
  {
    var n := st[id];
    match n.body
    case Items(_) => Err(NotImplementedError)
    case Entries(entries) =>
      assert forall e | e in entries :: e.1 in BodyValues(n.body);
      Ok(entries)
    case Attrs(_) =>
      var kvs :- ReadFields(st, id, VisibleNames(n.fields, n.skip), follow, ctx, fuel);
      Ok(if includeDefaults then kvs else DropDefaults(st, n, kvs))
  }

  /** The keys `get_attrs` reports for a dataclass object: exactly the
      declared, non-skipped fields, minus the defaulted ones when defaults
      are excluded. */
  lemma GetAttrsNames(st: Store, id: Id, follow: bool, includeDefaults: bool, ctx: Ctx, fuel: nat)
    requires Valid(st) && id in st && CtxIn(st, ctx) && st[id].body.Attrs?
    requires GetAttrs(st, id, follow, includeDefaults, ctx, fuel).Ok?
    ensures forall e | e in GetAttrs(st, id, follow, includeDefaults, ctx, fuel).value ::
      e.0.KStr? && e.0.s !in st[id].skip && FieldDefault(st[id].fields, e.0.s).Some?
      && (includeDefaults || !AttrValIsDefault(st, st[id], e.0.s, e.1))
    ensures forall name | name !in st[id].skip && FieldDefault(st[id].fields, name).Some? ::
      !follow && (includeDefaults || !AttrValIsDefault(st, st[id], name, st[id].body.attrs[name])) ==>
        (KStr(name), st[id].body.attrs[name]) in GetAttrs(st, id, follow, includeDefaults, ctx, fuel).value
  {
    var n := st[id];
    var names := VisibleNames(n.fields, n.skip);
    var kvs := ReadFields(st, id, names, follow, ctx, fuel).value;
    forall e | e in kvs
      ensures e.0.KStr? && e.0.s in names
    {
      var i :| 0 <= i < |kvs| && kvs[i] == e;
    }
    forall name | name !in n.skip && FieldDefault(n.fields, name).Some?
      ensures name in names
    {
      var i :| 0 <= i < |n.fields| && n.fields[i].name == name;
    }
    forall name | name in names && !follow
      ensures (KStr(name), n.body.attrs[name]) in kvs
    {
      var i :| 0 <= i < |names| && names[i] == name;
      assert kvs[i] == (KStr(name), n.body.attrs[name]);
    }
  }

  /** A primitive attribute value as it appears in a flattened dict. */
  function Prim(v: Value): Json
    requires !v.VNode?
  {
    match v
    case VNone => JNull
    case VBool(b) => JBool(b)
    case VInt(i) => JInt(i)
    case VFloat(f) => JFloat(f)
    case VStr(s) => JStr(s)
  }

  const ClassKey: Key := KStr("__class__")

  /** `to_dict(follow_references, include_defaults)`: a dataclass object
      becomes its `get_attrs` dict with nested objects flattened and
      `__class__` set to its class path; a `QuamDict` flattens its items
      with the default flags (the ones it is given are not passed on) and
      drops `__class__`; a `QuamList` becomes a list. */
  function ToDict(st: Store, id: Id, follow: bool, includeDefaults: bool, ctx: Ctx, fuel: nat)
    : (r: Result<Json>)
    requires Valid(st) && id in st && CtxIn(st, ctx)
    ensures r.Ok? && st[id].body.Attrs? ==> r.value.JObj? && ClassKey in r.value.fields && r.value.fields[ClassKey] == JStr(st[id].cls)
    ensures r.Ok? && st[id].body.Entries? ==> r.value.JObj? && ClassKey !in r.value.fields
    ensures r.Ok? && st[id].body.Items? ==> r.value.JList? && |r.value.items| == |st[id].body.items|
    decreases fuel, 2, 0
  {
    var n := st[id];
    match n.body
    case Items(items) =>
      assert forall v | v in items :: v in BodyValues(n.body);
      var js :- ValuesToJson(st, items, follow, includeDefaults, ctx, fuel);
      Ok(JList(js))
    case Entries(entries) =>
      assert forall e | e in entries :: e.1 in BodyValues(n.body);
      var m :- EntriesToJson(st, entries, false, false, ctx, fuel);
      Ok(JObj(m - {ClassKey}))
    case Attrs(_) =>
      var kvs :- GetAttrs(st, id, follow, includeDefaults, ctx, fuel);
      var m :- EntriesToJson(st, kvs, follow, includeDefaults, ctx, fuel);
      Ok(JObj(m[ClassKey := JStr(n.cls)]))
  }

  /** The dict built entry by entry; a later entry with the same key wins. */
  function EntriesToJson(st: Store, kvs: seq<(Key, Value)>, follow: bool, includeDefaults: bool, ctx: Ctx, fuel: nat)
    : (r: Result<map<Key, Json>>)
    requires Valid(st) && CtxIn(st, ctx) && forall e | e in kvs :: ValueIn(st, e.1)
    ensures r.Ok? ==> r.value.Keys == set e | e in kvs :: e.0
    decreases fuel, 1, |kvs|
  {
    if kvs == [] then Ok(map[])
    else
      var last := kvs[|kvs| - 1];
      var init := kvs[..|kvs| - 1];
      assert forall e | e in init :: e in kvs;
      assert forall i | 0 <= i < |init| :: init[i] == kvs[i];
      var m :- EntriesToJson(st, init, follow, includeDefaults, ctx, fuel);
      var j :- ValueToJson(st, last.1, follow, includeDefaults, ctx, fuel);
      assert (set e | e in kvs :: e.0) == (set e | e in kvs[..|kvs| - 1] :: e.0) + {last.0} by {
        assert kvs == init + [last];
      }
      Ok(m[last.0 := j])
  }

  function ValuesToJson(st: Store, vs: seq<Value>, follow: bool, includeDefaults: bool, ctx: Ctx, fuel: nat)
    : (r: Result<seq<Json>>)
    requires Valid(st) && CtxIn(st, ctx) && forall v | v in vs :: ValueIn(st, v)
    ensures r.Ok? <==> forall i | 0 <= i < |vs| :: ValueToJson(st, vs[i], follow, includeDefaults, ctx, fuel).Ok?
    ensures r.Ok? ==> |r.value| == |vs|
    ensures r.Ok? ==> forall i | 0 <= i < |vs| :: ValueToJson(st, vs[i], follow, includeDefaults, ctx, fuel) == Ok(r.value[i])
    decreases fuel, 1, |vs|
  {
    if vs == [] then Ok([])
    else
      var j :- ValueToJson(st, vs[0], follow, includeDefaults, ctx, fuel);
      var rest :- ValuesToJson(st, vs[1..], follow, includeDefaults, ctx, fuel);
      Ok([j] + rest)
  }

  /** One value of a flattened dict: objects recurse with the same flags,
      everything else is copied. */
  function ValueToJson(st: Store, v: Value, follow: bool, includeDefaults: bool, ctx: Ctx, fuel: nat)
    : (r: Result<Json>)
    requires Valid(st) && CtxIn(st, ctx) && ValueIn(st, v)
    ensures !v.VNode? ==> r == Ok(Prim(v))
    ensures v.VNode? && fuel > 0 ==> r == ToDict(st, v.id, follow, includeDefaults, ctx, fuel - 1)
    ensures v.VNode? && fuel == 0 ==> r == Err(RecursionError)
    decreases fuel, 0, 0
  {
    if !v.VNode? then Ok(Prim(v))
    else if fuel == 0 then Err(RecursionError)
    else ToDict(st, v.id, follow, includeDefaults, ctx, fuel - 1)
  }

  /** No entry after position `i` has the key of entry `i`. */
  predicate LastWithKey(kvs: seq<(Key, Value)>, i: nat)
    requires i < |kvs|
  {
    forall j | i < j < |kvs| :: kvs[j].0 != kvs[i].0
  }

  /** Each key of the built dict holds the converted value of the last
      entry with that key. */
  lemma {:induction false} EntriesToJsonValue(st: Store, kvs: seq<(Key, Value)>, follow: bool, includeDefaults: bool,
                                              ctx: Ctx, fuel: nat, i: nat)
    requires Valid(st) && CtxIn(st, ctx) && forall e | e in kvs :: ValueIn(st, e.1)
    requires EntriesToJson(st, kvs, follow, includeDefaults, ctx, fuel).Ok?
    requires i < |kvs| && LastWithKey(kvs, i)
    ensures kvs[i].0 in EntriesToJson(st, kvs, follow, includeDefaults, ctx, fuel).value
    ensures ValueToJson(st, kvs[i].1, follow, includeDefaults, ctx, fuel)
      == Ok(EntriesToJson(st, kvs, follow, includeDefaults, ctx, fuel).value[kvs[i].0])
    decreases |kvs|
  {
    var init := kvs[..|kvs| - 1];
    assert forall e | e in init :: e in kvs;
    if i < |kvs| - 1 {
      assert forall j | i < j < |init| :: init[j] == kvs[j];
      EntriesToJsonValue(st, init, follow, includeDefaults, ctx, fuel, i);
    }
  }

  /** What `to_dict` puts in the dict of a dataclass object: `__class__`
      and every reported attribute, each converted by `ValueToJson` (for
      a repeated key, the last entry's value). */
  lemma ToDictAttrs(st: Store, id: Id, follow: bool, includeDefaults: bool, ctx: Ctx, fuel: nat, i: nat)
    requires Valid(st) && id in st && CtxIn(st, ctx) && st[id].body.Attrs?
    requires ToDict(st, id, follow, includeDefaults, ctx, fuel).Ok?
    ensures GetAttrs(st, id, follow, includeDefaults, ctx, fuel).Ok?
    ensures ToDict(st, id, follow, includeDefaults, ctx, fuel).value.JObj?
    ensures ToDict(st, id, follow, includeDefaults, ctx, fuel).value.fields.Keys
      == (set e | e in GetAttrs(st, id, follow, includeDefaults, ctx, fuel).value :: e.0) + {ClassKey}
    ensures var kvs := GetAttrs(st, id, follow, includeDefaults, ctx, fuel).value;
      i < |kvs| && LastWithKey(kvs, i) && kvs[i].0 != ClassKey ==>
        ValueToJson(st, kvs[i].1, follow, includeDefaults, ctx, fuel)
          == Ok(ToDict(st, id, follow, includeDefaults, ctx, fuel).value.fields[kvs[i].0])
  {
    var kvs := GetAttrs(st, id, follow, includeDefaults, ctx, fuel).value;
    if i < |kvs| && LastWithKey(kvs, i) {
      assert kvs[i] in kvs;
      EntriesToJsonValue(st, kvs, follow, includeDefaults, ctx, fuel, i);
    }
  }

  /** What `to_dict` puts in the dict of a `QuamDict`: its items, each
      converted with the default flags, and no `__class__`. */
  lemma ToDictEntries(st: Store, id: Id, follow: bool, includeDefaults: bool, ctx: Ctx, fuel: nat, i: nat)
    requires Valid(st) && id in st && CtxIn(st, ctx) && st[id].body.Entries?
    requires ToDict(st, id, follow, includeDefaults, ctx, fuel).Ok?
    ensures ToDict(st, id, follow, includeDefaults, ctx, fuel).value.JObj?
    ensures ToDict(st, id, follow, includeDefaults, ctx, fuel).value.fields.Keys
      == (set e | e in st[id].body.entries :: e.0) - {ClassKey}
    ensures var kvs := st[id].body.entries;
      i < |kvs| && LastWithKey(kvs, i) && kvs[i].0 != ClassKey ==>
        ValueToJson(st, kvs[i].1, false, false, ctx, fuel)
          == Ok(ToDict(st, id, follow, includeDefaults, ctx, fuel).value.fields[kvs[i].0])
  {
    var kvs := st[id].body.entries;
    assert forall e | e in kvs :: e.1 in BodyValues(st[id].body);
    if i < |kvs| && LastWithKey(kvs, i) {
      assert kvs[i] in kvs;
      EntriesToJsonValue(st, kvs, false, false, ctx, fuel, i);
    }
  }

  /** What `to_dict` gives for a `QuamList`: its elements, each converted
      with the same flags, in order. */
  lemma ToDictItems(st: Store, id: Id, follow: bool, includeDefaults: bool, ctx: Ctx, fuel: nat)
    requires Valid(st) && id in st && CtxIn(st, ctx) && st[id].body.Items?
    requires ToDict(st, id, follow, includeDefaults, ctx, fuel).Ok?
    ensures ToDict(st, id, follow, includeDefaults, ctx, fuel).value.JList?
    ensures var items := st[id].body.items;
      forall i | 0 <= i < |items| :: ValueIn(st, items[i]) &&
        ValueToJson(st, items[i], follow, includeDefaults, ctx, fuel)
          == Ok(ToDict(st, id, follow, includeDefaults, ctx, fuel).value.items[i])
  {
    assert forall v | v in st[id].body.items :: v in BodyValues(st[id].body);
  }

  /** A `QuamDict` flattens the same way whatever flags it is given. */
  lemma DictIgnoresFlags(st: Store, id: Id, f1: bool, i1: bool, f2: bool, i2: bool, ctx: Ctx, fuel: nat)
    requires Valid(st) && id in st && CtxIn(st, ctx) && st[id].body.Entries?
    ensures ToDict(st, id, f1, i1, ctx, fuel) == ToDict(st, id, f2, i2, ctx, fuel)
  {
  }

  /** The values `iterate_components` descends into: a dataclass object's
      raw non-skipped fields, a dict's item values, a list's elements. */
  function ChildValues(st: Store, id: Id): (r: Result<seq<Value>>)
    requires Valid(st) && id in st
    ensures r.Ok? ==> forall v | v in r.value :: ValueIn(st, v)
  {
    var n := st[id];
    match n.body
    case Attrs(_) =>
      NoPropsWf();
      var kvs :- ReadFields(st, id, VisibleNames(n.fields, n.skip), false, Ctx(false, None, NoProps), 0);
      Ok(seq(|kvs|, i requires 0 <= i < |kvs| => kvs[i].1))
    case Entries(entries) =>
      assert forall e | e in entries :: e.1 in BodyValues(n.body);
      Ok(seq(|entries|, i requires 0 <= i < |entries| => entries[i].1))
    case Items(items) =>
      assert forall v | v in items :: v in BodyValues(n.body);
      Ok(items)
  }

  /** `iterate_components(skip_elems)`: the components yielded, in order,
      and `skip_elems` afterwards. A `QuamComponent` not yet skipped is
      yielded and added to `skip_elems` before its children are visited;
      a child already in `skip_elems` is passed over. */
  function IterateComponents(st: Store, id: Id, skip: seq<Id>, fuel: nat): (r: Result<(seq<Id>, seq<Id>)>)
    requires Valid(st) && id in st
    ensures r.Ok? ==> r.value.1 == skip + r.value.0
    ensures r.Ok? ==> forall y | y in r.value.0 :: y in st && st[y].kind.Component?
    ensures r.Ok? && Distinct(skip) ==> Distinct(r.value.1)
    ensures r.Ok? && st[id].kind.Component? && id !in skip ==> |r.value.0| > 0 && r.value.0[0] == id
    decreases fuel, 1, 0
  {
    var n := st[id];
    var first := if n.kind.Component? && id !in skip then [id] else [];
    var vals :- ChildValues(st, id);
    var rest :- IterateValues(st, vals, skip + first, fuel);
    assert skip + first + rest.0 == skip + (first + rest.0);
    Ok((first + rest.0, rest.1))
  }

  function IterateValues(st: Store, vals: seq<Value>, skip: seq<Id>, fuel: nat): (r: Result<(seq<Id>, seq<Id>)>)
    requires Valid(st) && forall v | v in vals :: ValueIn(st, v)
    ensures r.Ok? ==> r.value.1 == skip + r.value.0
    ensures r.Ok? ==> forall y | y in r.value.0 :: y in st && st[y].kind.Component?
    ensures r.Ok? && Distinct(skip) ==> Distinct(r.value.1)
    decreases fuel, 0, |vals|
  {
    if vals == [] then Ok(([], skip))
    else
      var v := vals[0];
      assert v in vals && ValueIn(st, v);
      var head :- if v.VNode? && v.id !in skip then
                    if fuel == 0 then Err(RecursionError) else IterateComponents(st, v.id, skip, fuel - 1)
                  else Ok(([], skip));
      assert forall w | w in vals[1..] :: w in vals;
      var tail :- IterateValues(st, vals[1..], head.1, fuel);
      assert skip + head.0 + tail.0 == skip + (head.0 + tail.0);
      Ok((head.0 + tail.0, tail.1))
  }

  /** `iterate_components` descends in field order: over `a + b`, the
      components found through `a` come first, and `b` is then visited
      with the skip list `a` left behind. */
  lemma {:induction false} IterateValuesConcat(st: Store, a: seq<Value>, b: seq<Value>, skip: seq<Id>, fuel: nat)
    requires Valid(st) && (forall v | v in a :: ValueIn(st, v)) && (forall v | v in b :: ValueIn(st, v))
    requires IterateValues(st, a + b, skip, fuel).Ok?
    ensures IterateValues(st, a, skip, fuel).Ok?
    ensures var ra := IterateValues(st, a, skip, fuel).value;
      IterateValues(st, b, ra.1, fuel).Ok? &&
      IterateValues(st, a + b, skip, fuel).value
        == (ra.0 + IterateValues(st, b, ra.1, fuel).value.0, IterateValues(st, b, ra.1, fuel).value.1)
    decreases |a|
  {
    if a == [] {
      assert a + b == b;
      assert IterateValues(st, a, skip, fuel) == Ok(([], skip));
      var rb := IterateValues(st, b, skip, fuel).value;
      assert [] + rb.0 == rb.0;
    } else {
      var v := a[0];
      assert v in a && ValueIn(st, v);
      assert (a + b)[0] == v && (a + b)[1..] == a[1..] + b;
      assert forall w | w in a[1..] :: w in a;
      var head := if v.VNode? && v.id !in skip then
                    if fuel == 0 then Err(RecursionError) else IterateComponents(st, v.id, skip, fuel - 1)
                  else Ok(([], skip));
      assert head.Ok?;
      IterateValuesConcat(st, a[1..], b, head.value.1, fuel);
      var r1 := IterateValues(st, a[1..], head.value.1, fuel).value;
      var rb := IterateValues(st, b, r1.1, fuel).value;
      assert IterateValues(st, a, skip, fuel) == Ok((head.value.0 + r1.0, r1.1));
      assert IterateValues(st, a + b, skip, fuel).value == (head.value.0 + (r1.0 + rb.0), rb.1);
      assert head.value.0 + (r1.0 + rb.0) == (head.value.0 + r1.0) + rb.0;
    }
  }
}

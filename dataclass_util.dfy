/** The dataclass helpers in `quam/utils/dataclass.py`: the required /
    optional partition of a class's annotated attributes, and the
    `REQUIRED` flag that lets a dataclass with required fields inherit from
    one with defaulted fields. Python reflection is replaced by an explicit
    description of what the helpers look at. */
module DataclassUtil {
  import opened Wrappers
  import opened JsonValue
  import opened TypeChecking

  /** A class-level value: the `REQUIRED` flag, or any other value. */
  datatype ClassAttr = RequiredFlag | Assigned(v: Json)

  /** A `dataclasses.Field`: its `default` (`None` for MISSING) and whether
      a `default_factory` is set. */
  datatype Field = Field(default: Option<ClassAttr>, hasFactory: bool)

  /** What `get_dataclass_attr_annotations(cls_or_obj)` inspects. */
  datatype Schema = Schema(
    /** `get_type_hints(cls_or_obj)`, in order */
    hints: seq<(string, TypeDesc)>,
    /** `getattr(cls_or_obj, name)` for every name it finds */
    lookup: map<string, ClassAttr>,
    /** `__dataclass_fields__`, empty for a class that is not a dataclass */
    dataclassFields: map<string, Field>)

  /** The names popped before partitioning. */
  const HiddenNames: set<string> := {"_root", "_references", "_skip_attrs", "parent"}

  datatype Category = Required | Optional

  /** The branch of the partition loop an annotated attribute takes: with
      the `REQUIRED` flag it is optional only if its field has a
      `default_factory`; any other class-level value makes it optional;
      without one, a field with a `default_factory` is optional; everything
      else is required. */
  function Classify(s: Schema, attr: string): (c: Category)
    ensures c == Optional <==>
      (attr in s.lookup && s.lookup[attr] != RequiredFlag)
      || (attr in s.dataclassFields && s.dataclassFields[attr].hasFactory)
  {
    if attr in s.lookup && s.lookup[attr] == RequiredFlag then
      if attr !in s.dataclassFields then Required
      else if s.dataclassFields[attr].hasFactory then Optional
      else Required
    else if attr in s.lookup then Optional
    else if attr in s.dataclassFields then
      if s.dataclassFields[attr].hasFactory then Optional else Required
    else Required
  }

  /** The result of `get_dataclass_attr_annotations`: name -> annotation. */
  datatype Annotations = Annotations(
    required: map<string, TypeDesc>,
    optional: map<string, TypeDesc>,
    allowed: map<string, TypeDesc>)

  /** The partition of the first hints: every name that is not hidden goes
      to `required` or `optional` according to `Classify`. */
  function Partition(s: Schema, hints: seq<(string, TypeDesc)>)
    : (r: (map<string, TypeDesc>, map<string, TypeDesc>))
    decreases |hints|
  {
    if hints == [] then (map[], map[])
    else
      var acc := Partition(s, hints[..|hints| - 1]);
      var (name, typ) := hints[|hints| - 1];
      if name in HiddenNames then acc
      else if Classify(s, name) == Required then (acc.0[name := typ], acc.1)
      else (acc.0, acc.1[name := typ])
  }

  /** `get_dataclass_attr_annotations(cls_or_obj)`, as a value. */
  function AttrAnnotations(s: Schema): (a: Annotations)
  {
    var p := Partition(s, s.hints);
    Annotations(p.0, p.1, p.0 + p.1)
  }

  predicate UniqueNames(hints: seq<(string, TypeDesc)>) {
    forall i, j | 0 <= i < j < |hints| :: hints[i].0 != hints[j].0
  }

  function Names(hints: seq<(string, TypeDesc)>): set<string> {
    set i | 0 <= i < |hints| :: hints[i].0
  }

  lemma NamesLast(hints: seq<(string, TypeDesc)>)
    requires hints != []
    ensures Names(hints) == Names(hints[..|hints| - 1]) + {hints[|hints| - 1].0}
  {
    var init := hints[..|hints| - 1];
    forall n ensures n in Names(hints) <==> n in Names(init) + {hints[|hints| - 1].0} {
      if n in Names(hints) {
        var i :| 0 <= i < |hints| && hints[i].0 == n;
        if i < |hints| - 1 { assert init[i].0 == n; }
      }
      if n in Names(init) {
        var i :| 0 <= i < |init| && init[i].0 == n;
        assert hints[i].0 == n;
      }
    }
  }

  /** The partition reports exactly the names that are not hidden, each in
      the part `Classify` chooses. */
  lemma {:induction false} PartitionKeys(s: Schema, hints: seq<(string, TypeDesc)>)
    ensures Partition(s, hints).0.Keys == set n | n in Names(hints) - HiddenNames && Classify(s, n) == Required
    ensures Partition(s, hints).1.Keys == set n | n in Names(hints) - HiddenNames && Classify(s, n) == Optional
    decreases |hints|
  {
    if hints != [] {
      PartitionKeys(s, hints[..|hints| - 1]);
      NamesLast(hints);
    }
  }

  /** Names being unique, as in a dict, each reported name carries its own
      annotation. */
  lemma {:induction false} PartitionTypes(s: Schema, hints: seq<(string, TypeDesc)>)
    requires UniqueNames(hints)
    ensures forall i | 0 <= i < |hints| && hints[i].0 in Partition(s, hints).0 ::
      Partition(s, hints).0[hints[i].0] == hints[i].1
    ensures forall i | 0 <= i < |hints| && hints[i].0 in Partition(s, hints).1 ::
      Partition(s, hints).1[hints[i].0] == hints[i].1
    decreases |hints|
  {
    if hints != [] {
      var init := hints[..|hints| - 1];
      PartitionTypes(s, init);
      var acc := Partition(s, init);
      var p := Partition(s, hints);
      forall i | 0 <= i < |init|
        ensures hints[i].0 in p.0 ==> p.0[hints[i].0] == hints[i].1
        ensures hints[i].0 in p.1 ==> p.1[hints[i].0] == hints[i].1
      {
        assert hints[i] == init[i];
        assert hints[i].0 != hints[|hints| - 1].0;
        assert hints[i].0 in p.0 ==> hints[i].0 in acc.0 && p.0[hints[i].0] == acc.0[hints[i].0];
        assert hints[i].0 in p.1 ==> hints[i].0 in acc.1 && p.1[hints[i].0] == acc.1[hints[i].0];
      }
      var (name, typ) := hints[|hints| - 1];
      PartitionKeys(s, init);
      assert name in HiddenNames ==> name !in p.0 && name !in p.1;
      assert name !in HiddenNames && Classify(s, name) == Required ==> p.0[name] == typ && name !in p.1;
      assert name !in HiddenNames && Classify(s, name) == Optional ==> p.1[name] == typ && name !in p.0;
    }
  }

  /** Every annotated attribute that is not hidden lands in exactly one of
      `required` and `optional`; `allowed` is their union; the hidden names
      are never reported. */
  lemma AnnotationsPartition(s: Schema)
    requires UniqueNames(s.hints)
    ensures AttrAnnotations(s).allowed.Keys == Names(s.hints) - HiddenNames
    ensures AttrAnnotations(s).required.Keys !! AttrAnnotations(s).optional.Keys
    ensures AttrAnnotations(s).allowed.Keys == AttrAnnotations(s).required.Keys + AttrAnnotations(s).optional.Keys
    ensures forall n | n in AttrAnnotations(s).required :: Classify(s, n) == Required
    ensures forall n | n in AttrAnnotations(s).optional :: Classify(s, n) == Optional
    ensures forall i | 0 <= i < |s.hints| && s.hints[i].0 !in HiddenNames ::
      AttrAnnotations(s).allowed[s.hints[i].0] == s.hints[i].1
  {
    PartitionKeys(s, s.hints);
    PartitionTypes(s, s.hints);
    var a := AttrAnnotations(s);
    forall i | 0 <= i < |s.hints| && s.hints[i].0 !in HiddenNames
      ensures a.allowed[s.hints[i].0] == s.hints[i].1
    {
      assert s.hints[i].0 in Names(s.hints);
    }
  }

  /** The loop of `get_dataclass_attr_annotations`: the hidden names are
      dropped, every other annotated attribute is filed under `required` or
      `optional`, and `allowed` merges the two. */
  method GetDataclassAttrAnnotations(s: Schema) returns (a: Annotations)
    ensures a == AttrAnnotations(s)
    ensures a.allowed == a.required + a.optional
    ensures a.required.Keys + a.optional.Keys <= Names(s.hints) - HiddenNames
  {
    var required: map<string, TypeDesc> := map[];
    var optional: map<string, TypeDesc> := map[];
    var i := 0;
    while i < |s.hints|
      invariant 0 <= i <= |s.hints|
      invariant (required, optional) == Partition(s, s.hints[..i])
      invariant required.Keys + optional.Keys <= Names(s.hints[..i]) - HiddenNames
    {
      var (attr, attrType) := s.hints[i];
      assert s.hints[..i + 1][..i] == s.hints[..i];
      assert s.hints[..i + 1][i] == (attr, attrType);
      NamesLast(s.hints[..i + 1]);
      if attr !in HiddenNames {
        if attr in s.lookup && s.lookup[attr] == RequiredFlag {
          if attr !in s.dataclassFields {
            required := required[attr := attrType];
          } else if s.dataclassFields[attr].hasFactory {
            optional := optional[attr := attrType];
          } else {
            required := required[attr := attrType];
          }
        } else if attr in s.lookup {
          optional := optional[attr := attrType];
        } else if attr in s.dataclassFields {
          if s.dataclassFields[attr].hasFactory {
            optional := optional[attr := attrType];
          } else {
            required := required[attr := attrType];
          }
        } else {
          required := required[attr := attrType];
        }
      }
      i := i + 1;
    }
    assert s.hints[..i] == s.hints;
    a := Annotations(required, optional, required + optional);
  }

  /** `dataclass_field_has_default(field)`. */
  function FieldHasDefault(f: Field): (r: bool)
    ensures r <==> f.default.Some? || f.hasFactory
  {
    if f.default.Some? then true
    else if f.hasFactory then true
    else false
  }

  /** `dataclass_has_default_fields(cls)`. */
  predicate HasDefaultFields(fields: seq<Field>) {
    exists i | 0 <= i < |fields| :: FieldHasDefault(fields[i])
  }

  /** What `handle_inherited_required_fields` does to a class namespace:
      when the class is a dataclass (by inheritance) with a defaulted field,
      each of its own annotated attributes without a value gets `REQUIRED`. */
  function FlagRequired(annotations: seq<string>, ns: map<string, ClassAttr>, fields: Option<seq<Field>>)
    : (r: map<string, ClassAttr>)
    ensures ns.Keys <= r.Keys && forall k | k in ns :: r[k] == ns[k]
    ensures forall k | k in r && k !in ns :: r[k] == RequiredFlag && k in annotations
    ensures fields.Some? && HasDefaultFields(fields.value) ==>
      forall i | 0 <= i < |annotations| :: annotations[i] in r
    ensures fields.None? || !HasDefaultFields(fields.value) ==> r == ns
  {
    if fields.None? || !HasDefaultFields(fields.value) then ns
    else
      var flags := map a | a in annotations && a !in ns :: RequiredFlag;
      ns + flags
  }

  /** Flagging twice flags nothing more. */
  lemma FlagRequiredIdempotent(annotations: seq<string>, ns: map<string, ClassAttr>, fields: Option<seq<Field>>)
    ensures FlagRequired(annotations, FlagRequired(annotations, ns, fields), fields) == FlagRequired(annotations, ns, fields)
  {
  }

  /** `dataclass_has_default_fields(cls)`, over the inherited fields. */
  method DataclassHasDefaultFields(fields: seq<Field>) returns (b: bool)
    ensures b == HasDefaultFields(fields)
  {
    b := false;
    var j := 0;
    while j < |fields|
      invariant 0 <= j <= |fields|
      invariant b <==> exists k | 0 <= k < j :: FieldHasDefault(fields[k])
    {
      b := b || FieldHasDefault(fields[j]);
      j := j + 1;
    }
  }

  /** The annotated attributes, in order, that the namespace gives no value. */
  method Unassigned(annotations: seq<string>, ns: map<string, ClassAttr>) returns (attrs: seq<string>)
    ensures forall a :: a in attrs <==> a in annotations && a !in ns
  {
    attrs := [];
    var i := 0;
    while i < |annotations|
      invariant 0 <= i <= |annotations|
      invariant forall a :: a in attrs <==> a in annotations[..i] && a !in ns
    {
      if annotations[i] !in ns {
        attrs := attrs + [annotations[i]];
      }
      assert annotations[..i + 1] == annotations[..i] + [annotations[i]];
      i := i + 1;
    }
    assert annotations[..i] == annotations;
  }

  /** A class being decorated by `quam_dataclass`: its own `__annotations__`
      (in order), its own namespace `__dict__`, and the dataclass fields it
      inherits (`None` when `is_dataclass(cls)` is false). */
  class ClassDef {
    const annotations: seq<string>
    var namespace: map<string, ClassAttr>
    const fields: Option<seq<Field>>

    constructor (annotations: seq<string>, namespace: map<string, ClassAttr>, fields: Option<seq<Field>>)
      ensures this.annotations == annotations && this.namespace == namespace && this.fields == fields
    {
      this.annotations := annotations;
      this.namespace := namespace;
      this.fields := fields;
    }

    /** `handle_inherited_required_fields(cls)`: `setattr(cls, attr, REQUIRED)`
        for each own annotated attribute missing from the namespace, when
        the class is a dataclass with a defaulted field. */
    method HandleInheritedRequiredFields()
      modifies this
      ensures namespace == FlagRequired(annotations, old(namespace), fields)
    {
      if fields.None? {
        return;
      }
      var fieldsRequired := DataclassHasDefaultFields(fields.value);
      if !fieldsRequired {
        return;
      }
      var requiredAttrs := Unassigned(annotations, namespace);
      ghost var before := namespace;
      var k := 0;
      while k < |requiredAttrs|
        invariant 0 <= k <= |requiredAttrs|
        invariant forall a :: a in namespace <==> a in before || a in requiredAttrs[..k]
        invariant forall a | a in namespace :: namespace[a] == if a in before then before[a] else RequiredFlag
      {
        assert requiredAttrs[..k + 1] == requiredAttrs[..k] + [requiredAttrs[k]];
        namespace := namespace[requiredAttrs[k] := RequiredFlag];
        k := k + 1;
      }
      assert requiredAttrs[..k] == requiredAttrs;
      FlaggedNamespace(annotations, before, namespace, requiredAttrs);
    }
  }

  /** The namespace after the flagging loop is the one `FlagRequired`
      describes. */
  lemma FlaggedNamespace(annotations: seq<string>, before: map<string, ClassAttr>,
                         after: map<string, ClassAttr>, attrs: seq<string>)
    requires forall a :: a in attrs <==> a in annotations && a !in before
    requires forall a :: a in after <==> a in before || a in attrs
    requires forall a | a in after :: after[a] == if a in before then before[a] else RequiredFlag
    ensures after == before + map a | a in annotations && a !in before :: RequiredFlag
  {
    var flags := map a | a in annotations && a !in before :: RequiredFlag;
    assert after.Keys == (before + flags).Keys;
  }

  /** Some field of the object still holds `REQUIRED`. */
  predicate RequiredLeft(fieldNames: seq<string>, attrs: map<string, ClassAttr>) {
    exists i | 0 <= i < |fieldNames| :: fieldNames[i] in attrs && attrs[fieldNames[i]] == RequiredFlag
  }

  /** The check in the `__post_init__` that `quam_dataclass` installs:
      `TypeError` when a field still holds `REQUIRED`; otherwise the
      original `__post_init__` runs next. */
  method RequiredCheck(fieldNames: seq<string>, attrs: map<string, ClassAttr>) returns (r: Result<()>)
    ensures r.Err? <==> RequiredLeft(fieldNames, attrs)
    ensures r.Err? ==> r.error == TypeError
  {
    var i := 0;
    while i < |fieldNames|
      invariant 0 <= i <= |fieldNames|
      invariant forall j | 0 <= j < i :: !(fieldNames[j] in attrs && attrs[fieldNames[j]] == RequiredFlag)
    {
      if fieldNames[i] in attrs && attrs[fieldNames[i]] == RequiredFlag {
        return Err(TypeError);
      }
      i := i + 1;
    }
    return Ok(());
  }

  /** The instance attributes the dataclass `__init__` sets: the keyword
      argument where one is given, otherwise the field's default. */
  function InitAttrs(fieldNames: seq<string>, defaults: map<string, ClassAttr>, kwargs: map<string, Json>)
    : (r: map<string, ClassAttr>)
    ensures forall n | n in kwargs && n in fieldNames :: n in r && r[n] == Assigned(kwargs[n])
    ensures forall n | n !in kwargs && n in fieldNames && n in defaults :: n in r && r[n] == defaults[n]
  {
    map n | n in fieldNames && (n in kwargs || n in defaults) ::
      if n in kwargs then Assigned(kwargs[n]) else defaults[n]
  }

  /** The point of the flag: once `handle_inherited_required_fields` has
      flagged a field of a class with defaulted fields, constructing the
      object without that argument leaves `REQUIRED` in place and the
      post-init check raises. */
  lemma {:induction false} OmittedRequiredRaises(
    annotations: seq<string>, ns: map<string, ClassAttr>, inherited: seq<Field>,
    fieldNames: seq<string>, kwargs: map<string, Json>, i: nat)
    requires HasDefaultFields(inherited)
    requires i < |annotations| && annotations[i] !in ns
    requires annotations[i] in fieldNames && annotations[i] !in kwargs
    ensures RequiredLeft(fieldNames, InitAttrs(fieldNames, FlagRequired(annotations, ns, Some(inherited)), kwargs))
  {
    var flagged := FlagRequired(annotations, ns, Some(inherited));
    var attrs := InitAttrs(fieldNames, flagged, kwargs);
    var a := annotations[i];
    assert flagged[a] == RequiredFlag;
    var j :| 0 <= j < |fieldNames| && fieldNames[j] == a;
    assert attrs[fieldNames[j]] == RequiredFlag;
  }
}

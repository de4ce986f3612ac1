/** The two config migrations of `quam/config/cli/migrations/`: each one adds
    (forward) or removes (backward) one boolean field of the `quam` section
    and moves its `version` between two consecutive numbers. */
module Migrations {
  import opened Wrappers
  import opened JsonValue

  const QuamKey: Key := KStr("quam")
  const VersionKey: Key := KStr("version")

  /** One `Migrate` class: the field it introduces and its two versions. */
  datatype Migration = Migration(field: Key, fromVersion: int, toVersion: int)

  /** `v1_v2.Migrate`. */
  const V1V2: Migration := Migration(KStr("raise_error_missing_reference"), 1, 2)
  /** `v2_v3.Migrate`. */
  const V2V3: Migration := Migration(KStr("include_defaults_in_save"), 2, 3)

  /** Python's `v == n` for an int `n`: ints and floats by value, and
      `True`/`False` as 1/0. */
  predicate NumEq(v: Json, n: int) {
    match v
    case JInt(i) => i == n
    case JFloat(f) => f == n as real
    case JBool(b) => (if b then 1 else 0) == n
    case _ => false
  }

  /** `forward(data)`: the value returned. `quam` must be present (`KeyError`
      from the pop) and a dict (item assignment on anything else is a
      `TypeError`). */
  function Forward(m: Migration, data: Obj): (r: Result<Obj>)
    ensures r.Ok? <==> QuamKey in data && data[QuamKey].JObj?
    ensures QuamKey !in data ==> r == Err(KeyError)
    ensures r.Err? && QuamKey in data ==> r.error == TypeError
    ensures r.Ok? ==>
      r.value.Keys == data.Keys
      && (forall k :: k in data && k != QuamKey ==> r.value[k] == data[k])
      && r.value[QuamKey].JObj?
      && r.value[QuamKey].fields.Keys == data[QuamKey].fields.Keys + {m.field, VersionKey}
      && (forall k :: k in data[QuamKey].fields && k != m.field && k != VersionKey ==>
            r.value[QuamKey].fields[k] == data[QuamKey].fields[k])
  {
    if QuamKey !in data then Err(KeyError)
    else match data[QuamKey]
      case JObj(q) =>
        var q1 := q[m.field := JBool(false)][VersionKey := JInt(m.toVersion)];
        Ok((data - {QuamKey})[QuamKey := JObj(q1)])
      case _ => Err(TypeError)
  }

  /** After `forward` the section carries the new field, set to `False`,
      and the target version. */
  lemma ForwardSetsFieldAndVersion(m: Migration, data: Obj)
    requires m.field != VersionKey
    requires Forward(m, data).Ok?
    ensures Forward(m, data).value[QuamKey].fields[m.field] == JBool(false)
    ensures Forward(m, data).value[QuamKey].fields[VersionKey] == JInt(m.toVersion)
  {
  }

  /** `backward(data)`: the value returned. `quam` must be present
      (`KeyError`) and support `.get` (`AttributeError`); its version,
      defaulting to the target version, must equal the target version
      (`AssertionError`); the field must be present (`KeyError`). */
  function Backward(m: Migration, data: Obj): (r: Result<Obj>)
    ensures r.Ok? <==>
              (QuamKey in data && data[QuamKey].JObj?
               && (VersionKey in data[QuamKey].fields ==> NumEq(data[QuamKey].fields[VersionKey], m.toVersion))
               && m.field in data[QuamKey].fields)
    ensures QuamKey !in data ==> r == Err(KeyError)
    ensures QuamKey in data && !data[QuamKey].JObj? ==> r == Err(AttributeError)
    ensures (QuamKey in data && data[QuamKey].JObj? && VersionKey in data[QuamKey].fields
             && !NumEq(data[QuamKey].fields[VersionKey], m.toVersion)) ==> r == Err(AssertionError)
    ensures r.Ok? ==>
      r.value.Keys == data.Keys
      && (forall k :: k in data && k != QuamKey ==> r.value[k] == data[k])
      && r.value[QuamKey].JObj?
      && (m.field != VersionKey ==> m.field !in r.value[QuamKey].fields)
    ensures r.Ok? ==>
      && r.value[QuamKey].fields.Keys == data[QuamKey].fields.Keys - {m.field} + {VersionKey}
      && r.value[QuamKey].fields[VersionKey] == JInt(m.fromVersion)
      && forall k | k in data[QuamKey].fields && k != m.field && k != VersionKey :: r.value[QuamKey].fields[k] == data[QuamKey].fields[k]
  {
    if QuamKey !in data then Err(KeyError)
    else match data[QuamKey]
      case JObj(q) =>
        var version := if VersionKey in q then q[VersionKey] else JInt(m.toVersion);
        if !NumEq(version, m.toVersion) then Err(AssertionError)
        else if m.field !in q then Err(KeyError)
        else
          var q1 := (q - {m.field})[VersionKey := JInt(m.fromVersion)];
          Ok((data - {QuamKey})[QuamKey := JObj(q1)])
      case _ => Err(AttributeError)
  }

  /** A section at the source version that lacks the field: migrating
      forward and back gives the original config. */
  lemma BackwardAfterForward(m: Migration, data: Obj)
    requires m.field != VersionKey
    requires QuamKey in data && data[QuamKey].JObj?
    requires m.field !in data[QuamKey].fields
    requires VersionKey in data[QuamKey].fields && data[QuamKey].fields[VersionKey] == JInt(m.fromVersion)
    ensures Forward(m, data).Ok?
    ensures Backward(m, Forward(m, data).value) == Ok(data)
  {
    var q := data[QuamKey].fields;
    var f := Forward(m, data).value;
    var q1 := f[QuamKey].fields;
    assert NumEq(q1[VersionKey], m.toVersion);
    var q2 := (q1 - {m.field})[VersionKey := JInt(m.fromVersion)];
    assert q2 == q;
    assert (f - {QuamKey})[QuamKey := JObj(q2)] == data;
  }

  /** A section at the target version whose field is `False`: migrating
      backward and forward again gives the original config. */
  lemma ForwardAfterBackward(m: Migration, data: Obj)
    requires m.field != VersionKey
    requires QuamKey in data && data[QuamKey].JObj?
    requires m.field in data[QuamKey].fields && data[QuamKey].fields[m.field] == JBool(false)
    requires VersionKey in data[QuamKey].fields && data[QuamKey].fields[VersionKey] == JInt(m.toVersion)
    ensures Backward(m, data).Ok?
    ensures Forward(m, Backward(m, data).value) == Ok(data)
  {
    var q := data[QuamKey].fields;
    var b := Backward(m, data).value;
    var q1 := b[QuamKey].fields;
    var q2 := q1[m.field := JBool(false)][VersionKey := JInt(m.toVersion)];
    assert q2 == q;
    assert (b - {QuamKey})[QuamKey := JObj(q2)] == data;
  }

  /** A config without a version in its section is taken to be at the
      target version by `backward`. */
  lemma BackwardDefaultsVersion(m: Migration, data: Obj)
    requires QuamKey in data && data[QuamKey].JObj?
    requires VersionKey !in data[QuamKey].fields && m.field in data[QuamKey].fields
    ensures Backward(m, data).Ok?
    ensures Backward(m, data).value[QuamKey].fields[VersionKey] == JInt(m.fromVersion)
  {
  }

  /** `Migrate.forward(data)`: pops `quam` from the caller's dict, which
      loses it even though the result has it again. */
  method MigrateForward(m: Migration, data: Dict) returns (r: Result<Obj>)
    modifies data
    ensures r == Forward(m, old(data.data))
    ensures data.data == old(data.data) - {QuamKey}
  {
    var popped := data.Pop(QuamKey);
    if popped.Err? {
      return Err(popped.error);
    }
    match popped.value
    case JObj(q) =>
      var newQuam := q[m.field := JBool(false)];
      newQuam := newQuam[VersionKey := JInt(m.toVersion)];
      r := Ok(data.data[QuamKey := JObj(newQuam)]);
    case _ =>
      r := Err(TypeError);
  }

  /** `Migrate.backward(data)`: pops `quam` from the caller's dict before
      any of its checks, so the caller's dict loses it on every path. */
  method MigrateBackward(m: Migration, data: Dict) returns (r: Result<Obj>)
    modifies data
    ensures r == Backward(m, old(data.data))
    ensures data.data == old(data.data) - {QuamKey}
  {
    var popped := data.Pop(QuamKey);
    if popped.Err? {
      return Err(popped.error);
    }
    match popped.value
    case JObj(q) =>
      var version := if VersionKey in q then q[VersionKey] else JInt(m.toVersion);
      if !NumEq(version, m.toVersion) {
        return Err(AssertionError);
      }
      if m.field !in q {
        return Err(KeyError);
      }
      var newQuam := q - {m.field};
      newQuam := newQuam[VersionKey := JInt(m.fromVersion)];
      r := Ok(data.data[QuamKey := JObj(newQuam)]);
    case _ =>
      r := Err(AttributeError);
  }
}

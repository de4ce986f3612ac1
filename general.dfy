/** `quam/utils/general.py`: class paths and the type validation used during
    instantiation. Importing a module is replaced by a registry of the
    importable modules and classes; `typeguard.check_type` by a predicate
    passed in. */
module General {
  import opened Wrappers
  import opened Strings
  import opened JsonValue
  import opened TypeChecking
  import opened DataclassUtil

  /** A class object: where it is defined, whether it subclasses
      `QuamComponent`, and what `get_dataclass_attr_annotations` sees on it. */
  datatype PyClass = PyClass(moduleName: Option<string>, qualname: string, quamComponent: bool, schema: Schema)

  /** The importable modules, and the classes by full path. */
  datatype Registry = Registry(modules: set<string>, classes: map<string, PyClass>)

  /** `get_full_class_path(cls)`: `module.qualname`, or only the qualname
      for a class defined in `__main__` or without a module. */
  function GetFullClassPath(c: PyClass): (r: string)
    ensures c.moduleName.None? || c.moduleName.value == "__main__" ==> r == c.qualname
    ensures c.moduleName.Some? && c.moduleName.value != "__main__" ==>
      r == c.moduleName.value + "." + c.qualname
  {
    match c.moduleName
    case None => c.qualname
    case Some(m) => if m == "__main__" then c.qualname else m + "." + c.qualname
  }

  /** `class_str.rsplit(".", 1)` unpacked into two names: `ValueError` when
      there is no dot. */
  function SplitClassPath(s: string): (r: Result<(string, string)>)
    ensures r.Err? <==> '.' !in s
    ensures r.Err? ==> r.error == ValueError
    ensures r.Ok? ==> s == r.value.0 + "." + r.value.1 && '.' !in r.value.1
  {
    match RFind(s, '.')
    case None => Err(ValueError)
    case Some(k) =>
      assert s == s[..k] + "." + s[k + 1..];
      Ok((s[..k], s[k + 1..]))
  }

  /** The split undoes `get_full_class_path` for a class with a module
      whose qualname has no dot (a class that is not nested). */
  lemma {:induction false} ClassPathRoundTrip(c: PyClass)
    requires c.moduleName.Some? && c.moduleName.value != "__main__"
    requires '.' !in c.qualname
    ensures SplitClassPath(GetFullClassPath(c)) == Ok((c.moduleName.value, c.qualname))
  {
    var s := GetFullClassPath(c);
    var m := c.moduleName.value;
    var r := SplitClassPath(s);
    assert s[|m|] == '.';
    assert r.Ok?;
    var (a, b) := r.value;
    assert s == a + "." + b;
    assert a == s[..|a|] == m;
    assert b == s[|a| + 1..] == c.qualname;
  }

  /** `get_class_from_path(class_str)`: the path is split at its last dot;
      an unknown module is an `ImportError` and a class missing from a known
      module an `AttributeError`. */
  function GetClassFromPath(reg: Registry, s: string): (r: Result<PyClass>)
    ensures '.' !in s ==> r == Err(ValueError)
    ensures r.Ok? ==> s in reg.classes && r.value == reg.classes[s]
    ensures SplitClassPath(s).Ok? && SplitClassPath(s).value.0 !in reg.modules ==> r == Err(ImportError)
    ensures SplitClassPath(s).Ok? && SplitClassPath(s).value.0 in reg.modules && s in reg.classes ==>
      r == Ok(reg.classes[s])
  {
    var (modulePath, className) :- SplitClassPath(s);
    if modulePath !in reg.modules then Err(ImportError)
    else if s !in reg.classes then Err(AttributeError)
    else Ok(reg.classes[s])
  }

  /** `validate_obj_type(elem, required_type, allow_none)`: a reference
      string is never checked; `None` passes when allowed; otherwise a
      value that `check_type` rejects is a `TypeError`. */
  function ValidateObjType(elem: Inst, requiredType: TypeDesc, allowNone: bool, check: (Inst, TypeDesc) -> bool)
    : (r: Result<()>)
    ensures IsRef(elem) ==> r.Ok?
    ensures elem == Plain(JNull) && allowNone ==> r.Ok?
    ensures r.Err? <==> !IsRef(elem) && !(elem == Plain(JNull) && allowNone) && !check(elem, requiredType)
    ensures r.Err? ==> r.error == TypeError
  {
    if IsRef(elem) then Ok(())
    else if elem == Plain(JNull) && allowNone then Ok(())
    else if check(elem, requiredType) then Ok(())
    else Err(TypeError)
  }
}

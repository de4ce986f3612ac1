/** `FunctionProperties.from_function`: reads an operation's signature.
    The first parameter is the quantum component the operation acts on;
    the others are split into required arguments (no default) and optional
    arguments (with their defaults). */
module FunctionProperties {
  import opened Wrappers
  import opened Values

  /** What `issubclass(hint, QuantumComponent)` makes of the first
      parameter's type hint. */
  datatype Hint =
    | NoHint
    | ComponentClass(cls: string)
    | OtherClass(cls: string)
    /** a hint that is not a class (such as `List[int]`): `issubclass`
        raises `TypeError` */
    | NotAClass

  /** One parameter of the signature; `default == None` is
      `inspect.Parameter.empty`. */
  datatype Param = Param(name: string, hint: Hint, default: Option<Value>)

  datatype Properties = Properties(
    componentName: string,
    componentType: string,
    name: string,
    requiredArgs: seq<string>,
    optionalArgs: map<string, Value>)

  /** The names of the parameters without a default, in signature order. */
  function RequiredNames(ps: seq<Param>): (r: seq<string>)
    ensures |r| <= |ps|
    ensures forall i | 0 <= i < |r| :: exists j | 0 <= j < |ps| :: ps[j].name == r[i] && ps[j].default.None?
    ensures forall j | 0 <= j < |ps| && ps[j].default.None? :: ps[j].name in r
  {
    if ps == [] then []
    else
      var init := ps[..|ps| - 1];
      var last := ps[|ps| - 1];
      var before := RequiredNames(init);
      assert forall j | 0 <= j < |init| :: init[j] == ps[j];
      before + (if last.default.None? then [last.name] else [])
  }

  /** The parameters with a default, as the dict the loop builds. */
  function OptionalDefaults(ps: seq<Param>): (r: map<string, Value>)
  {
    if ps == [] then map[]
    else
      var last := ps[|ps| - 1];
      var before := OptionalDefaults(ps[..|ps| - 1]);
      if last.default.Some? then before[last.name := last.default.value] else before
  }

  /** Every optional argument is a parameter, with that parameter's
      default. */
  lemma {:induction false} OptionalDefaultsFromParams(ps: seq<Param>)
    ensures forall n :: n in OptionalDefaults(ps) ==>
      exists i :: 0 <= i < |ps| && ps[i].name == n && ps[i].default == Some(OptionalDefaults(ps)[n])
  {
    if ps != [] {
      var init := ps[..|ps| - 1];
      OptionalDefaultsFromParams(init);
      assert forall i :: 0 <= i < |init| ==> init[i] == ps[i];
    }
  }

  /** `from_function(func)` for a function named `funcName` with the
      parameters `ps`. */
  method FromFunction(funcName: string, ps: seq<Param>) returns (r: Result<Properties>)
    ensures ps == [] ==> r == Err(ValueError)
    ensures ps != [] && ps[0].hint.NotAClass? ==> r == Err(TypeError)
    ensures ps != [] && (ps[0].hint.NoHint? || ps[0].hint.OtherClass?) ==> r == Err(ValueError)
    ensures r.Ok? <==> ps != [] && ps[0].hint.ComponentClass?
    ensures r.Ok? ==> r.value == Properties(ps[0].name, ps[0].hint.cls, funcName,
                                            RequiredNames(ps[1..]), OptionalDefaults(ps[1..]))
  {
    if |ps| == 0 {
      return Err(ValueError);
    }
    var first := ps[0];
    if first.hint.NotAClass? {
      return Err(TypeError);
    }
    if !first.hint.ComponentClass? {
      return Err(ValueError);
    }
    var required: seq<string> := [];
    var optional: map<string, Value> := map[];
    var i := 1;
    while i < |ps|
      invariant 1 <= i <= |ps|
      invariant required == RequiredNames(ps[1..i])
      invariant optional == OptionalDefaults(ps[1..i])
    {
      assert ps[1..i + 1][..i - 1] == ps[1..i] && ps[1..i + 1][i - 1] == ps[i];
      var p := ps[i];
      if p.default.None? {
        required := required + [p.name];
      } else {
        optional := optional[p.name := p.default.value];
      }
      i := i + 1;
    }
    assert ps[1..i] == ps[1..];
    r := Ok(Properties(first.name, first.hint.cls, funcName, required, optional));
  }

  /** Python parameter names are unique within a signature. */
  predicate UniqueNames(ps: seq<Param>) {
    forall i, j | 0 <= i < j < |ps| :: ps[i].name != ps[j].name
  }

  /** Every parameter lands in exactly one of the two collections: the
      required names when it has no default, the optional dict (with its
      default) when it has one. */
  lemma {:induction false} Partition(ps: seq<Param>, i: nat)
    requires UniqueNames(ps) && i < |ps|
    ensures ps[i].default.None? ==> ps[i].name in RequiredNames(ps) && ps[i].name !in OptionalDefaults(ps)
    ensures ps[i].default.Some? ==>
      (ps[i].name !in RequiredNames(ps) && ps[i].name in OptionalDefaults(ps)
       && OptionalDefaults(ps)[ps[i].name] == ps[i].default.value)
  {
    var init := ps[..|ps| - 1];
    var last := ps[|ps| - 1];
    assert UniqueNames(init);
    if i == |ps| - 1 {
      NotIn(init, last.name);
    } else {
      Partition(init, i);
      assert init[i] == ps[i];
      assert ps[i].name != last.name;
    }
  }

  /** A name no parameter has appears in neither collection. */
  lemma {:induction false} NotIn(ps: seq<Param>, n: string)
    requires forall i :: 0 <= i < |ps| ==> ps[i].name != n
    ensures n !in RequiredNames(ps) && n !in OptionalDefaults(ps)
  {
    if ps != [] {
      NotIn(ps[..|ps| - 1], n);
    }
  }

  /** As many names are collected as there are parameters. */
  lemma {:induction false} PartitionCount(ps: seq<Param>)
    requires UniqueNames(ps)
    ensures |RequiredNames(ps)| + |OptionalDefaults(ps)| == |ps|
  {
    if ps != [] {
      var init := ps[..|ps| - 1];
      var last := ps[|ps| - 1];
      assert UniqueNames(init);
      PartitionCount(init);
      NotIn(init, last.name);
    }
  }
}

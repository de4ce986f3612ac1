/** Type annotations and instantiated values as the instantiation code
    inspects them (`get_type_hints`, `typing.get_origin` / `get_args`). */
module TypeChecking {
  import opened JsonValue
  import opened StringReference

  /** The builtin classes that may appear in a `Union` being instantiated. */
  datatype Prim = PStr | PInt | PFloat | PBool | PNone

  /** An annotation. Subscripted generics keep their origin and arguments;
      a bare class (including plain `dict` and `list`) has no origin. */
  datatype TypeDesc =
    | TAny
    | TPrim(p: Prim)
    /** any other class; `quamComponent` is `issubclass(cls, QuamComponent)` */
    | TClass(path: string, quamComponent: bool)
    /** `Dict[K, V]`: origin `dict` */
    | TDict(key: TypeDesc, value: TypeDesc)
    /** `List[T]`: origin `list` */
    | TList(elem: TypeDesc)
    /** `Tuple[...]`: origin `tuple` */
    | TTuple(args: seq<TypeDesc>)
    /** `Union[...]` and `Optional[T]`: origin `typing.Union` */
    | TUnion(args: seq<TypeDesc>)
    /** any other subscripted type (`Literal[...]`, `Sequence[T]`, `X | Y`) */
    | TGeneric(origin: string, args: seq<TypeDesc>)

  /** `hasattr(type_, "__origin__")` */
  predicate HasOrigin(t: TypeDesc) {
    t.TDict? || t.TList? || t.TTuple? || t.TUnion? || t.TGeneric?
  }

  /** `type_is_optional(type_)`: a `Union` of exactly two types whose second
      is `NoneType`, so `Union[None, int]` and `Optional[Union[str, int]]`
      are not optional. */
  function TypeIsOptional(t: TypeDesc): (r: bool)
    ensures r <==> exists u :: t == TUnion([u, TPrim(PNone)])
    ensures !HasOrigin(t) ==> !r
  {
    if !HasOrigin(t) then false
    else if !t.TUnion? then false
    else if |t.args| != 2 then false
    else if t.args[1] != TPrim(PNone) then false
    else
      assert t == TUnion([t.args[0], TPrim(PNone)]);
      true
  }

  /** A value produced by instantiation. */
  datatype Inst =
    /** a value kept as loaded: a primitive, a reference string, a tuple, or
        a dict / list that was not rebuilt */
    | Plain(j: Json)
    /** a dict rebuilt entry by entry */
    | IDict(entries: map<Key, Inst>)
    /** a list rebuilt element by element */
    | IList(items: seq<Inst>)
    /** a constructed quam object: its class path, the keyword arguments
        it was constructed with, and the extra attributes set afterwards */
    | IObj(cls: string, kwargs: map<string, Inst>, extras: map<Key, Inst>)

  /** `string_reference.is_reference(elem)` */
  predicate IsRef(x: Inst) {
    x.Plain? && x.j.JStr? && IsReferenceStr(x.j.s)
  }
}

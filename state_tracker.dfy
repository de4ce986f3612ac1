/** `StateTracker` and the state-change mapping it keeps: the difference
    between two snapshots of a quam state, given as a JSON patch, turned
    into a map from JSON pointer to the old and the new value. */
module StateTracker {
  import opened Wrappers
  import opened Strings
  import opened JsonValue

  /** One operation of a JSON patch (RFC 6902). */
  datatype PatchOp =
    | Replace(path: string, value: Json)
    | Remove(path: string)
    | Add(path: string, value: Json)
    | Copy(from: string, path: string)
    | Move(from: string, path: string)
    | Test(path: string, value: Json)

  /** The recorded change at one pointer: the `old` and `new` entries of
      its dict, each of which may be absent. */
  datatype Change = Change(oldValue: Option<Json>, newValue: Option<Json>)

  /** The reference tokens of a JSON pointer (RFC 6901): none for the
      empty pointer, the `/`-separated parts otherwise; a pointer that
      does not start with `/` is rejected. */
  function PointerParts(pointer: string): (r: Option<seq<string>>)
    ensures pointer == "" ==> r == Some([])
    ensures r.Some? && pointer != "" ==> pointer[0] == '/' && |r.value| >= 1
  {
    if pointer == "" then Some([])
    else if pointer[0] != '/' then None
    else Some(Split(pointer[1..], '/'))
  }

  /** An array index token: `0` or digits without a leading zero. */
  predicate IsArrayIndex(t: string) {
    IsDigits(t) && (t[0] != '0' || t == "0")
  }

  /** Walks the tokens into `doc`: a dict member by its string key, a list
      (or string) element by index; anything else does not resolve. */
  function Walk(doc: Json, parts: seq<string>): (r: Option<Json>)
    ensures parts == [] ==> r == Some(doc)
    decreases |parts|
  {
    if parts == [] then Some(doc)
    else
      var t := parts[0];
      match doc
      case JObj(fields) =>
        if KStr(t) in fields then Walk(fields[KStr(t)], parts[1..]) else None
      case JList(items) =>
        if IsArrayIndex(t) && DigitsValue(t) < |items| then Walk(items[DigitsValue(t)], parts[1..]) else None
      case JTuple(items) =>
        if IsArrayIndex(t) && DigitsValue(t) < |items| then Walk(items[DigitsValue(t)], parts[1..]) else None
      case JStr(s) =>
        if IsArrayIndex(t) && DigitsValue(t) < |s| then Walk(JStr([s[DigitsValue(t)]]), parts[1..]) else None
      case _ => None
  }

  /** `resolve_pointer(doc, pointer)`: raises when the pointer is malformed
      or does not resolve. */
  function Resolve(doc: Json, pointer: string): (r: Result<Json>)
    ensures r.Err? ==> r.error == JsonPointerException
    ensures pointer == "" ==> r == Ok(doc)
  {
    match PointerParts(pointer)
    case None => Err(JsonPointerException)
    case Some(parts) =>
      match Walk(doc, parts)
      case None => Err(JsonPointerException)
      case Some(v) => Ok(v)
  }

  /** `resolve_pointer(doc, pointer, _Placeholder())`: a pointer that does
      not resolve gives the placeholder (`None` here); a malformed one
      still raises. */
  function ResolveOrPlaceholder(doc: Json, pointer: string): (r: Result<Option<Json>>)
    ensures r.Err? <==> PointerParts(pointer).None?
    ensures r.Err? ==> r.error == JsonPointerException
    ensures r.Ok? && r.value.Some? ==> Resolve(doc, pointer) == Ok(r.value.value)
    ensures r.Ok? && r.value.None? ==> Resolve(doc, pointer).Err?
  {
    match PointerParts(pointer)
    case None => Err(JsonPointerException)
    case Some(parts) => Ok(Walk(doc, parts))
  }

  /** The pointer an operation records a change at; `test` records none. */
  function Target(op: PatchOp): Option<string> {
    if op.Test? then None else Some(op.path)
  }

  /** The change recorded at the target of `op`, read against the old
      document: `replace` and `remove` resolve the old value, `add` has
      none, `copy` and `move` take the new value from `from` and the old
      value of the destination when it exists. */
  function OpChange(prior: Json, op: PatchOp): (r: Result<Change>)
    requires !op.Test?
    ensures op.Add? ==> r == Ok(Change(None, Some(op.value)))
    ensures (op.Replace? || op.Remove?) ==> (r.Ok? <==> Resolve(prior, op.path).Ok?)
    ensures op.Replace? && r.Ok? ==>
      Resolve(prior, op.path).Ok? && r.value == Change(Some(Resolve(prior, op.path).value), Some(op.value))
    ensures op.Remove? && r.Ok? ==>
      Resolve(prior, op.path).Ok? && r.value == Change(Some(Resolve(prior, op.path).value), None)
    ensures (op.Copy? || op.Move?) ==>
      (r.Ok? <==> Resolve(prior, op.from).Ok? && ResolveOrPlaceholder(prior, op.path).Ok?)
    ensures (op.Copy? || op.Move?) && r.Ok? ==>
      Resolve(prior, op.from).Ok? && r.value.newValue == Some(Resolve(prior, op.from).value)
    ensures (op.Copy? || op.Move?) && r.Ok? ==>
      ResolveOrPlaceholder(prior, op.path).Ok? && r.value.oldValue == ResolveOrPlaceholder(prior, op.path).value
    ensures r.Err? ==> r.error == JsonPointerException
  {
    match op
    case Replace(path, value) =>
      var o :- Resolve(prior, path);
      Ok(Change(Some(o), Some(value)))
    case Remove(path) =>
      var o :- Resolve(prior, path);
      Ok(Change(Some(o), None))
    case Add(path, value) => Ok(Change(None, Some(value)))
    case Copy(from, path) =>
      var n :- Resolve(prior, from);
      var d :- ResolveOrPlaceholder(prior, path);
      Ok(Change(d, Some(n)))
    case Move(from, path) =>
      var s :- Resolve(prior, from);
      var d :- ResolveOrPlaceholder(prior, path);
      Ok(Change(d, Some(s)))
  }

  /** One iteration of the loop of `jsonpatch_to_mapping`. A `move` also
      records the removal at its source, unless that pointer already has
      an entry. */
  function Step(prior: Json, diff: map<string, Change>, op: PatchOp): (r: Result<map<string, Change>>)
    ensures op.Test? ==> r == Ok(diff)
    ensures r.Ok? && !op.Test? ==> op.path in r.value && Ok(r.value[op.path]) == OpChange(prior, op)
    ensures r.Ok? ==> diff.Keys <= r.value.Keys
    ensures r.Ok? ==> forall k :: k in diff && Target(op) != Some(k) ==> r.value[k] == diff[k]
    ensures r.Ok? ==> forall k :: k in r.value && k !in diff ==> Touches(op, k)
    ensures r.Ok? && op.Move? ==> op.from in r.value
    ensures !op.Test? ==> (r.Ok? <==> OpChange(prior, op).Ok?)
    ensures r.Ok? && op.Move? && op.from !in diff && op.from != op.path ==>
      Resolve(prior, op.from).Ok? && op.from in r.value && r.value[op.from] == Change(Some(Resolve(prior, op.from).value), None)
    ensures r.Ok? && op.Move? && op.from in diff && op.from != op.path ==> op.from in r.value && r.value[op.from] == diff[op.from]
  {
    if op.Test? then Ok(diff)
    else
      var c :- OpChange(prior, op);
      if op.Move? && op.from !in diff then
        Ok(diff[op.from := Change(Some(Resolve(prior, op.from).value), None)][op.path := c])
      else Ok(diff[op.path := c])
  }

  /** The pointers an operation records an entry at: its target, and the
      source of a `move`. */
  predicate Touches(op: PatchOp, k: string) {
    Target(op) == Some(k) || (op.Move? && op.from == k)
  }

  /** The loop of `jsonpatch_to_mapping` over a patch; `MappingKeys`
      gives its keys. */
  function Fold(prior: Json, patch: seq<PatchOp>): (r: Result<map<string, Change>>)
    ensures r.Err? ==> r.error == JsonPointerException
    decreases |patch|
  {
    if patch == [] then Ok(map[])
    else
      var diff :- Fold(prior, patch[..|patch| - 1]);
      Step(prior, diff, patch[|patch| - 1])
  }

  /** Once an operation fails, the whole loop fails with its error. */
  lemma {:induction false} FoldFailurePersists(prior: Json, patch: seq<PatchOp>, j: nat)
    requires j <= |patch| && Fold(prior, patch[..j]).Err?
    ensures Fold(prior, patch) == Fold(prior, patch[..j])
    decreases |patch| - j
  {
    if j < |patch| {
      assert patch[..j + 1][..j] == patch[..j];
      FoldFailurePersists(prior, patch, j + 1);
    } else {
      assert patch[..j] == patch;
    }
  }

  /** The keys prefixed with `#`, turning JSON pointers into absolute quam
      references. */
  function WithHash(diff: map<string, Change>): (r: map<string, Change>)
    ensures forall k :: k in diff <==> "#" + k in r
    ensures forall k :: k in diff ==> r["#" + k] == diff[k]
    ensures forall k :: k in r ==> |k| >= 1 && k[0] == '#' && k[1..] in diff
  {
    forall a: string, b: string | "#" + a == "#" + b
      ensures a == b
    {
      assert ("#" + a)[1..] == a && ("#" + b)[1..] == b;
    }
    var r := map k | k in diff :: "#" + k := diff[k];
    assert forall k :: k in r ==> ("#" + k[1..]) == k;
    r
  }

  /** `jsonpatch_to_mapping(old, patch, use_preceding_hash)`. */
  function Mapping(prior: Json, patch: seq<PatchOp>, usePrecedingHash: bool): (r: Result<map<string, Change>>)
    ensures r.Ok? <==> Fold(prior, patch).Ok?
    ensures r.Err? ==> r.error == JsonPointerException
    ensures r.Ok? && !usePrecedingHash ==> r.value == Fold(prior, patch).value
    ensures r.Ok? && usePrecedingHash ==> r.value == WithHash(Fold(prior, patch).value)
  {
    var diff :- Fold(prior, patch);
    if usePrecedingHash then Ok(WithHash(diff)) else Ok(diff)
  }

  /** One iteration of the loop, proved against `Step`. */
  method RecordOp(prior: Json, diff: map<string, Change>, op: PatchOp) returns (r: Result<map<string, Change>>)
    ensures r == Step(prior, diff, op)
  {
    match op {
      case Replace(path, value) =>
        var o := Resolve(prior, path);
        if o.Err? { return Err(o.error); }
        r := Ok(diff[path := Change(Some(o.value), Some(value))]);
      case Remove(path) =>
        var o := Resolve(prior, path);
        if o.Err? { return Err(o.error); }
        r := Ok(diff[path := Change(Some(o.value), None)]);
      case Add(path, value) =>
        r := Ok(diff[path := Change(None, Some(value))]);
      case Copy(from, path) =>
        var n := Resolve(prior, from);
        if n.Err? { return Err(n.error); }
        var d := ResolveOrPlaceholder(prior, path);
        if d.Err? { return Err(d.error); }
        r := Ok(diff[path := Change(d.value, Some(n.value))]);
      case Move(from, path) =>
        var src := Resolve(prior, from);
        if src.Err? { return Err(src.error); }
        var d := ResolveOrPlaceholder(prior, path);
        if d.Err? { return Err(d.error); }
        var next := diff;
        if from !in next {
          next := next[from := Change(Some(src.value), None)];
        }
        r := Ok(next[path := Change(d.value, Some(src.value))]);
      case Test(_, _) =>
        r := Ok(diff);
    }
  }

  /** The imperative loop, proved against `Mapping`. */
  method JsonpatchToMapping(prior: Json, patch: seq<PatchOp>, usePrecedingHash: bool)
    returns (r: Result<map<string, Change>>)
    ensures r == Mapping(prior, patch, usePrecedingHash)
  {
    var diff: map<string, Change> := map[];
    var i := 0;
    while i < |patch|
      invariant 0 <= i <= |patch|
      invariant Fold(prior, patch[..i]) == Ok(diff)
    {
      assert patch[..i + 1][..i] == patch[..i];
      var next := RecordOp(prior, diff, patch[i]);
      if next.Err? {
        FoldFailurePersists(prior, patch, i + 1);
        return Err(next.error);
      }
      diff := next.value;
      i := i + 1;
    }
    assert patch[..i] == patch;
    if usePrecedingHash {
      r := Ok(WithHash(diff));
    } else {
      r := Ok(diff);
    }
  }

  /** The loop's last iteration, after the ones before it succeeded. */
  lemma FoldLast(prior: Json, patch: seq<PatchOp>)
    requires |patch| > 0 && Fold(prior, patch).Ok?
    ensures Fold(prior, patch[..|patch| - 1]).Ok?
    ensures Fold(prior, patch) == Step(prior, Fold(prior, patch[..|patch| - 1]).value, patch[|patch| - 1])
  {
  }

  /** The entry of a pointer is the change recorded by the last operation
      that targets it; a later `move` away from it does not overwrite it,
      and every change is read against the old document. */
  lemma {:induction false} LastOpWins(prior: Json, patch: seq<PatchOp>, i: nat)
    requires i < |patch| && !patch[i].Test? && Fold(prior, patch).Ok?
    requires forall j :: i < j < |patch| ==> Target(patch[j]) != Some(patch[i].path)
    ensures patch[i].path in Fold(prior, patch).value
    ensures Ok(Fold(prior, patch).value[patch[i].path]) == OpChange(prior, patch[i])
    decreases |patch|
  {
    var n := |patch|;
    var init := patch[..n - 1];
    FoldLast(prior, patch);
    if i < n - 1 {
      InitKeepsLast(patch, init, i);
      LastOpWins(prior, init, i);
      var d := Fold(prior, init).value;
      StepKeeps(prior, d, patch[n - 1], patch[i].path);
      assert Fold(prior, patch).value[patch[i].path] == d[patch[i].path];
    }
  }

  /** Dropping the last operation keeps operation `i` the last to target
      its pointer. */
  lemma InitKeepsLast(patch: seq<PatchOp>, init: seq<PatchOp>, i: nat)
    requires i < |patch| - 1 && !patch[i].Test? && init == patch[..|patch| - 1]
    requires forall j :: i < j < |patch| ==> Target(patch[j]) != Some(patch[i].path)
    ensures init[i] == patch[i]
    ensures Target(patch[|patch| - 1]) != Some(patch[i].path)
    ensures forall j :: i < j < |init| ==> Target(init[j]) != Some(init[i].path)
  {
  }

  /** An entry that an operation does not target survives it. */
  lemma StepKeeps(prior: Json, diff: map<string, Change>, op: PatchOp, k: string)
    requires Step(prior, diff, op).Ok? && k in diff && Target(op) != Some(k)
    ensures k in Step(prior, diff, op).value && Step(prior, diff, op).value[k] == diff[k]
  {
  }

  /** The mapping has an entry for exactly the targets of the operations
      and the sources of the moves. */
  lemma {:induction false} MappingKeys(prior: Json, patch: seq<PatchOp>)
    requires Fold(prior, patch).Ok?
    ensures forall j :: 0 <= j < |patch| && !patch[j].Test? ==> patch[j].path in Fold(prior, patch).value
    ensures forall j :: 0 <= j < |patch| && patch[j].Move? ==> patch[j].from in Fold(prior, patch).value
    ensures forall k :: k in Fold(prior, patch).value ==> exists j :: 0 <= j < |patch| && Touches(patch[j], k)
    decreases |patch|
  {
    var n := |patch|;
    if n > 0 {
      var init := patch[..n - 1];
      MappingKeys(prior, init);
      assert forall j :: 0 <= j < |init| ==> init[j] == patch[j];
    }
  }

  /** A patch made only of `add` operations never reads the old document,
      so it cannot fail. */
  lemma {:induction false} AddsNeverFail(prior: Json, patch: seq<PatchOp>)
    requires forall j :: 0 <= j < |patch| ==> patch[j].Add?
    ensures Fold(prior, patch).Ok?
    decreases |patch|
  {
    if patch != [] {
      AddsNeverFail(prior, patch[..|patch| - 1]);
    }
  }

  /** A single entry keeps its change under the prefixed pointer. */
  lemma WithHashSingleton(p: string, c: Change)
    ensures WithHash(map[p := c]) == map["#" + p := c]
  {
    var w := WithHash(map[p := c]);
    forall k | k in w ensures k == "#" + p {
      assert k == "#" + k[1..];
    }
  }

  /** A patch of one addition records just that addition. */
  lemma FoldSingleAdd(prior: Json, p: string, v: Json)
    ensures Fold(prior, [Add(p, v)]) == Ok(map[p := Change(None, Some(v))])
  {
    var patch := [Add(p, v)];
    assert patch[..0] == [];
    assert Fold(prior, patch[..0]) == Ok(map[]);
  }

  /** A patch of one removal records the removed value, or fails as
      resolving fails. */
  lemma FoldSingleRemove(prior: Json, p: string)
    ensures Fold(prior, [Remove(p)]) ==
      if Resolve(prior, p).Ok? then Ok(map[p := Change(Some(Resolve(prior, p).value), None)]) else Err(JsonPointerException)
  {
    var patch := [Remove(p)];
    assert patch[..0] == [];
    assert Fold(prior, patch[..0]) == Ok(map[]);
  }

  /** Adding a key to an empty state records only its new value under the
      `#`-prefixed pointer. */
  lemma AddToEmptyState()
    ensures Mapping(JObj(map[]), [Add("/hi", JStr("bye"))], true)
      == Ok(map["#/hi" := Change(None, Some(JStr("bye")))])
  {
    var m := map["/hi" := Change(None, Some(JStr("bye")))];
    assert Fold(JObj(map[]), [Add("/hi", JStr("bye"))]) == Ok(m) by {
      FoldSingleAdd(JObj(map[]), "/hi", JStr("bye"));
    }
    assert WithHash(m) == map["#/hi" := Change(None, Some(JStr("bye")))] by {
      WithHashSingleton("/hi", m["/hi"]);
      assert "#" + "/hi" == "#/hi";
    }
  }

  /** What `value_to_str` is given: one of the builtin type objects it
      compares against, or any other value, known by its `str()`. */
  datatype Shown = TypeObject(name: string) | Other(text: string)

  const BuiltinTypes: set<string> := {"str", "bool", "int", "float", "NoneType"}

  /** `str(value)` */
  function Str(v: Shown): string {
    match v
    case TypeObject(name) => "<class '" + name + "'>"
    case Other(text) => text
  }

  /** `value_to_str`: the builtin types print as themselves; anything else
      is cut to 40 characters and marked with `...` when the cut text has
      40 characters. */
  function ValueToStr(v: Shown): (r: string)
    ensures |r| <= 43
    ensures |Str(v)| < 40 ==> r == Str(v)
    ensures |Str(v)| >= 40 ==> r == Str(v)[..40] + "..."
  {
    if v.TypeObject? && v.name in BuiltinTypes then
      assert |v.name| <= 8;
      Str(v)
    else
      var cut := if |Str(v)| <= 40 then Str(v) else Str(v)[..40];
      if |cut| == 40 then cut + "..." else cut
  }

  /** One printed line of `print_state_changes`, with `str()` of a JSON
      value given as `str`: the change's absent `old` prints as `None`,
      but its `new` entry is indexed, so a removal raises `KeyError`. */
  function ChangeLineAsWritten(path: string, c: Change, str: Json -> string, indent: nat): (r: Result<string>)
    ensures r.Err? <==> c.newValue.None?
    ensures r.Err? ==> r.error == KeyError
  {
    var oldText := if c.oldValue.Some? then ValueToStr(Other(str(c.oldValue.value))) else ValueToStr(Other("None"));
    if c.newValue.None? then Err(KeyError)
    else
      var newText := ValueToStr(Other(str(c.newValue.value)));
      Ok(seq(indent, _ => ' ') + path + ": " + oldText + " \U{2192} " + newText)
  }

  /** The printed line with an absent `new` read as `None`, like `old`. */
  function ChangeLine(path: string, c: Change, str: Json -> string, indent: nat): (r: string)
    ensures |r| >= indent + |path| + 2
    ensures r[..indent] == seq(indent, _ => ' ')
    ensures r[indent..indent + |path| + 2] == path + ": "
    ensures c.newValue.Some? ==> ChangeLineAsWritten(path, c, str, indent) == Ok(r)
  {
    var text := (o: Option<Json>) => if o.Some? then ValueToStr(Other(str(o.value))) else ValueToStr(Other("None"));
    var r := seq(indent, _ => ' ') + path + ": " + text(c.oldValue) + " \U{2192} " + text(c.newValue);
    assert r[indent..indent + |path| + 2] == path + ": ";
    r
  }

  /** The pointer `/a` reads key `a` of `{a: 1}`. */
  lemma ResolveTopKey()
    ensures Resolve(JObj(map[KStr("a") := JInt(1)]), "/a") == Ok(JInt(1))
  {
    assert "/a"[1..] == "a";
    assert RFind("a", '/') == None;
    assert PointerParts("/a") == Some(["a"]);
  }

  /** Removing `/a` from `{a: 1}` records the old value and no new one. */
  lemma RemovalMapping()
    ensures Mapping(JObj(map[KStr("a") := JInt(1)]), [Remove("/a")], true)
      == Ok(map["#/a" := Change(Some(JInt(1)), None)])
  {
    var prior := JObj(map[KStr("a") := JInt(1)]);
    var m := map["/a" := Change(Some(JInt(1)), None)];
    assert Fold(prior, [Remove("/a")]) == Ok(m) by {
      ResolveTopKey();
      FoldSingleRemove(prior, "/a");
    }
    assert WithHash(m) == map["#/a" := Change(Some(JInt(1)), None)] by {
      WithHashSingleton("/a", m["/a"]);
      assert "#" + "/a" == "#/a";
    }
  }

  /** Printing the changes after a key was deleted fails: the `remove`
      entry has no `new` value. */
  lemma RemovalBreaksPrinting(str: Json -> string)
    ensures Mapping(JObj(map[KStr("a") := JInt(1)]), [Remove("/a")], true)
      == Ok(map["#/a" := Change(Some(JInt(1)), None)])
    ensures ChangeLineAsWritten("#/a", Change(Some(JInt(1)), None), str, 3) == Err(KeyError)
  {
    RemovalMapping();
  }

  /** `StateTracker`: the last state seen and the changes that led to it. */
  class Tracker {
    var lastState: Obj
    var lastStateChanges: map<string, Change>

    /** `state or {}`: no state (or an empty one) starts from `{}`. */
    constructor (state: Option<Obj>)
      ensures lastState == (if state.Some? then state.value else map[])
      ensures lastStateChanges == map[]
    {
      lastState := if state.Some? then state.value else map[];
      lastStateChanges := map[];
    }

    /** `update_state(state)`; `patch` is what `jsonpatch.make_patch`
        computes from the last state to `state`. When a patch pointer does
        not resolve, nothing is updated. */
    method UpdateState(state: Obj, patch: seq<PatchOp>) returns (r: Result<()>)
      modifies this
      ensures var m := Mapping(JObj(old(lastState)), patch, true);
        && (m.Ok? ==> r == Ok(()) && lastStateChanges == m.value && lastState == state)
        && (m.Err? ==> r == Err(m.error) && lastStateChanges == old(lastStateChanges) && lastState == old(lastState))
    {
      var changes := JsonpatchToMapping(JObj(lastState), patch, true);
      if changes.Err? {
        return Err(changes.error);
      }
      Commit(state, changes.value);
      r := Ok(());
    }

    /** The two assignments of `update_state`: the changes, then the new
        state. */
    method Commit(state: Obj, changes: map<string, Change>)
      modifies this
      ensures lastState == state && lastStateChanges == changes
    {
      lastStateChanges := changes;
      lastState := state;
    }
  }
}

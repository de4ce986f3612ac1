/** `quam/components/quantum_components/qubit.py`: a qubit's name, the
    channels among its attributes, and the lookup of a qubit pair with
    `q1 @ q2`, all over the object tree of module `QuamModel`. */
module Qubits {
  import opened Wrappers
  import opened Strings
  import opened Values
  import opened JsonValue
  import opened QuamModel
  import opened Resolver
  import opened QuamTree

  // ---------------------------------------------------------------------
  // Qubit.name

  /** `Qubit.id`, declared as a string or an int. */
  datatype QubitId = StrId(s: string) | IntId(n: int)

  /** `Qubit.name`: a string id as it is, an int id after `q`. */
  function QubitName(id: QubitId): (r: string)
    ensures id.StrId? ==> r == id.s
    ensures id.IntId? ==> |r| > 1 && r[0] == 'q' && ParseInt(r[1..]) == Ok(id.n)
  {
    match id
    case StrId(s) => s
    case IntId(n) =>
      var r := "q" + IntToString(n);
      assert r[1..] == IntToString(n);
      IntToStringParses(n);
      r
  }

  /** Qubits with different int ids have different names; an int id and
      the string id spelling its name give the same one. */
  lemma QubitNamesOfIntIds(a: int, b: int)
    ensures QubitName(IntId(a)) == QubitName(IntId(b)) <==> a == b
    ensures QubitName(IntId(a)) == QubitName(StrId("q" + IntToString(a)))
  {
    var na, nb := QubitName(IntId(a)), QubitName(IntId(b));
    if na == nb {
      assert na[1..] == nb[1..];
    }
  }

  // ---------------------------------------------------------------------
  // Qubit.channels

  /** `isinstance(v, Channel)`, given the class paths of `Channel` and its
      subclasses. */
  predicate IsChannel(st: Store, v: Value, channelClasses: set<string>) {
    v.VNode? && v.id in st && st[v.id].cls in channelClasses
  }

  /** The dict comprehension of `Qubit.channels` over the `(key, value)`
      pairs of `get_attrs`: the channel values by key, a later pair
      winning over an earlier one with the same key. */
  function ChannelsOf(st: Store, kvs: seq<(Key, Value)>, channelClasses: set<string>): (r: map<Key, Id>)
    ensures forall k | k in r :: (k, VNode(r[k])) in kvs && IsChannel(st, VNode(r[k]), channelClasses)
    ensures forall e | e in kvs && IsChannel(st, e.1, channelClasses) :: e.0 in r
    decreases |kvs|
  {
    if kvs == [] then map[]
    else
      var init := kvs[..|kvs| - 1];
      var last := kvs[|kvs| - 1];
      var rest := ChannelsOf(st, init, channelClasses);
      assert forall e | e in kvs :: e in init || e == last by {
        assert kvs == init + [last];
      }
      assert forall e | e in init :: e in kvs;
      if IsChannel(st, last.1, channelClasses) then rest[last.0 := last.1.id] else rest
  }

  /** `Qubit.channels`: the attributes `get_attrs(follow_references=True,
      include_defaults=True)` reports whose value is a channel. */
  function QubitChannels(st: Store, qubit: Id, channelClasses: set<string>, ctx: Ctx, fuel: nat)
    : (r: Result<map<Key, Id>>)
    requires Valid(st) && qubit in st && CtxIn(st, ctx) && st[qubit].body.Attrs?
    ensures r.Ok? <==> GetAttrs(st, qubit, true, true, ctx, fuel).Ok?
    ensures r.Ok? ==> forall k | k in r.value ::
      (k, VNode(r.value[k])) in GetAttrs(st, qubit, true, true, ctx, fuel).value
      && IsChannel(st, VNode(r.value[k]), channelClasses)
    ensures r.Ok? ==> forall e | e in GetAttrs(st, qubit, true, true, ctx, fuel).value
      && IsChannel(st, e.1, channelClasses) :: e.0 in r.value
  {
    var kvs :- GetAttrs(st, qubit, true, true, ctx, fuel);
    Ok(ChannelsOf(st, kvs, channelClasses))
  }

  /** Every channel of a qubit is one of its declared, non-skipped fields. */
  lemma QubitChannelsAreFields(st: Store, qubit: Id, channelClasses: set<string>, ctx: Ctx, fuel: nat)
    requires Valid(st) && qubit in st && CtxIn(st, ctx) && st[qubit].body.Attrs?
    requires QubitChannels(st, qubit, channelClasses, ctx, fuel).Ok?
    ensures forall k | k in QubitChannels(st, qubit, channelClasses, ctx, fuel).value ::
      k.KStr? && k.s !in st[qubit].skip && FieldDefault(st[qubit].fields, k.s).Some?
  {
    GetAttrsNames(st, qubit, true, true, ctx, fuel);
  }

  // ---------------------------------------------------------------------
  // Qubit.__matmul__

  /** A dict key as the value iterating the dict yields. */
  function KeyValue(k: Key): Value {
    match k
    case KStr(s) => VStr(s)
    case KInt(i) => VInt(i)
  }

  /** How many values `for x in coll` visits, or the `TypeError` of a value
      that cannot be iterated. A string is iterated by character. */
  function IterLength(st: Store, coll: Value): (r: Result<nat>)
    requires ValueIn(st, coll)
  {
    match coll
    case VNode(id) =>
      (match st[id].body
       case Items(items) => Ok(|items|)
       case Entries(entries) => Ok(|entries|)
       case Attrs(_) => Err(TypeError))
    case VStr(s) => Ok(|s|)
    case _ => Err(TypeError)
  }

  /** The `i`-th value of the iteration: a `QuamList` item through
      `__getitem__` (references resolved), a `QuamDict` key, a character. */
  function IterItem(st: Store, coll: Value, i: nat, ctx: Ctx, fuel: nat): (r: Result<Value>)
    requires Valid(st) && ValueIn(st, coll) && CtxIn(st, ctx)
    requires IterLength(st, coll).Ok? && i < IterLength(st, coll).value
    ensures r.Ok? ==> ValueIn(st, r.value)
  {
    match coll
    case VNode(id) =>
      if st[id].body.Items? then ListGetItem(st, id, i, ctx, fuel)
      else (KeyValueIn(st, st[id].body.entries[i].0);
            Ok(KeyValue(st[id].body.entries[i].0)))
    case VStr(s) => Ok(VStr([s[i]]))
  }

  lemma KeyValueIn(st: Store, k: Key)
    ensures ValueIn(st, KeyValue(k)) && !KeyValue(k).VNode?
  {
  }

  /** The test of the loop: the item's `qubit_control` is `q` and then its
      `qubit_target` is `other`, reading the second attribute only when the
      first test holds. */
  function PairTest(st: Store, item: Value, q: Id, other: Value, ctx: Ctx, fuel: nat): (r: Result<bool>)
    requires Valid(st) && ValueIn(st, item) && CtxIn(st, ctx)
    ensures r == Ok(true) ==> (GetAttr(st, item, "qubit_control", ctx, fuel) == Ok(VNode(q))
      && GetAttr(st, item, "qubit_target", ctx, fuel).Ok?
      && Is(GetAttr(st, item, "qubit_target", ctx, fuel).value, other))
  {
    var control :- GetAttr(st, item, "qubit_control", ctx, fuel);
    if !Is(control, VNode(q)) then Ok(false)
    else
      var target :- GetAttr(st, item, "qubit_target", ctx, fuel);
      Ok(Is(target, other))
  }

  /** Reading item `j` of `coll` and testing it: the first error raised
      by either step, or whether the item is a pair from `q` to `other`. */
  function TestItem(st: Store, coll: Value, j: nat, q: Id, other: Value, ctx: Ctx, fuel: nat): (r: Result<bool>)
    requires Valid(st) && ValueIn(st, coll) && CtxIn(st, ctx)
    requires IterLength(st, coll).Ok? && j < IterLength(st, coll).value
  {
    var item :- IterItem(st, coll, j, ctx, fuel);
    PairTest(st, item, q, other, ctx, fuel)
  }

  /** The outcome of testing each item of `coll` in turn. Only a prefix of
      it is evaluated by the loop: the search stops at the first pair or
      the first error. */
  function ItemTests(st: Store, coll: Value, q: Id, other: Value, ctx: Ctx, fuel: nat)
    : (r: seq<Result<bool>>)
    requires Valid(st) && ValueIn(st, coll) && CtxIn(st, ctx) && IterLength(st, coll).Ok?
    ensures |r| == IterLength(st, coll).value
    ensures forall j | 0 <= j < |r| :: r[j] == TestItem(st, coll, j, q, other, ctx, fuel)
  {
    seq(IterLength(st, coll).value, j requires 0 <= j < IterLength(st, coll).value =>
      TestItem(st, coll, j, q, other, ctx, fuel))
  }

  /** The `for ... else` search from position `i` over the test outcomes:
      `Some` index of the first item that passes, the first error raised on
      the way, or `None` when the loop runs out. */
  function FirstPair(tests: seq<Result<bool>>, i: nat): (r: Result<Option<nat>>)
    requires i <= |tests|
    ensures r.Ok? && r.value.Some? ==> i <= r.value.value < |tests| && tests[r.value.value] == Ok(true)
    ensures r.Ok? && r.value.Some? ==> forall j | i <= j < r.value.value :: tests[j] == Ok(false)
    ensures r == Ok(None) ==> forall j | i <= j < |tests| :: tests[j] == Ok(false)
    ensures r.Err? ==> exists j | i <= j < |tests| :: tests[j] == Err(r.error)
    decreases |tests| - i
  {
    if i == |tests| then Ok(None)
    else
      var found :- tests[i];
      if found then Ok(Some(i)) else FirstPair(tests, i + 1)
  }

  /** A search that starts at or before a pair, over items that all test
      without raising, stops at that pair or an earlier one. */
  lemma {:induction false} FirstPairReaches(tests: seq<Result<bool>>, i: nat, j: nat)
    requires i <= j < |tests| && tests[j] == Ok(true)
    requires forall k | i <= k < j :: tests[k].Ok?
    ensures var r := FirstPair(tests, i); r.Ok? && r.value.Some? && r.value.value <= j
    decreases j - i
  {
    if tests[i] != Ok(true) {
      FirstPairReaches(tests, i + 1, j);
    }
  }

  /** `Qubit.__matmul__`: `q @ other` is `ValueError` for a non-qubit or
      for `q` itself, `AttributeError` when the root has no `qubit_pairs`,
      and otherwise the first pair whose control is `q` and whose target
      is `other`, or `ValueError` when there is none. `root` is what
      `self._root` evaluates to (its definition is not part of this
      model); an error there propagates. */
  function Matmul(st: Store, q: Id, other: Value, qubitClasses: set<string>, root: Result<Value>,
                  ctx: Ctx, fuel: nat): (r: Result<Value>)
    requires Valid(st) && q in st && ValueIn(st, other) && CtxIn(st, ctx)
    requires root.Ok? ==> ValueIn(st, root.value)
    ensures !(other.VNode? && st[other.id].cls in qubitClasses) ==> r == Err(ValueError)
    ensures other == VNode(q) ==> r == Err(ValueError)
    ensures r.Ok? ==> other.VNode? && other != VNode(q) && ValueIn(st, r.value)
    ensures r.Ok? ==> (GetAttr(st, r.value, "qubit_control", ctx, fuel) == Ok(VNode(q))
      && GetAttr(st, r.value, "qubit_target", ctx, fuel) == Ok(other))
  {
    if !(other.VNode? && st[other.id].cls in qubitClasses) then Err(ValueError)
    else if other == VNode(q) then Err(ValueError)
    else
      var rt :- root;
      var pairs :- GetAttr(st, rt, "qubit_pairs", ctx, fuel);
      var n :- IterLength(st, pairs);
      var found :- FirstPair(ItemTests(st, pairs, q, other, ctx, fuel), 0);
      if found.None? then Err(ValueError)
      else IterItem(st, pairs, found.value, ctx, fuel)
  }

  /** The pair of `q @ x` is never the pair of `x @ q`: the operator is
      directed. */
  lemma MatmulDirected(st: Store, q: Id, x: Id, qubitClasses: set<string>, root: Result<Value>,
                       ctx: Ctx, fuel: nat)
    requires Valid(st) && q in st && x in st && CtxIn(st, ctx)
    requires root.Ok? ==> ValueIn(st, root.value)
    requires Matmul(st, q, VNode(x), qubitClasses, root, ctx, fuel).Ok?
    requires Matmul(st, x, VNode(q), qubitClasses, root, ctx, fuel).Ok?
    ensures Matmul(st, q, VNode(x), qubitClasses, root, ctx, fuel).value
      != Matmul(st, x, VNode(q), qubitClasses, root, ctx, fuel).value
  {
  }

  /** When `qubit_pairs` holds a pair from `q` to `other` and every item
      before it can be read and tested, `q @ other` returns a pair from
      `q` to `other` (that one or an earlier one) rather than raising. */
  lemma MatmulFindsPair(st: Store, q: Id, other: Value, qubitClasses: set<string>, root: Value,
                        ctx: Ctx, fuel: nat, j: nat)
    requires Valid(st) && q in st && ValueIn(st, other) && CtxIn(st, ctx) && ValueIn(st, root)
    requires other.VNode? && st[other.id].cls in qubitClasses && other != VNode(q)
    requires GetAttr(st, root, "qubit_pairs", ctx, fuel).Ok?
    requires var pairs := GetAttr(st, root, "qubit_pairs", ctx, fuel).value;
      && IterLength(st, pairs).Ok? && j < IterLength(st, pairs).value
      && TestItem(st, pairs, j, q, other, ctx, fuel) == Ok(true)
      && forall k | 0 <= k < j :: TestItem(st, pairs, k, q, other, ctx, fuel).Ok?
    ensures Matmul(st, q, other, qubitClasses, Ok(root), ctx, fuel).Ok?
  {
    var pairs := GetAttr(st, root, "qubit_pairs", ctx, fuel).value;
    FirstPairReaches(ItemTests(st, pairs, q, other, ctx, fuel), 0, j);
  }

  /** When `q @ other` finds no pair after testing every item of
      `qubit_pairs` without error, it raises `ValueError`, and no item is a
      pair from `q` to `other`. */
  lemma MatmulNoPair(st: Store, q: Id, other: Value, qubitClasses: set<string>, root: Value,
                     ctx: Ctx, fuel: nat, j: nat)
    requires Valid(st) && q in st && ValueIn(st, other) && CtxIn(st, ctx) && ValueIn(st, root)
    requires other.VNode? && st[other.id].cls in qubitClasses && other != VNode(q)
    requires GetAttr(st, root, "qubit_pairs", ctx, fuel).Ok?
    requires var pairs := GetAttr(st, root, "qubit_pairs", ctx, fuel).value;
      && IterLength(st, pairs).Ok? && j < IterLength(st, pairs).value
      && FirstPair(ItemTests(st, pairs, q, other, ctx, fuel), 0) == Ok(None)
    ensures Matmul(st, q, other, qubitClasses, Ok(root), ctx, fuel) == Err(ValueError)
    ensures TestItem(st, GetAttr(st, root, "qubit_pairs", ctx, fuel).value, j, q, other, ctx, fuel) == Ok(false)
  {
  }
}

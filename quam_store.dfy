/** Writes into the quam object tree: the parent link (`ParentDescriptor`),
    attribute assignment with the reference overwrite guard
    (`ReferenceClass.__setattr__`), `QuamDict` / `QuamList` item writes
    and `set_at_reference`. Each write is a function from the old store to
    the exception it raises (if any) and the new store; Python stores a
    value before it links the parent, so a write that fails on the parent
    link still leaves the value in place. The class `Tree` performs the
    same writes in place. */
module QuamStore {
  import opened Wrappers
  import opened Strings
  import opened Values
  import opened JsonValue
  import opened StringReference
  import opened QuamModel
  import opened Resolver

  /** The exception a write raised (if any) and the store after it. */
  datatype Outcome = Outcome(result: Result<()>, st: Store)

  /** Only node `id` may differ, and it keeps its kind. */
  predicate OnlyChanged(st: Store, st2: Store, ids: set<Id>) {
    && st2.Keys == st.Keys
    && (forall id | id in st && id !in ids :: st2[id] == st[id])
  }

  /** `ParentDescriptor.__set__(child, value)`: `None` clears the link;
      linking to the current parent again is a no-op; linking to another
      object while a parent is set raises `AttributeError`. */
  function ParentSet(st: Store, child: Id, value: Option<Id>): (o: Outcome)
    requires Valid(st) && child in st && (value.Some? ==> value.value in st)
    ensures Valid(o.st) && OnlyChanged(st, o.st, {child})
    ensures o.result.Err? <==> value.Some? && st[child].parent.Some? && st[child].parent != value
    ensures o.result.Err? ==> o.result.error == AttributeError && o.st == st
    ensures o.result.Ok? ==> o.st[child] == st[child].(parent := value)
    ensures forall id | id in st :: o.st[id].body == st[id].body
  {
    if value.Some? && st[child].parent.Some? && st[child].parent != value then Outcome(Err(AttributeError), st)
    else Outcome(Ok(()), st[child := st[child].(parent := value)])
  }

  /** Links a stored value to its new holder when it is an object. */
  function Adopted(st: Store, holder: Id, v: Value): (o: Outcome)
    requires Valid(st) && holder in st && ValueIn(st, v)
    ensures Valid(o.st) && o.st.Keys == st.Keys
    ensures forall id | id in st :: o.st[id].body == st[id].body
    ensures forall id | id in st :: o.st[id].parent in {st[id].parent, Some(holder)}
    ensures !v.VNode? ==> o == Outcome(Ok(()), st)
    ensures v.VNode? ==> o == ParentSet(st, v.id, Some(holder))
  {
    if v.VNode? then ParentSet(st, v.id, Some(holder)) else Outcome(Ok(()), st)
  }

  /** The guard of `ReferenceClass.__setattr__`: after `__post_init__`, a
      field whose stored value is a reference may only be overwritten by
      `None`. */
  predicate OverwriteRefused(n: Node, name: string, v: Value)
    requires n.body.Attrs?
  {
    v != VNone && name in n.body.attrs && n.initialized && IsReference(n.body.attrs[name])
  }

  /** The same guard applied by `QuamDict.__setitem__` through
      `_is_valid_setattr`: once initialised, an entry whose stored value is a
      reference may only be overwritten by `None`; a new key is never
      refused. */
  predicate ItemOverwriteRefused(n: Node, k: Key, v: Value)
    requires n.body.Entries?
  {
    v != VNone && n.initialized && DictGet(n.body.entries, k).Some? && IsReference(DictGet(n.body.entries, k).value)
  }

  lemma BodyValuesAttrs(attrs: map<string, Value>, name: string, v: Value)
    ensures BodyValues(Attrs(attrs[name := v])) <= BodyValues(Attrs(attrs)) + {v}
  {
  }

  /** The store with `value` stored under field `name` of `id`. */
  function StoreAttr(st: Store, id: Id, name: string, v: Value): (st2: Store)
    requires Valid(st) && id in st && st[id].body.Attrs? && name != "parent" && ValueIn(st, v)
    ensures Valid(st2) && OnlyChanged(st, st2, {id})
    ensures st2[id] == st[id].(body := Attrs(st[id].body.attrs[name := v]))
  {
    BodyValuesAttrs(st[id].body.attrs, name, v);
    st[id := st[id].(body := Attrs(st[id].body.attrs[name := v]))]
  }

  /** `QuamComponent.__setattr__` / `QuamRoot.__setattr__` for a field
      other than `parent`: the overwrite guard, the write, then the parent
      link of an object value. */
  function AttrSet(st: Store, id: Id, name: string, v: Value): (o: Outcome)
    requires Valid(st) && id in st && st[id].body.Attrs? && name != "parent" && ValueIn(st, v)
    ensures Valid(o.st) && o.st.Keys == st.Keys
    ensures forall i | i in st && i != id :: o.st[i].body == st[i].body
    ensures OverwriteRefused(st[id], name, v) ==> o == Outcome(Err(ValueError), st)
    ensures v == VNone ==> o.result.Ok?
    ensures name !in st[id].body.attrs || !st[id].initialized ==> o.result != Err(ValueError)
    ensures !OverwriteRefused(st[id], name, v) ==> o.st[id].body == Attrs(st[id].body.attrs[name := v])
    ensures o.result.Ok? && v.VNode? ==> o.st[v.id].parent == Some(id)
    ensures !OverwriteRefused(st[id], name, v) && v.VNode? && v.id != id
      && st[v.id].parent.Some? && st[v.id].parent != Some(id)
      ==> o.result == Err(AttributeError)
  {
    if OverwriteRefused(st[id], name, v) then Outcome(Err(ValueError), st)
    else Adopted(StoreAttr(st, id, name, v), id, v)
  }

  /** `dict.__setitem__` on the items: an existing key keeps its position
      and gets the new value, a new key is appended. */
  function DictPut(entries: seq<(Key, Value)>, k: Key, v: Value): (r: seq<(Key, Value)>)
    ensures |r| == |entries| || |r| == |entries| + 1
    ensures forall i | 0 <= i < |entries| :: r[i].0 == entries[i].0 && (r[i] == entries[i] || r[i] == (k, v))
    ensures |r| == |entries| + 1 ==> r[|entries|] == (k, v) && forall i | 0 <= i < |entries| :: entries[i].0 != k
    decreases |entries|
  {
    if entries == [] then [(k, v)]
    else if entries[0].0 == k then [(k, v)] + entries[1..]
    else [entries[0]] + DictPut(entries[1..], k, v)
  }

  lemma DictGetCons(e: (Key, Value), rest: seq<(Key, Value)>, k: Key)
    ensures DictGet([e] + rest, k) == if e.0 == k then Some(e.1) else DictGet(rest, k)
  {
    assert ([e] + rest)[1..] == rest;
  }

  /** After the put, `k` maps to the new value and every other key to what
      it mapped to before. */
  lemma {:induction false} DictPutGet(entries: seq<(Key, Value)>, k: Key, v: Value)
    ensures DictGet(DictPut(entries, k, v), k) == Some(v)
    ensures forall k2 | k2 != k :: DictGet(DictPut(entries, k, v), k2) == DictGet(entries, k2)
    decreases |entries|
  {
    if entries == [] {
    } else if entries[0].0 == k {
      DictGetCons((k, v), entries[1..], k);
      forall k2 | k2 != k
        ensures DictGet(DictPut(entries, k, v), k2) == DictGet(entries, k2)
      {
        DictGetCons((k, v), entries[1..], k2);
        DictGetCons(entries[0], entries[1..], k2);
        assert [entries[0]] + entries[1..] == entries;
      }
    } else {
      DictPutGet(entries[1..], k, v);
      assert [entries[0]] + entries[1..] == entries;
      DictGetCons(entries[0], DictPut(entries[1..], k, v), k);
      forall k2 | k2 != k
        ensures DictGet(DictPut(entries, k, v), k2) == DictGet(entries, k2)
      {
        DictGetCons(entries[0], DictPut(entries[1..], k, v), k2);
        DictGetCons(entries[0], entries[1..], k2);
      }
    }
  }

  /** The put keeps the keys unique and adds no value other than `v`. */
  lemma DictPutWf(entries: seq<(Key, Value)>, k: Key, v: Value)
    requires UniqueKeys(entries)
    ensures UniqueKeys(DictPut(entries, k, v))
    ensures BodyValues(Entries(DictPut(entries, k, v))) <= BodyValues(Entries(entries)) + {v}
  {
    var r := DictPut(entries, k, v);
    forall x | x in BodyValues(Entries(r))
      ensures x in BodyValues(Entries(entries)) + {v}
    {
      var i :| 0 <= i < |r| && r[i].1 == x;
      if i < |entries| && r[i] == entries[i] {
        assert entries[i] in entries;
      }
    }
  }

  /** Replacing one node's body keeps the store valid when the new body is
      well formed and only holds objects of the store. */
  lemma BodyReplacedValid(st: Store, id: Id, b: Body)
    requires Valid(st) && id in st && WfNode(st[id].(body := b))
    requires forall v | v in BodyValues(b) :: v.VNode? ==> v.id in st
    ensures Valid(st[id := st[id].(body := b)])
  {
  }

  /** The store with `k` of the dict `id` set to `v`, before any parent
      link is made. */
  function EntryWritten(st: Store, id: Id, k: Key, v: Value): (st1: Store)
    requires Valid(st) && id in st && st[id].body.Entries? && ValueIn(st, v)
    ensures Valid(st1) && st1.Keys == st.Keys
    ensures forall i | i in st && i != id :: st1[i] == st[i]
    ensures st1[id].body.Entries?
    ensures DictGet(st1[id].body.entries, k) == Some(v)
    ensures forall k2 :: k2 != k ==> DictGet(st1[id].body.entries, k2) == DictGet(st[id].body.entries, k2)
  {
    var n := st[id];
    assert WfNode(n);
    var entries := DictPut(n.body.entries, k, v);
    DictPutWf(n.body.entries, k, v);
    DictPutGet(n.body.entries, k, v);
    BodyReplacedValid(st, id, Entries(entries));
    st[id := n.(body := Entries(entries))]
  }

  /** `QuamDict.__setitem__(k, v)`: the reference-overwrite guard
      (`ValueError`, nothing changed), then the write, then the parent
      link. */
  function DictItemSet(st: Store, id: Id, k: Key, v: Value): (o: Outcome)
    requires Valid(st) && id in st && st[id].body.Entries? && ValueIn(st, v)
    ensures Valid(o.st) && o.st.Keys == st.Keys
    ensures forall i | i in st && i != id :: o.st[i].body == st[i].body
    ensures ItemOverwriteRefused(st[id], k, v) ==> o == Outcome(Err(ValueError), st)
    ensures v == VNone || DictGet(st[id].body.entries, k).None? || !st[id].initialized ==> o.result != Err(ValueError)
    ensures o.st[id].body.Entries?
    ensures !ItemOverwriteRefused(st[id], k, v) ==> DictGet(o.st[id].body.entries, k) == Some(v)
    ensures forall k2 :: k2 != k ==> DictGet(o.st[id].body.entries, k2) == DictGet(st[id].body.entries, k2)
    ensures v == VNone ==> o.result.Ok?
    ensures o.result.Ok? && v.VNode? ==> o.st[v.id].parent == Some(id)
    ensures !ItemOverwriteRefused(st[id], k, v) && v.VNode? && v.id != id
      && st[v.id].parent.Some? && st[v.id].parent != Some(id)
      ==> o.result == Err(AttributeError)
  {
    if ItemOverwriteRefused(st[id], k, v) then Outcome(Err(ValueError), st)
    else
      var st1 := EntryWritten(st, id, k, v);
      Adopted(st1, id, v)
  }

  /** Python's index normalisation for `list[i] = v`. */
  function ListIndex(n: nat, i: int): (r: Option<nat>)
    ensures r.Some? <==> 0 <= i + n && i < n
    ensures r.Some? ==> r.value < n && (if i < 0 then r.value == i + n else r.value == i)
  {
    if i + n < 0 || i >= n then None else if i < 0 then Some(i + n) else Some(i)
  }

  function StoreItems(st: Store, id: Id, items: seq<Value>): (st2: Store)
    requires Valid(st) && id in st && st[id].body.Items?
    requires forall v | v in items :: ValueIn(st, v)
    ensures Valid(st2) && OnlyChanged(st, st2, {id})
    ensures st2[id] == st[id].(body := Items(items))
  {
    var st2 := st[id := st[id].(body := Items(items))];
    assert forall x | x in BodyValues(Items(items)) :: ValueIn(st, x);
    assert forall i | i in st2 :: WfNode(st2[i]) by {
      assert WfNode(st[id]);
    }
    st2
  }

  /** `QuamList.__setitem__(i, v)`: `IndexError` outside `-len <= i < len`;
      otherwise the write, then the parent link. */
  function ListItemSet(st: Store, id: Id, i: int, v: Value): (o: Outcome)
    requires Valid(st) && id in st && st[id].body.Items? && ValueIn(st, v)
    ensures Valid(o.st) && o.st.Keys == st.Keys
    ensures forall i | i in st && i != id :: o.st[i].body == st[i].body
    ensures ListIndex(|st[id].body.items|, i).None? ==> o == Outcome(Err(IndexError), st)
    ensures ListIndex(|st[id].body.items|, i).Some? ==>
      o.st[id].body.Items? && o.st[id].body.items == st[id].body.items[ListIndex(|st[id].body.items|, i).value := v]
    ensures o.result.Ok? && v.VNode? ==> o.st[v.id].parent == Some(id)
  {
    var items := st[id].body.items;
    match ListIndex(|items|, i)
    case None => Outcome(Err(IndexError), st)
    case Some(j) => Adopted(StoreItems(st, id, items[j := v]), id, v)
  }

  /** Where `list.insert(i, v)` puts the value: a negative index counts
      from the end, and the result is clamped to `0..len`. */
  function InsertIndex(n: nat, i: int): (r: nat)
    ensures r <= n
    ensures 0 <= i <= n ==> r == i
    ensures 0 <= i + n && i < 0 ==> r == i + n
  {
    if i < 0 then (if i + n < 0 then 0 else i + n) else if i > n then n else i
  }

  /** `QuamList.insert(i, v)`: the parent link comes first, so a refused
      link leaves the list unchanged. */
  function ListInserted(st: Store, id: Id, i: int, v: Value): (o: Outcome)
    requires Valid(st) && id in st && st[id].body.Items? && ValueIn(st, v)
    ensures Valid(o.st) && o.st.Keys == st.Keys
    ensures o.result.Err? ==> o.st == st
    ensures o.result.Ok? ==>
      var k := InsertIndex(|st[id].body.items|, i);
      o.st[id].body.Items? && o.st[id].body.items == st[id].body.items[..k] + [v] + st[id].body.items[k..]
    ensures o.result.Ok? && v.VNode? ==> o.st[v.id].parent == Some(id)
  {
    var a := Adopted(st, id, v);
    if a.result.Err? then a
    else
      var items := a.st[id].body.items;
      var k := InsertIndex(|items|, i);
      assert a.st[id].body.items == st[id].body.items;
      Outcome(Ok(()), StoreItems(a.st, id, items[..k] + [v] + items[k..]))
  }

  /** `QuamList.append(v)` */
  function ListAppended(st: Store, id: Id, v: Value): (o: Outcome)
    requires Valid(st) && id in st && st[id].body.Items? && ValueIn(st, v)
    ensures Valid(o.st) && o.st.Keys == st.Keys
    ensures o.result.Err? ==> o.st == st
    ensures o.result.Ok? ==> o.st[id].body == Items(st[id].body.items + [v])
    ensures o.result.Ok? && v.VNode? ==> o.st[v.id].parent == Some(id)
  {
    var a := Adopted(st, id, v);
    if a.result.Err? then a
    else Outcome(Ok(()), StoreItems(a.st, id, a.st[id].body.items + [v]))
  }

  /** The parent links `QuamList.extend(vs)` makes before it extends: one
      per object, stopping at the first refused link. */
  function AdoptAll(st: Store, holder: Id, vs: seq<Value>): (o: Outcome)
    requires Valid(st) && holder in st && forall v | v in vs :: ValueIn(st, v)
    ensures Valid(o.st) && o.st.Keys == st.Keys
    ensures forall id | id in st :: o.st[id].body == st[id].body
    ensures forall id | id in st :: o.st[id].parent in {st[id].parent, Some(holder)}
    ensures o.result.Ok? ==> forall v | v in vs && v.VNode? :: v.id in o.st && o.st[v.id].parent == Some(holder)
    decreases |vs|
  {
    if vs == [] then Outcome(Ok(()), st)
    else
      var a := Adopted(st, holder, vs[0]);
      if a.result.Err? then a
      else
        forall v | v in vs[1..]
          ensures ValueIn(a.st, v)
        {
          assert v in vs && ValueIn(st, v);
          if v.VNode? { assert v.id in st.Keys; }
        }
        var rest := AdoptAll(a.st, holder, vs[1..]);
        assert forall v | v in vs[1..] && v.VNode? && rest.result.Ok? :: rest.st[v.id].parent == Some(holder);
        rest
  }

  /** One step of `AdoptAll`: the first link, then the rest. */
  lemma AdoptAllStep(st: Store, holder: Id, vs: seq<Value>)
    requires Valid(st) && holder in st && forall v | v in vs :: ValueIn(st, v)
    requires vs != []
    ensures Adopted(st, holder, vs[0]).result.Err? ==> AdoptAll(st, holder, vs) == Adopted(st, holder, vs[0])
    ensures Adopted(st, holder, vs[0]).result.Ok? ==>
      forall v | v in vs[1..] :: ValueIn(Adopted(st, holder, vs[0]).st, v)
    ensures Adopted(st, holder, vs[0]).result.Ok? ==>
      AdoptAll(st, holder, vs) == AdoptAll(Adopted(st, holder, vs[0]).st, holder, vs[1..])
  {
    forall v | v in vs[1..]
      ensures ValueIn(Adopted(st, holder, vs[0]).st, v)
    {
      assert v in vs;
    }
  }

  /** `AdoptAllStep` at position `i` of `vs`. */
  lemma AdoptAllAt(st: Store, holder: Id, vs: seq<Value>, i: nat)
    requires Valid(st) && holder in st && forall v | v in vs :: ValueIn(st, v)
    requires i < |vs|
    ensures forall v | v in vs[i..] :: ValueIn(st, v)
    ensures Adopted(st, holder, vs[i]).result.Err? ==> AdoptAll(st, holder, vs[i..]) == Adopted(st, holder, vs[i])
    ensures Adopted(st, holder, vs[i]).result.Ok? ==>
      && (forall v | v in vs[i + 1..] :: ValueIn(Adopted(st, holder, vs[i]).st, v))
      && AdoptAll(st, holder, vs[i..]) == AdoptAll(Adopted(st, holder, vs[i]).st, holder, vs[i + 1..])
  {
    assert forall v | v in vs[i..] :: v in vs;
    AdoptAllStep(st, holder, vs[i..]);
    assert vs[i..][0] == vs[i] && vs[i..][1..] == vs[i + 1..];
  }

  /** Once every link is made, `extend` stores the elements. */
  lemma ExtendTail(st0: Store, st: Store, id: Id, vs: seq<Value>)
    requires Valid(st0) && id in st0 && st0[id].body.Items? && forall v | v in vs :: ValueIn(st0, v)
    requires Valid(st) && st.Keys == st0.Keys && st[id].body == st0[id].body
    requires AdoptAll(st0, id, vs).result.Ok? && AdoptAll(st0, id, vs).st == st
    ensures forall v | v in st[id].body.items + vs :: ValueIn(st, v)
    ensures ListExtended(st0, id, vs) == Outcome(Ok(()), StoreItems(st, id, st[id].body.items + vs))
  {
    assert WfNode(st[id]);
    forall v | v in st[id].body.items + vs
      ensures ValueIn(st, v)
    {
      if v in st[id].body.items {
        assert v in BodyValues(st[id].body);
      }
    }
  }

  /** `QuamList.extend(vs)`: all links first, then the elements. */
  function ListExtended(st: Store, id: Id, vs: seq<Value>): (o: Outcome)
    requires Valid(st) && id in st && st[id].body.Items? && forall v | v in vs :: ValueIn(st, v)
    ensures Valid(o.st) && o.st.Keys == st.Keys
    ensures o.result.Err? ==> o.st[id].body == st[id].body
    ensures o.result.Ok? ==> o.st[id].body == Items(st[id].body.items + vs)
  {
    var a := AdoptAll(st, id, vs);
    if a.result.Err? then a
    else Outcome(Ok(()), StoreItems(a.st, id, a.st[id].body.items + vs))
  }

  /** Every reference string stored anywhere before is still stored at the
      same place. */
  ghost predicate KeepsReferences(b: Body, b2: Body) {
    match b
    case Attrs(attrs) =>
      b2.Attrs? && forall k | k in attrs && IsReference(attrs[k]) :: k in b2.attrs && b2.attrs[k] == attrs[k]
    case Entries(entries) =>
      b2.Entries? && forall k | DictGet(entries, k).Some? && IsReference(DictGet(entries, k).value) ::
        DictGet(b2.entries, k) == DictGet(entries, k)
    case Items(items) =>
      b2.Items? && forall i | 0 <= i < |items| && IsReference(items[i]) :: i < |b2.items| && b2.items[i] == items[i]
  }

  ghost predicate ReferencesIntact(st: Store, st2: Store) {
    forall id | id in st :: id in st2 && KeepsReferences(st[id].body, st2[id].body)
  }

  lemma KeepsReferencesRefl(b: Body)
    ensures KeepsReferences(b, b)
  {
  }

  lemma OthersKeepReferences(st: Store, st2: Store, t: Id)
    requires st2.Keys == st.Keys
    requires forall i | i in st && i != t :: st2[i].body == st[i].body
    requires t in st && KeepsReferences(st[t].body, st2[t].body)
    ensures ReferencesIntact(st, st2)
  {
    forall i | i in st
      ensures KeepsReferences(st[i].body, st2[i].body)
    {
      if i != t {
        KeepsReferencesRefl(st[i].body);
      }
    }
  }

  /** Dict keys that `QuamDict.__setattr__` hands to the object itself
      instead of the items. */
  const DictOwnNames: set<string> := {"data", "parent", "config_settings", "_initialized"}

  lemma AttrSetKeepsReferences(st: Store, t: Id, name: string, v: Value)
    requires Valid(st) && t in st && st[t].body.Attrs? && name != "parent" && ValueIn(st, v)
    requires name in st[t].body.attrs
    ensures !IsReference(st[t].body.attrs[name]) ==> ReferencesIntact(st, AttrSet(st, t, name, v).st)
  {
    if !IsReference(st[t].body.attrs[name]) {
      OthersKeepReferences(st, AttrSet(st, t, name, v).st, t);
    }
  }

  lemma DictItemSetKeepsReferences(st: Store, t: Id, k: Key, v: Value)
    requires Valid(st) && t in st && st[t].body.Entries? && ValueIn(st, v)
    requires DictGet(st[t].body.entries, k).Some?
    ensures !IsReference(DictGet(st[t].body.entries, k).value) ==> ReferencesIntact(st, DictItemSet(st, t, k, v).st)
  {
    if !IsReference(DictGet(st[t].body.entries, k).value) {
      OthersKeepReferences(st, DictItemSet(st, t, k, v).st, t);
    }
  }

  lemma ListItemSetKeepsReferences(st: Store, t: Id, i: nat, v: Value)
    requires Valid(st) && t in st && st[t].body.Items? && ValueIn(st, v)
    requires i < |st[t].body.items|
    ensures !IsReference(st[t].body.items[i]) ==> ReferencesIntact(st, ListItemSet(st, t, i, v).st)
  {
    if !IsReference(st[t].body.items[i]) {
      OthersKeepReferences(st, ListItemSet(st, t, i, v).st, t);
    }
  }

  /** Whether `setattr` on a dict sets the dict's own parent link: the name
      is `parent` and the value is an object or `None`. */
  predicate SetsDictParent(n: Node, name: string, v: Value) {
    n.body.Entries? && name == "parent" && (v.VNode? || v == VNone)
  }

  /** `setattr(obj, name, v)` for a slot that exists: a field of a dataclass
      object, a string key of a dict, or a digit index of a list. On a dict
      the names `data`, `parent`, `config_settings` and `_initialized` go to
      the dict object itself: `parent` is its parent link; the others, and a
      `parent` that is neither an object nor `None`, are attributes the
      store has no place for, and leave it as it is. */
  function SlotSet(st: Store, t: Id, name: string, v: Value): (o: Outcome)
    requires Valid(st) && t in st && ValueIn(st, v) && RawValue(st[t], KStr(name)).Ok?
    ensures Valid(o.st) && o.st.Keys == st.Keys
    ensures !IsReference(RawValue(st[t], KStr(name)).value) ==> ReferencesIntact(st, o.st)
    ensures o.result.Ok? && !(st[t].body.Entries? && name in DictOwnNames)
      ==> RawValue(o.st[t], KStr(name)) == Ok(v)
    ensures SetsDictParent(st[t], name, v) ==> o == ParentSet(st, t, if v.VNode? then Some(v.id) else None)
    ensures st[t].body.Entries? && name in DictOwnNames && !SetsDictParent(st[t], name, v) ==> o == Outcome(Ok(()), st)
  {
    match st[t].body
    case Attrs(attrs) =>
      assert WfNode(st[t]);
      AttrSetKeepsReferences(st, t, name, v);
      AttrSet(st, t, name, v)
    case Entries(entries) =>
      if SetsDictParent(st[t], name, v) then
        var o := ParentSet(st, t, if v.VNode? then Some(v.id) else None);
        KeepsReferencesRefl(st[t].body);
        OthersKeepReferences(st, o.st, t);
        o
      else if name in DictOwnNames then
        OthersKeepReferences(st, st, t);
        Outcome(Ok(()), st)
      else
        DictItemSetKeepsReferences(st, t, KStr(name), v);
        DictItemSet(st, t, KStr(name), v)
    case Items(items) =>
      ListItemSetKeepsReferences(st, t, DigitsValue(name), v);
      ListItemSet(st, t, DigitsValue(name), v)
  }

  /** The slot `set_at_reference(attr, ...)` writes: `attr` itself when it
      holds a plain value (only with `allowNonReference`), otherwise the
      slot named by its reference, followed again while that slot holds a
      reference. */
  function WriteTarget(st: Store, id: Id, attr: string, allowNonReference: bool, ctx: Ctx, fuel: nat)
    : (r: Result<(Id, string)>)
    requires Valid(st) && id in st && CtxIn(st, ctx)
    ensures r.Ok? ==> r.value.0 in st && RawValue(st[r.value.0], KStr(r.value.1)).Ok?
    ensures r.Ok? ==> !IsReference(RawValue(st[r.value.0], KStr(r.value.1)).value)
    ensures RawValue(st[id], KStr(attr)).Err? ==> r == Err(AttributeError)
    ensures RawValue(st[id], KStr(attr)).Ok? && !IsReference(RawValue(st[id], KStr(attr)).value)
      ==> r == if allowNonReference then Ok((id, attr)) else Err(ValueError)
    decreases fuel
  {
    var raw :- RawValue(st[id], KStr(attr));
    if !IsReference(raw) then
      if allowNonReference then Ok((id, attr)) else Err(ValueError)
    else
      var (parentRef, refAttr) := SplitReference(raw.s);
      if refAttr == "" then Err(ValueError)
      else
        var parentObj :- Resolve(st, id, parentRef, ctx, fuel);
        if !parentObj.VNode? then Err(AttributeError)
        else
          var rawRef :- RawValue(st[parentObj.id], KStr(refAttr));
          if !IsReference(rawRef) then Ok((parentObj.id, refAttr))
          else if fuel == 0 then Err(RecursionError)
          else WriteTarget(st, parentObj.id, refAttr, false, ctx, fuel - 1)
  }

  /** `QuamBase.set_at_reference(attr, value, allow_non_reference)`: the
      write lands in the slot `WriteTarget` finds, so no reference string
      is ever overwritten. */
  function AtReferenceSet(st: Store, id: Id, attr: string, v: Value, allowNonReference: bool, ctx: Ctx, fuel: nat)
    : (o: Outcome)
    requires Valid(st) && id in st && CtxIn(st, ctx) && ValueIn(st, v)
    ensures Valid(o.st) && o.st.Keys == st.Keys
    ensures ReferencesIntact(st, o.st)
    ensures WriteTarget(st, id, attr, allowNonReference, ctx, fuel).Err? ==>
      o == Outcome(Err(WriteTarget(st, id, attr, allowNonReference, ctx, fuel).error), st)
    ensures RawValue(st[id], KStr(attr)).Ok? && !IsReference(RawValue(st[id], KStr(attr)).value) ==>
      o == if allowNonReference then SlotSet(st, id, attr, v) else Outcome(Err(ValueError), st)
  {
    match WriteTarget(st, id, attr, allowNonReference, ctx, fuel)
    case Err(e) =>
      assert ReferencesIntact(st, st) by {
        forall i | i in st ensures KeepsReferences(st[i].body, st[i].body) { KeepsReferencesRefl(st[i].body); }
      }
      Outcome(Err(e), st)
    case Ok(slot) => SlotSet(st, slot.0, slot.1, v)
  }

  /** The objects of one quam tree, written in place. `lastRoot` is
      `QuamBase._last_instantiated_root`. */
  class Tree {
    var nodes: Store
    var lastRoot: Option<Id>

    predicate Valid()
      reads this
    {
      QuamModel.Valid(nodes) && (lastRoot.Some? ==> lastRoot.value in nodes)
    }

    constructor(st: Store)
      requires QuamModel.Valid(st)
      ensures Valid() && nodes == st && lastRoot == None
    {
      nodes := st;
      lastRoot := None;
    }

    /** `ReferenceClass.__post_init__`, and for a root also
        `QuamRoot.__post_init__`, which records the root first. */
    method PostInit(id: Id)
      requires Valid() && id in nodes
      modifies this
      ensures Valid()
      ensures nodes == old(nodes)[id := old(nodes)[id].(initialized := true)]
      ensures lastRoot == if old(nodes)[id].kind.Root? then Some(id) else old(lastRoot)
    {
      if nodes[id].kind.Root? {
        lastRoot := Some(id);
      }
      nodes := nodes[id := nodes[id].(initialized := true)];
    }

    /** `child.parent = value` */
    method SetParent(child: Id, value: Option<Id>) returns (r: Result<()>)
      requires Valid() && child in nodes && (value.Some? ==> value.value in nodes)
      modifies this
      ensures Valid() && lastRoot == old(lastRoot)
      ensures Outcome(r, nodes) == ParentSet(old(nodes), child, value)
    {
      var current := nodes[child].parent;
      if value.Some? && current.Some? && current != value {
        return Err(AttributeError);
      }
      nodes := nodes[child := nodes[child].(parent := value)];
      r := Ok(());
    }

    /** Links an object value to the node now holding it. */
    method Adopt(holder: Id, v: Value) returns (r: Result<()>)
      requires Valid() && holder in nodes && ValueIn(nodes, v)
      modifies this
      ensures Valid() && lastRoot == old(lastRoot)
      ensures Outcome(r, nodes) == Adopted(old(nodes), holder, v)
    {
      if v.VNode? {
        r := SetParent(v.id, Some(holder));
      } else {
        r := Ok(());
      }
    }

    /** `obj.name = v` on a dataclass object (`QuamComponent` or `QuamRoot`). */
    method SetAttr(id: Id, name: string, v: Value) returns (r: Result<()>)
      requires Valid() && id in nodes && nodes[id].body.Attrs? && name != "parent" && ValueIn(nodes, v)
      modifies this
      ensures Valid() && lastRoot == old(lastRoot)
      ensures Outcome(r, nodes) == AttrSet(old(nodes), id, name, v)
    {
      var n := nodes[id];
      if OverwriteRefused(n, name, v) {
        return Err(ValueError);
      }
      nodes := StoreAttr(nodes, id, name, v);
      r := Adopt(id, v);
    }

    /** `d[k] = v` on a `QuamDict`. */
    method DictSetItem(id: Id, k: Key, v: Value) returns (r: Result<()>)
      requires Valid() && id in nodes && nodes[id].body.Entries? && ValueIn(nodes, v)
      modifies this
      ensures Valid() && lastRoot == old(lastRoot)
      ensures Outcome(r, nodes) == DictItemSet(old(nodes), id, k, v)
    {
      if ItemOverwriteRefused(nodes[id], k, v) {
        return Err(ValueError);
      }
      nodes := EntryWritten(nodes, id, k, v);
      r := Adopt(id, v);
    }

    /** `l[i] = v` on a `QuamList`. */
    method ListSetItem(id: Id, i: int, v: Value) returns (r: Result<()>)
      requires Valid() && id in nodes && nodes[id].body.Items? && ValueIn(nodes, v)
      modifies this
      ensures Valid() && lastRoot == old(lastRoot)
      ensures Outcome(r, nodes) == ListItemSet(old(nodes), id, i, v)
    {
      var items := nodes[id].body.items;
      var j := ListIndex(|items|, i);
      if j.None? {
        return Err(IndexError);
      }
      nodes := StoreItems(nodes, id, items[j.value := v]);
      r := Adopt(id, v);
    }

    /** `l.append(v)` */
    method Append(id: Id, v: Value) returns (r: Result<()>)
      requires Valid() && id in nodes && nodes[id].body.Items? && ValueIn(nodes, v)
      modifies this
      ensures Valid() && lastRoot == old(lastRoot)
      ensures Outcome(r, nodes) == ListAppended(old(nodes), id, v)
    {
      r := Adopt(id, v);
      if r.Err? {
        return;
      }
      nodes := StoreItems(nodes, id, nodes[id].body.items + [v]);
    }

    /** `l.insert(i, v)` */
    method Insert(id: Id, i: int, v: Value) returns (r: Result<()>)
      requires Valid() && id in nodes && nodes[id].body.Items? && ValueIn(nodes, v)
      modifies this
      ensures Valid() && lastRoot == old(lastRoot)
      ensures Outcome(r, nodes) == ListInserted(old(nodes), id, i, v)
    {
      r := Adopt(id, v);
      if r.Err? {
        return;
      }
      var items := nodes[id].body.items;
      var k := InsertIndex(|items|, i);
      nodes := StoreItems(nodes, id, items[..k] + [v] + items[k..]);
    }

    /** `l.extend(vs)`: one parent link per object value, then the
        elements all at once. */
    method Extend(id: Id, vs: seq<Value>) returns (r: Result<()>)
      requires Valid() && id in nodes && nodes[id].body.Items? && forall v | v in vs :: ValueIn(nodes, v)
      modifies this
      ensures Valid() && lastRoot == old(lastRoot)
      ensures Outcome(r, nodes) == ListExtended(old(nodes), id, vs)
    {
      ghost var st0 := nodes;
      r := AdoptEach(id, vs);
      if r.Err? {
        return;
      }
      ExtendTail(st0, nodes, id, vs);
      nodes := StoreItems(nodes, id, nodes[id].body.items + vs);
      r := Ok(());
    }

    /** The parent links `extend` makes, one value at a time. */
    method AdoptEach(id: Id, vs: seq<Value>) returns (r: Result<()>)
      requires Valid() && id in nodes && nodes[id].body.Items? && forall v | v in vs :: ValueIn(nodes, v)
      modifies this
      ensures Valid() && lastRoot == old(lastRoot)
      ensures nodes.Keys == old(nodes).Keys && nodes[id].body == old(nodes)[id].body
      ensures Outcome(r, nodes) == AdoptAll(old(nodes), id, vs)
    {
      var i := 0;
      r := Ok(());
      while i < |vs|
        invariant 0 <= i <= |vs|
        invariant Valid() && lastRoot == old(lastRoot)
        invariant nodes.Keys == old(nodes).Keys
        invariant nodes[id].body == old(nodes)[id].body
        invariant forall v | v in vs :: ValueIn(nodes, v)
        invariant AdoptAll(old(nodes), id, vs) == AdoptAll(nodes, id, vs[i..])
        invariant r == Ok(())
      {
        AdoptAllAt(nodes, id, vs, i);
        r := Adopt(id, vs[i]);
        if r.Err? {
          return;
        }
        i := i + 1;
      }
      assert vs[i..] == [];
    }

    /** `setattr(obj, name, v)` on an existing slot. */
    method SetSlot(t: Id, name: string, v: Value) returns (r: Result<()>)
      requires Valid() && t in nodes && ValueIn(nodes, v) && RawValue(nodes[t], KStr(name)).Ok?
      modifies this
      ensures Valid() && lastRoot == old(lastRoot)
      ensures Outcome(r, nodes) == SlotSet(old(nodes), t, name, v)
    {
      assert WfNode(nodes[t]);
      match nodes[t].body
      case Attrs(_) =>
        r := SetAttr(t, name, v);
      case Entries(_) =>
        if SetsDictParent(nodes[t], name, v) {
          r := SetParent(t, if v.VNode? then Some(v.id) else None);
        } else if name in DictOwnNames {
          r := Ok(());
        } else {
          r := DictSetItem(t, KStr(name), v);
        }
      case Items(_) =>
        r := ListSetItem(t, DigitsValue(name), v);
    }

    /** `obj.set_at_reference(attr, v, allow_non_reference)`;
        `raiseErrorMissingReference` is the quam config flag read while
        resolving and `props` the properties of the classes. Every recursive call of the Python code only reads until the
        last one writes, so the reads are `WriteTarget` and the one write
        is `SetSlot`. */
    method SetAtReference(id: Id, attr: string, v: Value, allowNonReference: bool,
                          raiseErrorMissingReference: bool, props: Props, fuel: nat) returns (r: Result<()>)
      requires Valid() && id in nodes && ValueIn(nodes, v) && PropsWf(props)
      modifies this
      ensures Valid() && lastRoot == old(lastRoot)
      ensures Outcome(r, nodes) ==
        AtReferenceSet(old(nodes), id, attr, v, allowNonReference, Ctx(raiseErrorMissingReference, old(lastRoot), props), fuel)
    {
      var target := WriteTarget(nodes, id, attr, allowNonReference, Ctx(raiseErrorMissingReference, lastRoot, props), fuel);
      if target.Err? {
        return Err(target.error);
      }
      r := SetSlot(target.value.0, target.value.1, v);
    }
  }
}

/** JSON-like Python values: the nested dicts and lists that quam flattens
    its tree into, stores in files and builds the QUA config from. */
module JsonValue {
  import opened Wrappers
  import opened Strings

  /** A dict key: Python dicts in quam are keyed by strings or ints. */
  datatype Key = KStr(s: string) | KInt(i: int)

  /** `str(key)`, as used in reference strings. */
  function KeyStr(k: Key): string {
    match k
    case KStr(s) => s
    case KInt(i) => IntToString(i)
  }

  /** Dict key order is not modelled: an object is a map. */
  datatype Json =
    | JNull
    | JBool(b: bool)
    | JInt(i: int)
    | JFloat(f: real)
    | JStr(s: string)
    | JList(items: seq<Json>)
    | JTuple(items: seq<Json>)
    | JObj(fields: map<Key, Json>)

  type Obj = map<Key, Json>

  /** `s` occurs in `t` at position `i`. */
  predicate InfixAt(s: string, t: string, i: int) {
    0 <= i <= |t| - |s| && t[i..i + |s|] == s
  }

  /** `s` occurs in `t` as a contiguous piece. */
  function IsInfix(s: string, t: string): (r: bool)
    ensures r <==> exists i :: InfixAt(s, t, i)
    decreases |t|
  {
    if StartsWith(t, s) then
      assert InfixAt(s, t, 0);
      true
    else if t == [] then
      assert forall i :: !InfixAt(s, t, i);
      false
    else
      var r := IsInfix(s, t[1..]);
      assert r ==> exists i :: InfixAt(s, t, i) by {
        if r {
          var i :| InfixAt(s, t[1..], i);
          assert t[1..][i..i + |s|] == t[i + 1..i + 1 + |s|];
          assert InfixAt(s, t, i + 1);
        }
      }
      assert (exists i :: InfixAt(s, t, i)) ==> r by {
        if exists i :: InfixAt(s, t, i) {
          var i :| InfixAt(s, t, i);
          assert i != 0;
          assert t[1..][i - 1..i - 1 + |s|] == t[i..i + |s|];
          assert InfixAt(s, t[1..], i - 1);
        }
      }
      r
  }

  /** Python's `s in container` for a string `s`: a dict tests its keys, a
      list or tuple its items, a string its substrings; any other value is
      not iterable (`TypeError`). */
  function ContainsStr(container: Json, s: string): (r: Result<bool>)
    ensures r.Err? <==> !(container.JObj? || container.JList? || container.JTuple? || container.JStr?)
    ensures r.Err? ==> r.error == TypeError
    ensures container.JObj? ==> r == Ok(KStr(s) in container.fields)
    ensures container.JList? || container.JTuple? ==> r == Ok(JStr(s) in container.items)
    ensures container.JStr? ==> r == Ok(IsInfix(s, container.s))
  {
    match container
    case JObj(fields) => Ok(KStr(s) in fields)
    case JList(items) => Ok(JStr(s) in items)
    case JTuple(items) => Ok(JStr(s) in items)
    case JStr(t) => Ok(IsInfix(s, t))
    case _ => Err(TypeError)
  }

  /** `d[path[0]][path[1]]...`: `KeyError` for a missing key, `TypeError`
      when an intermediate value is not a dict. */
  function Lookup(m: Obj, path: seq<Key>): (r: Result<Json>)
    requires path != []
    ensures |path| == 1 ==> (r.Ok? <==> path[0] in m)
    decreases |path|
  {
    if path[0] !in m then Err(KeyError)
    else if |path| == 1 then Ok(m[path[0]])
    else if !m[path[0]].JObj? then Err(TypeError)
    else Lookup(m[path[0]].fields, path[1..])
  }

  /** `d[path[0]]...[path[n-1]] = v`; every dict on the way must exist. */
  function Update(m: Obj, path: seq<Key>, v: Json): (r: Result<Obj>)
    requires path != []
    ensures r.Ok? ==> Lookup(r.value, path) == Ok(v)
    ensures r.Ok? ==> r.value.Keys == m.Keys + {path[0]}
    ensures |path| == 1 ==> r == Ok(m[path[0] := v])
    decreases |path|
  {
    if |path| == 1 then Ok(m[path[0] := v])
    else if path[0] !in m then Err(KeyError)
    else if !m[path[0]].JObj? then Err(TypeError)
    else
      var inner :- Update(m[path[0]].fields, path[1..], v);
      Ok(m[path[0] := JObj(inner)])
  }

  /** The chain `d.setdefault(path[0], {}).setdefault(path[1], {})...`:
      creates the missing dicts, keeps existing ones, and fails with
      `AttributeError` when an existing value on the way is not a dict. */
  function SetDefaultDicts(m: Obj, path: seq<Key>): (r: Result<Obj>)
    ensures r.Ok? ==> m.Keys <= r.value.Keys
    ensures r.Err? ==> r.error == AttributeError
    ensures r.Ok? && path != [] ==> Lookup(r.value, path).Ok? && Lookup(r.value, path).value.JObj?
    decreases |path|
  {
    if path == [] then Ok(m)
    else
      var child := if path[0] in m then m[path[0]] else JObj(map[]);
      if !child.JObj? then Err(AttributeError)
      else
        var inner :- SetDefaultDicts(child.fields, path[1..]);
        Ok(m[path[0] := JObj(inner)])
  }

  lemma {:induction false} SetDefaultDictsKeepsExisting(m: Obj, path: seq<Key>)
    requires path != [] && Lookup(m, path).Ok? && Lookup(m, path).value.JObj?
    ensures SetDefaultDicts(m, path) == Ok(m)
    decreases |path|
  {
    if |path| > 1 {
      SetDefaultDictsKeepsExisting(m[path[0]].fields, path[1..]);
    } else {
      assert SetDefaultDicts(m[path[0]].fields, []) == Ok(m[path[0]].fields);
    }
    assert m[path[0] := JObj(m[path[0]].fields)] == m;
  }

  /** Writing back the value already stored at `path` changes nothing. */
  lemma {:induction false} UpdateSame(m: Obj, path: seq<Key>, v: Json)
    requires path != [] && Lookup(m, path) == Ok(v)
    ensures Update(m, path, v) == Ok(m)
    decreases |path|
  {
    if |path| > 1 {
      UpdateSame(m[path[0]].fields, path[1..], v);
      assert m[path[0] := JObj(m[path[0]].fields)] == m;
    } else {
      assert m[path[0] := v] == m;
    }
  }

  /** Where a lookup succeeds, an update at the same path succeeds. */
  lemma {:induction false} UpdateWhereFound(m: Obj, path: seq<Key>, v: Json)
    requires path != [] && Lookup(m, path).Ok?
    ensures Update(m, path, v).Ok?
    decreases |path|
  {
    if |path| > 1 {
      UpdateWhereFound(m[path[0]].fields, path[1..], v);
    }
  }

  /** An update at `path` leaves every other top-level entry alone. */
  lemma UpdateSibling(m: Obj, path: seq<Key>, v: Json, k: Key)
    requires path != [] && Update(m, path, v).Ok? && k != path[0]
    ensures k in Update(m, path, v).value <==> k in m
    ensures k in m ==> Update(m, path, v).value[k] == m[k]
  {
  }

  /** Along the way to `path`, an update keeps every dict a dict and every
      entry off the path as it was. */
  lemma {:induction false} UpdateAlongPath(m: Obj, path: seq<Key>, v: Json, n: nat, k: Key)
    requires path != [] && Update(m, path, v).Ok? && 1 <= n < |path| && k != path[n]
    ensures Lookup(Update(m, path, v).value, path[..n]).Ok?
    ensures Lookup(Update(m, path, v).value, path[..n]).value.JObj?
    ensures Lookup(Update(m, path, v).value, path[..n] + [k]) == Lookup(m, path[..n] + [k])
    decreases n
  {
    var r := Update(m, path, v).value;
    var inner := Update(m[path[0]].fields, path[1..], v);
    assert r == m[path[0] := JObj(inner.value)];
    if n == 1 {
      assert path[..n] == [path[0]];
      assert (path[..n] + [k])[1..] == [k];
      UpdateSibling(m[path[0]].fields, path[1..], v, k);
    } else {
      UpdateAlongPath(m[path[0]].fields, path[1..], v, n - 1, k);
      assert path[..n][1..] == path[1..][..n - 1];
      assert (path[..n] + [k])[1..] == path[1..][..n - 1] + [k];
    }
  }

  /** Lookups along a prefix of a path that resolves all go through dicts. */
  lemma {:induction false} LookupPrefix(m: Obj, path: seq<Key>, k: Key)
    requires path != [] && Lookup(m, path + [k]).Ok?
    ensures Lookup(m, path).Ok? && Lookup(m, path).value.JObj?
    ensures k in Lookup(m, path).value.fields
    ensures Lookup(m, path + [k]) == Ok(Lookup(m, path).value.fields[k])
    decreases |path|
  {
    assert (path + [k])[0] == path[0];
    if |path| > 1 {
      assert (path + [k])[1..] == path[1..] + [k];
      LookupPrefix(m[path[0]].fields, path[1..], k);
    } else {
      assert (path + [k])[1..] == [k];
    }
  }

  /** One more step from a dict that `path` reaches. */
  lemma {:induction false} LookupExtend(m: Obj, path: seq<Key>, k: Key)
    requires path != [] && Lookup(m, path).Ok? && Lookup(m, path).value.JObj?
    ensures Lookup(m, path + [k])
      == (if k in Lookup(m, path).value.fields then Ok(Lookup(m, path).value.fields[k]) else Err(KeyError))
    decreases |path|
  {
    assert (path + [k])[0] == path[0];
    if |path| > 1 {
      assert (path + [k])[1..] == path[1..] + [k];
      LookupExtend(m[path[0]].fields, path[1..], k);
    } else {
      assert (path + [k])[1..] == [k];
    }
  }

  /** Going one step below a value that is not a dict is a `TypeError`. */
  lemma {:induction false} LookupBelowNonDict(m: Obj, path: seq<Key>, k: Key)
    requires path != [] && Lookup(m, path).Ok? && !Lookup(m, path).value.JObj?
    ensures Lookup(m, path + [k]) == Err(TypeError)
    decreases |path|
  {
    assert (path + [k])[0] == path[0];
    if |path| > 1 {
      assert (path + [k])[1..] == path[1..] + [k];
      LookupBelowNonDict(m[path[0]].fields, path[1..], k);
    }
  }

  /** A lookup that fails fails the same way for any longer path. */
  lemma {:induction false} LookupFailsBelow(m: Obj, path: seq<Key>, k: Key)
    requires path != [] && Lookup(m, path).Err?
    ensures Lookup(m, path + [k]) == Lookup(m, path)
    decreases |path|
  {
    assert (path + [k])[0] == path[0];
    if |path| > 1 && path[0] in m && m[path[0]].JObj? {
      assert (path + [k])[1..] == path[1..] + [k];
      LookupFailsBelow(m[path[0]].fields, path[1..], k);
    }
  }

  /** Adding one entry to a dict that `path` reaches. */
  lemma {:induction false} UpdateUnder(m: Obj, path: seq<Key>, k: Key, v: Json)
    requires path != [] && Lookup(m, path).Ok? && Lookup(m, path).value.JObj?
    ensures Update(m, path + [k], v).Ok?
    ensures Lookup(Update(m, path + [k], v).value, path) == Ok(JObj(Lookup(m, path).value.fields[k := v]))
    decreases |path|
  {
    assert (path + [k])[0] == path[0];
    if |path| > 1 {
      assert (path + [k])[1..] == path[1..] + [k];
      UpdateUnder(m[path[0]].fields, path[1..], k, v);
    } else {
      assert (path + [k])[1..] == [k];
    }
  }

  /** A second update at the same path replaces the first. */
  lemma {:induction false} UpdateTwice(m: Obj, path: seq<Key>, x: Json, y: Json)
    requires path != [] && Update(m, path, x).Ok?
    ensures Update(Update(m, path, x).value, path, y) == Update(m, path, y)
    decreases |path|
  {
    if |path| > 1 {
      UpdateTwice(m[path[0]].fields, path[1..], x, y);
      var inner := Update(m[path[0]].fields, path[1..], x).value;
      assert Update(m, path, x).value[path[0]] == JObj(inner);
      if Update(m, path, y).Ok? {
        var innerY := Update(m[path[0]].fields, path[1..], y).value;
        assert m[path[0] := JObj(inner)][path[0] := JObj(innerY)] == m[path[0] := JObj(innerY)];
      }
    } else {
      assert m[path[0] := x][path[0] := y] == m[path[0] := y];
    }
  }

  /** Writing one entry of a dict that `path` reaches is writing the whole
      dict with that entry changed. */
  lemma {:induction false} UpdateChild(m: Obj, path: seq<Key>, k: Key, v: Json)
    requires path != [] && Lookup(m, path).Ok? && Lookup(m, path).value.JObj?
    ensures Update(m, path + [k], v) == Update(m, path, JObj(Lookup(m, path).value.fields[k := v]))
    decreases |path|
  {
    assert (path + [k])[0] == path[0];
    if |path| > 1 {
      assert (path + [k])[1..] == path[1..] + [k];
      UpdateChild(m[path[0]].fields, path[1..], k, v);
    } else {
      assert (path + [k])[1..] == [k];
    }
  }

  /** An update leaves every path that branches off its own path alone. */
  lemma {:induction false} UpdateDisjoint(m: Obj, p: seq<Key>, v: Json, q: seq<Key>, i: nat)
    requires i < |p| && i < |q| && p[..i] == q[..i] && p[i] != q[i]
    requires Update(m, p, v).Ok?
    ensures Lookup(Update(m, p, v).value, q) == Lookup(m, q)
    decreases i
  {
    if i > 0 {
      assert p[0] == p[..i][0] == q[..i][0] == q[0];
      var inner := Update(m[p[0]].fields, p[1..], v);
      assert p[1..][..i - 1] == p[..i][1..] == q[..i][1..] == q[1..][..i - 1];
      UpdateDisjoint(m[p[0]].fields, p[1..], v, q[1..], i - 1);
    }
  }

  /** A Python dict object that the modelled code mutates in place. */
  class Dict {
    var data: Obj

    constructor (d: Obj)
      ensures data == d
    {
      data := d;
    }

    /** `d.pop(k)`, raising `KeyError` when `k` is missing. */
    method Pop(k: Key) returns (r: Result<Json>)
      modifies this
      ensures r.Ok? <==> k in old(data)
      ensures r.Ok? ==> r.value == old(data)[k] && data == old(data) - {k}
      ensures r.Err? ==> r.error == KeyError && data == old(data)
    {
      if k in data {
        r := Ok(data[k]);
        data := data - {k};
      } else {
        r := Err(KeyError);
      }
    }
  }
}

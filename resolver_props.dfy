/** Properties of reference resolution: self references fall back to the
    raw string at any recursion depth, chains are followed one hop per
    lookup, and the reference `get_reference` computes for an object walks
    back to that very object from the root. */
module ResolverProps {
  import opened Wrappers
  import opened Strings
  import opened Values
  import opened JsonValue
  import opened StringReference
  import opened QuamModel
  import opened Resolver

  /** A name that survives the walk as one segment: not empty, no `/`, not
      starting with a stripped `#`, and not one of the `.` / `..` steps. */
  predicate SimpleName(s: string) {
    s != [] && '/' !in s && s[0] != '#' && s != "." && s != ".."
  }

  lemma DigitsAreSimple(s: string)
    requires IsDigits(s)
    ensures SimpleName(s)
  {
    assert IsDigitChar(s[0]);
    forall i | 0 <= i < |s| ensures s[i] != '/' {
      assert IsDigitChar(s[i]);
    }
  }

  /** Walking a simple name: the leading strip and the `./` / `../` tests
      leave it alone, and it is the whole first segment. */
  lemma SimpleNameSegment(name: string, rest: string)
    requires SimpleName(name)
    ensures var s := if rest == [] then name else name + "/" + rest;
      && LStrip(s, StripChars) == s
      && !StartsWith(s, "../") && !StartsWith(s, "./")
      && SplitNextAttribute(s) == (name, rest)
  {
    var s := if rest == [] then name else name + "/" + rest;
    assert s[0] == name[0];
    assert !StartsWith(s, "./") && !StartsWith(s, "../") by {
      if name[0] == '.' {
        assert |name| >= 2 && s[1] == name[1];
        if name[1] == '.' {
          assert |name| >= 3 && s[2] == name[2];
        }
      }
    }
    if rest != [] {
      assert forall j | 0 <= j < |name| :: s[j] == name[j];
      assert s[|name|] == '/';
      var i := Find(s, '/').value;
      assert s[..i] == name;
      assert s[i + 1..] == rest;
    }
  }

  lemma StripDotSlash(s: string)
    ensures LStrip("#./" + s, StripChars) == "./" + s
  {
    var u := "#./" + s;
    assert u[1..] == "./" + s;
  }

  lemma StripAbsolute(s: string)
    ensures LStrip("#/" + s, StripChars) == LStrip(s, StripChars)
  {
    var p := "#/";
    assert p[0] in StripChars && p[1] in StripChars;
    LStripPrefix(p, s, StripChars);
  }

  /** `#./s` walks like `s` from the same object. */
  lemma WalkDotSlash(st: Store, obj: Value, s: string, ctx: Ctx, fuel: nat)
    requires Valid(st) && ValueIn(st, obj) && CtxIn(st, ctx)
    ensures Walk(st, obj, "#./" + s, ctx, fuel) == Walk(st, obj, s, ctx, fuel)
  {
    StripDotSlash(s);
    var t := "./" + s;
    assert !StartsWith(t, "../") by { assert t[1] == '/'; }
    assert StartsWith(t, "./");
    assert t[2..] == s;
  }

  /** A simple name walks as one lookup. */
  lemma WalkSingle(st: Store, obj: Value, name: string, ctx: Ctx, fuel: nat)
    requires Valid(st) && ValueIn(st, obj) && CtxIn(st, ctx) && SimpleName(name)
    ensures Walk(st, obj, name, ctx, fuel) == GetAttr(st, obj, name, ctx, fuel)
  {
    SimpleNameSegment(name, []);
    match GetAttr(st, obj, name, ctx, fuel)
    case Err(_) =>
    case Ok(v) => assert Walk(st, v, "", ctx, fuel) == Ok(v);
  }

  lemma ListParentAttr(st: Store, id: Id, ctx: Ctx, fuel: nat)
    requires Valid(st) && id in st && st[id].kind.QList? && CtxIn(st, ctx)
    ensures GetAttr(st, VNode(id), "parent", ctx, fuel) == ParentOf(st, VNode(id))
  {
    assert !IsDigits("parent") by { assert !IsDigitChar("parent"[0]); }
  }

  lemma WalkUp(st: Store, obj: Value, rest: string, ctx: Ctx, fuel: nat)
    requires Valid(st) && ValueIn(st, obj) && CtxIn(st, ctx)
    ensures ParentOf(st, obj).Err? ==> Walk(st, obj, "../" + rest, ctx, fuel) == Err(ParentOf(st, obj).error)
    ensures ParentOf(st, obj).Ok? ==>
      Walk(st, obj, "../" + rest, ctx, fuel) == Walk(st, ParentOf(st, obj).value, rest, ctx, fuel)
  {
    var t := "../" + rest;
    assert LStrip(t, StripChars) == t by { assert t[0] == '.'; }
    assert StartsWith(t, "../") && t[3..] == rest;
  }

  /** On a `QuamList`, the segment `parent` goes where `..` goes: a
      reference `#./parent/x` held by a list reads the parent's `x`, as
      `#../x` does. */
  lemma ListParentIsUp(st: Store, id: Id, rest: string, ctx: Ctx, fuel: nat)
    requires Valid(st) && id in st && st[id].kind.QList? && CtxIn(st, ctx)
    ensures Walk(st, VNode(id), if rest == [] then "parent" else "parent" + "/" + rest, ctx, fuel)
      == Walk(st, VNode(id), "../" + rest, ctx, fuel)
  {
    var p := ParentOf(st, VNode(id)).value;
    assert Walk(st, VNode(id), if rest == [] then "parent" else "parent" + "/" + rest, ctx, fuel)
      == Walk(st, p, rest, ctx, fuel) by {
      ListParentAttr(st, id, ctx, fuel);
      assert SimpleName("parent");
      WalkSegment(st, VNode(id), "parent", rest, ctx, fuel);
    }
    assert Walk(st, VNode(id), "../" + rest, ctx, fuel) == Walk(st, p, rest, ctx, fuel) by {
      WalkUp(st, VNode(id), rest, ctx, fuel);
    }
  }

  lemma DotSlashIsRelative(s: string)
    ensures IsReferenceStr("#./" + s) && StartsWith("#./" + s, "#./") && !StartsWith("#./" + s, "#/")
  {
    var u := "#./" + s;
    assert u[..3] == "#./";
    assert u[1] == '.';
  }

  /** Reading a field that holds a reference is resolving it one level
      deeper, with any error replaced by the raw string. */
  lemma GetAttributeOfReference(st: Store, id: Id, name: string, ctx: Ctx, fuel: nat)
    requires Valid(st) && id in st && st[id].body.Attrs? && CtxIn(st, ctx)
    requires name in st[id].body.attrs && IsReference(st[id].body.attrs[name])
    requires name !in HelperNames && fuel > 0
    ensures var raw := st[id].body.attrs[name];
      GetAttribute(st, id, name, ctx, fuel)
      == if Resolve(st, id, raw.s, ctx, fuel - 1).Ok? then Resolve(st, id, raw.s, ctx, fuel - 1) else Ok(raw)
  {
  }

  /** On a dataclass object, a walk segment is `getattr`. */
  lemma GetAttrOfObject(st: Store, id: Id, name: string, ctx: Ctx, fuel: nat)
    requires Valid(st) && id in st && st[id].body.Attrs? && CtxIn(st, ctx)
    ensures GetAttr(st, VNode(id), name, ctx, fuel) == GetAttribute(st, id, name, ctx, fuel)
  {
    assert WfNode(st[id]);
  }

  /** A reference is not resolved when `get_root()` fails. */
  lemma ResolveRootError(st: Store, id: Id, ref: string, ctx: Ctx, fuel: nat)
    requires Valid(st) && id in st && CtxIn(st, ctx) && IsReferenceStr(ref)
    requires GetRoot(st, id, ctx.lastRoot, fuel).Err?
    ensures Resolve(st, id, ref, ctx, fuel).Err?
  {
  }

  /** A relative reference whose walk succeeds resolves to what the walk
      found. */
  lemma ResolveRelativeOk(st: Store, id: Id, ref: string, ctx: Ctx, fuel: nat)
    requires Valid(st) && id in st && CtxIn(st, ctx)
    requires StartsWith(ref, "#./") && GetRoot(st, id, ctx.lastRoot, fuel).Ok?
    requires Walk(st, VNode(id), ref, ctx, fuel).Ok?
    ensures Resolve(st, id, ref, ctx, fuel) == Walk(st, VNode(id), ref, ctx, fuel)
  {
    assert !StartsWith(ref, "#/") by { assert ref[1] == '.'; }
    assert IsReferenceStr(ref);
  }

  /** A relative reference whose walk fails resolves to an error or to the
      raw string, never to another value. */
  lemma ResolveRelativeFails(st: Store, id: Id, ref: string, ctx: Ctx, fuel: nat)
    requires Valid(st) && id in st && CtxIn(st, ctx)
    requires StartsWith(ref, "#./") && GetRoot(st, id, ctx.lastRoot, fuel).Ok?
    requires Walk(st, VNode(id), ref, ctx, fuel).Err?
    ensures Resolve(st, id, ref, ctx, fuel).Err? || Resolve(st, id, ref, ctx, fuel) == Ok(VStr(ref))
  {
    assert !StartsWith(ref, "#/") by { assert ref[1] == '.'; }
    assert IsReferenceStr(ref);
  }

  /** A relative reference whose walk meets a missing attribute resolves
      to the raw string, or is an `InvalidReferenceError` when
      `raise_error_missing_reference` is set. */
  lemma ResolveRelativeMissing(st: Store, id: Id, ref: string, ctx: Ctx, fuel: nat)
    requires Valid(st) && id in st && CtxIn(st, ctx)
    requires StartsWith(ref, "#./") && GetRoot(st, id, ctx.lastRoot, fuel).Ok?
    requires Walk(st, VNode(id), ref, ctx, fuel) == Err(AttributeError)
    ensures Resolve(st, id, ref, ctx, fuel)
      == if ctx.raiseErrorMissingReference then Err(ValueError) else Ok(VStr(ref))
  {
    assert !StartsWith(ref, "#/") by { assert ref[1] == '.'; }
    assert IsReferenceStr(ref);
  }

  /** A reference `a = "#./a"` to itself resolves to itself again and
      again until the recursion depth is spent; whatever the depth, the
      read gives back the raw reference string. */
  lemma {:induction false} SelfReferenceYieldsRaw(st: Store, id: Id, name: string, ctx: Ctx, fuel: nat)
    requires Valid(st) && id in st && st[id].body.Attrs? && CtxIn(st, ctx)
    requires SimpleName(name)
    requires name in st[id].body.attrs && st[id].body.attrs[name] == VStr("#./" + name)
    ensures GetAttribute(st, id, name, ctx, fuel) == Ok(VStr("#./" + name))
    decreases fuel
  {
    var raw := VStr("#./" + name);
    DotSlashIsRelative(name);
    if name !in HelperNames && fuel > 0 {
      var f: nat := fuel - 1;
      GetAttributeOfReference(st, id, name, ctx, fuel);
      if GetRoot(st, id, ctx.lastRoot, f).Ok? {
        SelfReferenceYieldsRaw(st, id, name, ctx, f);
        WalkDotSlash(st, VNode(id), name, ctx, f);
        WalkSingle(st, VNode(id), name, ctx, f);
        GetAttrOfObject(st, id, name, ctx, f);
        ResolveRelativeOk(st, id, raw.s, ctx, f);
      } else {
        ResolveRootError(st, id, raw.s, ctx, f);
      }
    }
  }

  /** `a = "#./b"`: reading `a` is reading `b` (a stored attribute or a
      property) one recursion level deeper; when reading `b` fails, the raw
      reference comes back whether or not `raise_error_missing_reference`
      is set, because `__getattribute__` swallows the error. */
  lemma ChainIsFollowed(st: Store, id: Id, a: string, b: string, ctx: Ctx, fuel: nat)
    requires Valid(st) && id in st && st[id].body.Attrs? && CtxIn(st, ctx)
    requires SimpleName(b) && a !in HelperNames
    requires a in st[id].body.attrs && st[id].body.attrs[a] == VStr("#./" + b)
    requires GetRoot(st, id, ctx.lastRoot, fuel).Ok?
    ensures GetAttribute(st, id, b, ctx, fuel).Ok? ==>
      GetAttribute(st, id, a, ctx, fuel + 1) == GetAttribute(st, id, b, ctx, fuel)
    ensures GetAttribute(st, id, b, ctx, fuel).Err? ==>
      GetAttribute(st, id, a, ctx, fuel + 1) == Ok(VStr("#./" + b))
  {
    var raw := VStr("#./" + b);
    DotSlashIsRelative(b);
    GetAttributeOfReference(st, id, a, ctx, fuel + 1);
    WalkDotSlash(st, VNode(id), b, ctx, fuel);
    WalkSingle(st, VNode(id), b, ctx, fuel);
    GetAttrOfObject(st, id, b, ctx, fuel);
    if GetAttribute(st, id, b, ctx, fuel).Ok? {
      ResolveRelativeOk(st, id, raw.s, ctx, fuel);
    } else {
      ResolveRelativeFails(st, id, raw.s, ctx, fuel);
    }
  }

  /** Every name under which a node holds a child is simple: the field
      names of dataclass objects, the string keys of dicts (which are not
      all digits, so they never clash with the `str` of an int key), and
      non-negative int keys. */
  predicate SimpleKeys(st: Store) {
    forall id | id in st ::
      && (forall i | 0 <= i < |st[id].fields| :: SimpleName(st[id].fields[i].name))
      && (st[id].body.Entries? ==> forall i | 0 <= i < |st[id].body.entries| ::
            var k := st[id].body.entries[i].0;
            (k.KStr? ==> SimpleName(k.s) && !IsDigits(k.s)) && (k.KInt? ==> k.i >= 0))
  }

  /** The walk over a list of single segments. */
  function WalkNames(st: Store, obj: Value, names: seq<string>, ctx: Ctx, fuel: nat): (r: Result<Value>)
    requires Valid(st) && ValueIn(st, obj) && CtxIn(st, ctx)
    ensures r.Ok? ==> ValueIn(st, r.value)
    decreases |names|
  {
    if names == [] then Ok(obj)
    else
      var v :- GetAttr(st, obj, names[0], ctx, fuel);
      WalkNames(st, v, names[1..], ctx, fuel)
  }

  lemma JoinSnoc(xs: seq<string>, y: string)
    requires xs != []
    ensures Join(xs + [y], "/") == Join(xs, "/") + "/" + y
    decreases |xs|
  {
    if |xs| > 1 {
      assert (xs + [y])[1..] == xs[1..] + [y];
      JoinSnoc(xs[1..], y);
    }
  }

  /** A walk over a simple name followed by the rest looks the name up,
      then walks the rest. */
  lemma WalkSegment(st: Store, obj: Value, name: string, rest: string, ctx: Ctx, fuel: nat)
    requires Valid(st) && ValueIn(st, obj) && CtxIn(st, ctx)
    requires SimpleName(name)
    ensures GetAttr(st, obj, name, ctx, fuel).Err? ==>
      Walk(st, obj, if rest == [] then name else name + "/" + rest, ctx, fuel)
      == Err(GetAttr(st, obj, name, ctx, fuel).error)
    ensures GetAttr(st, obj, name, ctx, fuel).Ok? ==>
      Walk(st, obj, if rest == [] then name else name + "/" + rest, ctx, fuel)
      == Walk(st, GetAttr(st, obj, name, ctx, fuel).value, rest, ctx, fuel)
  {
    SimpleNameSegment(name, rest);
  }

  lemma JoinTail(names: seq<string>)
    requires names != []
    ensures |names| == 1 ==> Join(names, "/") == names[0] && Join(names[1..], "/") == []
    ensures |names| > 1 ==> Join(names, "/") == names[0] + "/" + Join(names[1..], "/")
    ensures |names| > 1 && names[1] != [] ==> Join(names[1..], "/") != []
  {
    if |names| > 1 && names[1] != [] {
      JoinNonEmpty(names[1..]);
    }
  }

  /** The slash-joined string of simple names walks name by name. */
  lemma {:induction false} WalkJoin(st: Store, obj: Value, names: seq<string>, ctx: Ctx, fuel: nat)
    requires Valid(st) && ValueIn(st, obj) && CtxIn(st, ctx)
    requires forall i | 0 <= i < |names| :: SimpleName(names[i])
    ensures Walk(st, obj, Join(names, "/"), ctx, fuel) == WalkNames(st, obj, names, ctx, fuel)
    decreases |names|
  {
    if names != [] {
      var rest := Join(names[1..], "/");
      JoinTail(names);
      WalkSegment(st, obj, names[0], rest, ctx, fuel);
      match GetAttr(st, obj, names[0], ctx, fuel)
      case Err(_) =>
      case Ok(v) =>
        if |names| > 1 {
          assert SimpleName(names[1]);
          WalkJoin(st, v, names[1..], ctx, fuel);
        }
    }
  }

  lemma LookupListSlot(st: Store, p: Id, child: Id, ctx: Ctx, fuel: nat)
    requires Valid(st) && p in st && child in st && CtxIn(st, ctx) && st[p].body.Items?
    requires GetAttrName(st[p], VNode(child)).Ok?
    ensures SimpleName(KeyStr(GetAttrName(st[p], VNode(child)).value))
    ensures GetAttr(st, VNode(p), KeyStr(GetAttrName(st[p], VNode(child)).value), ctx, fuel) == Ok(VNode(child))
  {
    var n := st[p];
    var k := GetAttrName(n, VNode(child)).value;
    assert WfNode(n);
    assert RawValue(n, k) == Ok(VNode(child));
    DigitsAreSimple(k.s);
  }

  lemma LookupField(st: Store, p: Id, child: Id, ctx: Ctx, fuel: nat)
    requires Valid(st) && SimpleKeys(st) && p in st && child in st && CtxIn(st, ctx) && st[p].body.Attrs?
    requires GetAttrName(st[p], VNode(child)).Ok?
    ensures SimpleName(KeyStr(GetAttrName(st[p], VNode(child)).value))
    ensures GetAttr(st, VNode(p), KeyStr(GetAttrName(st[p], VNode(child)).value), ctx, fuel) == Ok(VNode(child))
  {
    var n := st[p];
    var k := GetAttrName(n, VNode(child)).value;
    assert WfNode(n);
    assert RawValue(n, k) == Ok(VNode(child));
    var j :| 0 <= j < |n.fields| && KStr(n.fields[j].name) == k by {
      assert k in AttrNames(n);
    }
    assert SimpleName(n.fields[j].name);
  }

  lemma LookupDictKey(st: Store, p: Id, child: Id, ctx: Ctx, fuel: nat)
    requires Valid(st) && SimpleKeys(st) && p in st && child in st && CtxIn(st, ctx) && st[p].body.Entries?
    requires GetAttrName(st[p], VNode(child)).Ok?
    ensures SimpleName(KeyStr(GetAttrName(st[p], VNode(child)).value))
    ensures GetAttr(st, VNode(p), KeyStr(GetAttrName(st[p], VNode(child)).value), ctx, fuel) == Ok(VNode(child))
  {
    var n := st[p];
    var entries := n.body.entries;
    var k := GetAttrName(n, VNode(child)).value;
    var name := KeyStr(k);
    assert WfNode(n);
    assert RawValue(n, k) == Ok(VNode(child));
    var j :| 0 <= j < |entries| && entries[j].0 == k by {
      assert k in AttrNames(n);
    }
    if k.KStr? {
      assert SimpleName(k.s) && !IsDigits(k.s);
    } else {
      NatToStringValue(k.i);
      DigitsAreSimple(name);
      forall j2 | 0 <= j2 < |entries| ensures entries[j2].0 != KStr(name) {
        if entries[j2].0.KStr? {
          assert !IsDigits(entries[j2].0.s);
        }
      }
    }
  }

  /** Looking a child up in its parent by the name `get_attr_name` gives
      yields the child itself. */
  lemma LookupByAttrName(st: Store, p: Id, child: Id, ctx: Ctx, fuel: nat)
    requires Valid(st) && SimpleKeys(st) && p in st && child in st && CtxIn(st, ctx)
    requires GetAttrName(st[p], VNode(child)).Ok?
    ensures SimpleName(KeyStr(GetAttrName(st[p], VNode(child)).value))
    ensures GetAttr(st, VNode(p), KeyStr(GetAttrName(st[p], VNode(child)).value), ctx, fuel) == Ok(VNode(child))
  {
    if st[p].body.Items? {
      LookupListSlot(st, p, child, ctx, fuel);
    } else if st[p].body.Attrs? {
      LookupField(st, p, child, ctx, fuel);
    } else {
      LookupDictKey(st, p, child, ctx, fuel);
    }
  }

  lemma NonRootReference(st: Store, id: Id, fuel: nat)
    requires Valid(st) && id in st && !st[id].kind.Root?
    requires GetReference(st, id, None, None, fuel).Ok?
    ensures fuel > 0 && st[id].parent.Some?
  {
  }

  /** One step of `get_reference()` below the root. */
  lemma GetReferenceStep(st: Store, id: Id, f: nat)
    requires Valid(st) && id in st && !st[id].kind.Root? && st[id].parent.Some?
    requires GetReference(st, id, None, None, f + 1).Ok?
    ensures var p := st[id].parent.value;
      && GetReference(st, p, None, None, f).Ok?
      && GetAttrName(st[p], VNode(id)).Ok?
      && var pref := GetReference(st, p, None, None, f).value;
         GetReference(st, id, None, None, f + 1).value
         == (if pref == "#/" then "#" else pref) + "/" + KeyStr(GetAttrName(st[p], VNode(id)).value)
  {
  }

  lemma GetRootStep(st: Store, id: Id, lastRoot: Option<Id>, f: nat)
    requires Valid(st) && id in st && !st[id].kind.Root? && st[id].parent.Some?
    ensures GetRoot(st, id, lastRoot, f + 1) == GetRoot(st, st[id].parent.value, lastRoot, f)
  {
  }

  lemma JoinNonEmpty(names: seq<string>)
    requires names != [] && names[0] != []
    ensures Join(names, "/") != []
  {
    assert |Join(names, "/")| >= |names[0]|;
  }

  /** `get_reference()` of an object is `#/` followed by the names of the
      steps from the root down to it; following those names from the root
      that `get_root()` finds leads back to the object. */
  lemma {:induction false} ReferenceWalksBack(st: Store, id: Id, ctx: Ctx, fuel: nat, wfuel: nat)
    returns (names: seq<string>, root: Id)
    requires Valid(st) && SimpleKeys(st) && id in st && CtxIn(st, ctx)
    requires GetReference(st, id, None, None, fuel).Ok?
    ensures GetReference(st, id, None, None, fuel).value == "#/" + Join(names, "/")
    ensures forall i | 0 <= i < |names| :: SimpleName(names[i])
    ensures root in st && GetRoot(st, id, ctx.lastRoot, fuel) == Ok(Some(root))
    ensures WalkNames(st, VNode(root), names, ctx, wfuel) == Ok(VNode(id))
    decreases fuel
  {
    if st[id].kind.Root? {
      names, root := [], id;
    } else {
      NonRootReference(st, id, fuel);
      var f: nat := fuel - 1;
      var p := st[id].parent.value;
      GetReferenceStep(st, id, f);
      GetRootStep(st, id, ctx.lastRoot, f);
      var pnames, proot := ReferenceWalksBack(st, p, ctx, f, wfuel);
      var key := KeyStr(GetAttrName(st[p], VNode(id)).value);
      names, root := pnames + [key], proot;
      ChildNames(st, p, id, ctx, wfuel, pnames);
      ChildReference(st, id, f, pnames);
      ChildWalk(st, p, id, proot, pnames, ctx, wfuel);
    }
  }

  lemma ChildNames(st: Store, p: Id, id: Id, ctx: Ctx, wfuel: nat, pnames: seq<string>)
    requires Valid(st) && SimpleKeys(st) && p in st && id in st && CtxIn(st, ctx)
    requires GetAttrName(st[p], VNode(id)).Ok?
    requires forall i | 0 <= i < |pnames| :: SimpleName(pnames[i])
    ensures var names := pnames + [KeyStr(GetAttrName(st[p], VNode(id)).value)];
      forall i | 0 <= i < |names| :: SimpleName(names[i])
  {
    LookupByAttrName(st, p, id, ctx, wfuel);
  }

  /** The reference of a child extends its parent's by the child's name. */
  lemma ChildReference(st: Store, id: Id, f: nat, pnames: seq<string>)
    requires Valid(st) && id in st && !st[id].kind.Root? && st[id].parent.Some?
    requires GetReference(st, id, None, None, f + 1).Ok?
    requires pnames == [] || pnames[0] != []
    requires var p := st[id].parent.value;
      GetReference(st, p, None, None, f).Ok? && GetReference(st, p, None, None, f).value == "#/" + Join(pnames, "/")
    ensures var p := st[id].parent.value;
      GetAttrName(st[p], VNode(id)).Ok? &&
      GetReference(st, id, None, None, f + 1).value
      == "#/" + Join(pnames + [KeyStr(GetAttrName(st[p], VNode(id)).value)], "/")
  {
    GetReferenceStep(st, id, f);
    var p := st[id].parent.value;
    RefSnoc(pnames, KeyStr(GetAttrName(st[p], VNode(id)).value));
  }

  /** Walking the child's name from its parent reaches the child. */
  lemma ChildWalk(st: Store, p: Id, id: Id, root: Id, pnames: seq<string>, ctx: Ctx, wfuel: nat)
    requires Valid(st) && SimpleKeys(st) && p in st && id in st && root in st && CtxIn(st, ctx)
    requires GetAttrName(st[p], VNode(id)).Ok?
    requires WalkNames(st, VNode(root), pnames, ctx, wfuel) == Ok(VNode(p))
    ensures WalkNames(st, VNode(root), pnames + [KeyStr(GetAttrName(st[p], VNode(id)).value)], ctx, wfuel) == Ok(VNode(id))
  {
    LookupByAttrName(st, p, id, ctx, wfuel);
    WalkNamesSnoc(st, VNode(root), pnames, KeyStr(GetAttrName(st[p], VNode(id)).value), ctx, wfuel);
  }

  /** Appending a name to a reference string. */
  lemma RefSnoc(pnames: seq<string>, key: string)
    requires pnames == [] || pnames[0] != []
    ensures var pref := "#/" + Join(pnames, "/");
      (if pref == "#/" then "#" else pref) + "/" + key == "#/" + Join(pnames + [key], "/")
  {
    var j := Join(pnames, "/");
    if pnames == [] {
      assert j == "";
      assert "#/" + j == "#/";
      assert pnames + [key] == [key];
      assert Join([key], "/") == key;
      assert "#" + "/" == "#/";
    } else {
      JoinNonEmpty(pnames);
      assert |"#/" + j| > 2;
      JoinSnoc(pnames, key);
      assert ("#/" + j) + "/" + key == "#/" + (j + "/" + key);
    }
  }

  lemma {:induction false} WalkNamesSnoc(st: Store, obj: Value, names: seq<string>, last: string, ctx: Ctx, fuel: nat)
    requires Valid(st) && ValueIn(st, obj) && CtxIn(st, ctx)
    requires WalkNames(st, obj, names, ctx, fuel).Ok?
    ensures WalkNames(st, obj, names + [last], ctx, fuel)
      == GetAttr(st, WalkNames(st, obj, names, ctx, fuel).value, last, ctx, fuel)
    decreases |names|
  {
    if names == [] {
      assert [] + [last] == [last];
    } else {
      assert (names + [last])[1..] == names[1..] + [last];
      WalkNamesSnoc(st, GetAttr(st, obj, names[0], ctx, fuel).value, names[1..], last, ctx, fuel);
    }
  }

  /** A walk only depends on the string after its leading `#` and `/`. */
  lemma WalkIgnoresStrip(st: Store, obj: Value, s: string, ctx: Ctx, fuel: nat)
    requires Valid(st) && ValueIn(st, obj) && CtxIn(st, ctx)
    ensures Walk(st, obj, s, ctx, fuel) == Walk(st, obj, LStrip(s, StripChars), ctx, fuel)
  {
    var t := LStrip(s, StripChars);
    assert LStrip(t, StripChars) == t;
    assert Walk(st, obj, t, ctx, fuel) == Resolver.WalkStripped(st, obj, t, ctx, fuel);
  }

  /** An absolute reference is walked from the root `get_root()` finds. */
  lemma ResolveAbsoluteOk(st: Store, from: Id, ref: string, root: Id, ctx: Ctx, fuel: nat)
    requires Valid(st) && from in st && root in st && CtxIn(st, ctx)
    requires StartsWith(ref, "#/") && GetRoot(st, from, ctx.lastRoot, fuel) == Ok(Some(root))
    requires Walk(st, VNode(root), ref, ctx, fuel).Ok?
    ensures Resolve(st, from, ref, ctx, fuel) == Walk(st, VNode(root), ref, ctx, fuel)
  {
    assert IsReferenceStr(ref);
  }

  /** An absolute reference string of simple names walks name by name. */
  lemma WalkAbsolute(st: Store, obj: Value, names: seq<string>, ctx: Ctx, fuel: nat)
    requires Valid(st) && ValueIn(st, obj) && CtxIn(st, ctx)
    requires forall i | 0 <= i < |names| :: SimpleName(names[i])
    ensures Walk(st, obj, "#/" + Join(names, "/"), ctx, fuel) == WalkNames(st, obj, names, ctx, fuel)
  {
    var joined := Join(names, "/");
    StripAbsolute(joined);
    WalkIgnoresStrip(st, obj, "#/" + joined, ctx, fuel);
    if names == [] {
      assert joined == [];
    } else {
      SimpleNameSegment(names[0], if |names| == 1 then [] else Join(names[1..], "/"));
      WalkIgnoresStrip(st, obj, joined, ctx, fuel);
      WalkJoin(st, obj, names, ctx, fuel);
    }
  }

  /** Round trip: resolving `x.get_reference()` from any object of the same
      tree yields `x` itself (identity, not a copy). */
  lemma ReferenceRoundTrip(st: Store, id: Id, from: Id, ctx: Ctx, fuel: nat, wfuel: nat)
    requires Valid(st) && SimpleKeys(st) && id in st && from in st && CtxIn(st, ctx)
    requires GetReference(st, id, None, None, fuel).Ok?
    requires GetRoot(st, from, ctx.lastRoot, wfuel) == GetRoot(st, id, ctx.lastRoot, fuel)
    ensures Resolve(st, from, GetReference(st, id, None, None, fuel).value, ctx, wfuel) == Ok(VNode(id))
  {
    var names, root := ReferenceWalksBack(st, id, ctx, fuel, wfuel);
    var ref := GetReference(st, id, None, None, fuel).value;
    WalkAbsolute(st, VNode(root), names, ctx, wfuel);
    assert ref[..2] == "#/";
    ResolveAbsoluteOk(st, from, ref, root, ctx, wfuel);
  }
}

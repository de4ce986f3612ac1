/** The reference grammar of quam: strings anchored at `#/` (absolute, from
    the root), `#./` (relative to the holding object) or `#../` (relative to
    its parent). The walk that resolves a reference over the object tree is
    in module `Resolver`. */
module StringReference {
  import opened Wrappers
  import opened Strings
  import opened Values

  predicate IsReferenceStr(s: string) {
    StartsWith(s, "#/") || StartsWith(s, "#./") || StartsWith(s, "#../")
  }

  /** `is_reference`: any non-string value is never a reference. */
  predicate IsReference(v: Value) {
    v.VStr? && IsReferenceStr(v.s)
  }

  /** `is_absolute_reference` */
  predicate IsAbsoluteReference(v: Value) {
    IsReference(v) && StartsWith(v.s, "#/")
  }

  /** Every reference has exactly one of the three anchors, and the
      absolute references are exactly those anchored at `#/`. */
  lemma AnchorsPartitionReferences(v: Value)
    ensures IsReference(v) ==> v.VStr?
    ensures IsReference(v) <==>
      v.VStr? && (StartsWith(v.s, "#/") || StartsWith(v.s, "#./") || StartsWith(v.s, "#../"))
    ensures IsAbsoluteReference(v) ==> IsReference(v)
    ensures IsAbsoluteReference(v) <==> v.VStr? && StartsWith(v.s, "#/")
    ensures v.VStr? && StartsWith(v.s, "#/") ==> !StartsWith(v.s, "#./") && !StartsWith(v.s, "#../")
    ensures v.VStr? && StartsWith(v.s, "#./") ==> !StartsWith(v.s, "#../")
  {
    if v.VStr? && StartsWith(v.s, "#/") {
      assert v.s[1] == '/';
    }
    if v.VStr? && StartsWith(v.s, "#./") {
      assert v.s[2] == '/';
    }
  }

  const StripChars: set<char> := {'#', '/'}

  /** Splits at the first `/` of an already stripped string. */
  function SplitAtFirstSlash(t: string): (r: (string, string))
    ensures '/' !in t ==> r == (t, "")
    ensures '/' in t ==> t == r.0 + "/" + r.1
    ensures '/' !in r.0 && |r.0| <= |t| && r.0 == t[..|r.0|]
  {
    match Find(t, '/')
    case None => (t, "")
    case Some(i) =>
      assert t == t[..i] + "/" + t[i + 1..];
      (t[..i], t[i + 1..])
  }

  /** `split_next_attribute(string)`: strips every leading `#` and `/`, then
      splits at the first `/`. */
  function SplitNextAttribute(s: string): (r: (string, string))
    ensures LStrip(s, StripChars) == [] ==> r == ("", "")
    ensures '/' !in LStrip(s, StripChars) ==> r == (LStrip(s, StripChars), "")
    ensures '/' in LStrip(s, StripChars) ==> LStrip(s, StripChars) == r.0 + "/" + r.1
    ensures '/' !in r.0
    ensures LStrip(s, StripChars) != [] ==> r.0 != [] && r.0[0] !in StripChars
  {
    var t := LStrip(s, StripChars);
    if t == [] then ("", "")
    else
      SplitAtFirstSlash(t)
  }

  /** `str.split("/")` */
  function SplitAll(s: string): (r: seq<string>)
    ensures |r| >= 1
    ensures forall k :: 0 <= k < |r| ==> '/' !in r[k]
    decreases |s|
  {
    match Find(s, '/')
    case None => [s]
    case Some(i) => [s[..i]] + SplitAll(s[i + 1..])
  }

  /** A reference as an anchor and a list of segments; `#./` is
      `Relative(0)`, `#../` is `Relative(1)`, `#../../` is `Relative(2)`. */
  datatype Anchor = Absolute | Relative(ups: nat)
  datatype Path = Path(anchor: Anchor, segs: seq<string>)

  /** Applies one segment: `..` climbs (past the anchor of a relative
      path, never past the root), empty and `.` segments are ignored. */
  function Step(p: Path, seg: string): Result<Path> {
    if seg == ".." then
      if p.segs != [] then Ok(Path(p.anchor, p.segs[..|p.segs| - 1]))
      else if p.anchor.Absolute? then Err(ValueError)
      else Ok(Path(Relative(p.anchor.ups + 1), []))
    else if seg == "" || seg == "." then Ok(p)
    else Ok(Path(p.anchor, p.segs + [seg]))
  }

  function Steps(p: Path, segs: seq<string>): (r: Result<Path>)
    ensures r.Ok? ==> r.value.anchor.Absolute? == p.anchor.Absolute?
    decreases |segs|
  {
    if segs == [] then Ok(p)
    else
      var q :- Step(p, segs[0]);
      Steps(q, segs[1..])
  }

  function Repeat(s: string, n: nat): string {
    if n == 0 then "" else s + Repeat(s, n - 1)
  }

  function Render(p: Path): (r: string)
    ensures IsReferenceStr(r)
    ensures StartsWith(r, "#/") <==> p.anchor.Absolute?
  {
    match p.anchor
    case Absolute => "#/" + Join(p.segs, "/")
    case Relative(n) =>
      if n == 0 then
        assert ("#./" + Join(p.segs, "/"))[..3] == "#./";
        assert ("#./" + Join(p.segs, "/"))[1] == '.';
        "#./" + Join(p.segs, "/")
      else
        assert ("#" + Repeat("../", n) + Join(p.segs, "/"))[..4] == "#../";
        assert ("#" + Repeat("../", n) + Join(p.segs, "/"))[1] == '.';
        "#" + Repeat("../", n) + Join(p.segs, "/")
  }

  /** Parses a reference into its normalised anchor and segments. */
  function Parse(s: string): (r: Result<Path>)
    requires IsReferenceStr(s)
    ensures r.Ok? ==> (r.value.anchor.Absolute? <==> StartsWith(s, "#/"))
  {
    if StartsWith(s, "#/") then Steps(Path(Absolute, []), SplitAll(s[2..]))
    else Steps(Path(Relative(0), []), SplitAll(s[1..]))
  }

  /** `join_references(base, relative)`: the relative reference applied to
      the base. An absolute or non-reference `relative` and a climb past the
      root of an absolute base are `ValueError`s. */
  function JoinReferences(base: string, relative: string): (r: Result<string>)
    ensures !IsReferenceStr(relative) || StartsWith(relative, "#/") ==> r == Err(ValueError)
    ensures r.Ok? ==> IsReferenceStr(r.value)
    ensures r.Ok? ==> (StartsWith(r.value, "#/") <==> StartsWith(base, "#/"))
  {
    if !IsReferenceStr(base) || !IsReferenceStr(relative) || StartsWith(relative, "#/") then
      Err(ValueError)
    else
      var b :- Parse(base);
      var j :- Steps(b, SplitAll(relative[1..]));
      Ok(Render(j))
  }

  lemma ReferenceHasSlash(s: string)
    requires IsReferenceStr(s)
    ensures '/' in s
  {
    if StartsWith(s, "#/") { assert s[1] == '/'; }
    else if StartsWith(s, "#./") { assert s[2] == '/'; }
    else { assert s[3] == '/'; }
  }

  /** `split_reference(reference)`: the reference of the holding object and
      the final attribute, cut at the last `/`; a bare anchor keeps its
      slash (`#/x` gives `#/`, `#./x` gives `#./`). */
  function SplitReference(s: string): (r: (string, string))
    requires IsReferenceStr(s)
    ensures '/' !in r.1 && |r.1| < |s|
    ensures s == s[..|s| - |r.1| - 1] + "/" + r.1
    ensures r.0 == s[..|s| - |r.1| - 1] || r.0 == s[..|s| - |r.1|]
  {
    ReferenceHasSlash(s);
    var i := RFind(s, '/').value;
    assert s == s[..i] + "/" + s[i + 1..];
    if s[..i] in {"#", "#.", "#.."} then
      assert s[..i + 1] == s[..i] + "/";
      (s[..i + 1], s[i + 1..])
    else (s[..i], s[i + 1..])
  }

  /** A segment that survives normalisation: not empty, not `.` or `..`,
      and without a slash. */
  predicate PlainSegment(seg: string) {
    seg != "" && seg != "." && seg != ".." && '/' !in seg
  }

  /** A normalised path, as `Steps` produces from plain segments. */
  predicate NormalPath(p: Path) {
    forall i | 0 <= i < |p.segs| :: PlainSegment(p.segs[i])
  }

  lemma SplitAllCons(a: string, t: string)
    requires '/' !in a
    ensures SplitAll(a + "/" + t) == [a] + SplitAll(t)
  {
    var s := a + "/" + t;
    assert s[|a|] == '/';
    var i := Find(s, '/').value;
    assert s[..i] == a && s[i + 1..] == t;
  }

  lemma {:induction false} SplitAllJoin(segs: seq<string>)
    requires segs != [] && forall i | 0 <= i < |segs| :: '/' !in segs[i]
    ensures SplitAll(Join(segs, "/")) == segs
    decreases |segs|
  {
    if |segs| == 1 {
      assert Find(segs[0], '/').None?;
    } else {
      SplitAllCons(segs[0], Join(segs[1..], "/"));
      SplitAllJoin(segs[1..]);
      assert [segs[0]] + segs[1..] == segs;
    }
  }

  /** `Steps` runs its segments one after the other. */
  lemma {:induction false} StepsAppend(p: Path, a: seq<string>, b: seq<string>)
    ensures Steps(p, a + b) == (match Steps(p, a) case Ok(q) => Steps(q, b) case Err(e) => Err(e))
    decreases |a|
  {
    if a == [] {
      assert a + b == b;
    } else {
      assert (a + b)[0] == a[0] && (a + b)[1..] == a[1..] + b;
      match Step(p, a[0])
      case Err(_) =>
      case Ok(q) => StepsAppend(q, a[1..], b);
    }
  }

  /** Plain segments are appended as they are. */
  lemma {:induction false} StepsPlain(p: Path, segs: seq<string>)
    requires forall i | 0 <= i < |segs| :: PlainSegment(segs[i])
    ensures Steps(p, segs) == Ok(Path(p.anchor, p.segs + segs))
    decreases |segs|
  {
    if segs == [] {
      assert p.segs + segs == p.segs;
    } else {
      StepsPlain(Path(p.anchor, p.segs + [segs[0]]), segs[1..]);
      assert p.segs + [segs[0]] + segs[1..] == p.segs + segs;
    }
  }

  /** The segments of a rendered path after its anchor, applied to `q`. */
  lemma SegmentsOfJoin(segs: seq<string>, q: Path)
    requires forall i | 0 <= i < |segs| :: PlainSegment(segs[i])
    ensures Steps(q, SplitAll(Join(segs, "/"))) == Ok(Path(q.anchor, q.segs + segs))
  {
    if segs == [] {
      assert Find("", '/').None?;
      assert SplitAll("") == [""];
      assert q.segs + segs == q.segs;
    } else {
      SplitAllJoin(segs);
      StepsPlain(q, segs);
    }
  }

  function Climbs(n: nat): (r: seq<string>)
    ensures |r| == n && forall i | 0 <= i < n :: r[i] == ".."
  {
    if n == 0 then [] else [".."] + Climbs(n - 1)
  }

  lemma RepeatClimb(n: nat, t: string)
    requires n > 0
    ensures Repeat("../", n) + t == ".." + "/" + (Repeat("../", n - 1) + t)
  {
    assert "../" == ".." + "/";
  }

  lemma {:induction false} SplitAllRepeat(n: nat, t: string)
    ensures SplitAll(Repeat("../", n) + t) == Climbs(n) + SplitAll(t)
    decreases n
  {
    if n > 0 {
      var rest := Repeat("../", n - 1) + t;
      RepeatClimb(n, t);
      SplitAllCons("..", rest);
      SplitAllRepeat(n - 1, t);
      assert Climbs(n) + SplitAll(t) == [".."] + (Climbs(n - 1) + SplitAll(t));
    } else {
      assert Repeat("../", n) + t == t;
    }
  }

  /** Climbing from a relative path without segments deepens its anchor. */
  lemma {:induction false} StepsClimb(k: nat, n: nat)
    ensures Steps(Path(Relative(k), []), Climbs(n)) == Ok(Path(Relative(k + n), []))
    decreases n
  {
    if n > 0 {
      StepsClimb(k + 1, n - 1);
    }
  }

  lemma ParseRenderRelative(p: Path, n: nat)
    requires NormalPath(p) && p.anchor == Relative(n) && n > 0
    ensures Parse(Render(p)) == Ok(p)
  {
    var j := Join(p.segs, "/");
    var s := "#" + Repeat("../", n) + j;
    assert Render(p) == s;
    assert !StartsWith(s, "#/") by { assert s[1] == '.'; }
    assert s[1..] == Repeat("../", n) + j;
    SplitAllRepeat(n, j);
    StepsAppend(Path(Relative(0), []), Climbs(n), SplitAll(j));
    StepsClimb(0, n);
    SegmentsOfJoin(p.segs, Path(Relative(n), []));
    assert Path(Relative(n), []).segs + p.segs == p.segs;
  }

  /** Parsing a rendered normalised path gives the path back. */
  lemma ParseRender(p: Path)
    requires NormalPath(p)
    ensures Parse(Render(p)) == Ok(p)
  {
    var j := Join(p.segs, "/");
    if p.anchor.Absolute? {
      SegmentsOfJoin(p.segs, Path(Absolute, []));
      var s := "#/" + j;
      assert s[2..] == j;
      assert Path(Absolute, []).segs + p.segs == p.segs;
    } else if p.anchor.ups == 0 {
      SegmentsOfJoin(p.segs, Path(Relative(0), []));
      var s := "#./" + j;
      assert !StartsWith(s, "#/") by { assert s[1] == '.'; }
      assert s[1..] == "." + "/" + j;
      SplitAllCons(".", j);
      StepsAppend(Path(Relative(0), []), ["."], SplitAll(j));
      assert Path(Relative(0), []).segs + p.segs == p.segs;
    } else {
      ParseRenderRelative(p, p.anchor.ups);
    }
  }

  lemma SplitRelative(dots: string, seg: string)
    requires dots == "." || dots == ".."
    requires PlainSegment(seg)
    ensures ("#" + dots + "/" + seg)[1..] == dots + "/" + seg
    ensures SplitAll(("#" + dots + "/" + seg)[1..]) == [dots, seg]
    ensures IsReferenceStr("#" + dots + "/" + seg) && !StartsWith("#" + dots + "/" + seg, "#/")
  {
    var rel := "#" + dots + "/" + seg;
    assert rel[1..] == dots + "/" + seg;
    assert rel[1] == '.';
    if dots == "." { assert rel[..3] == "#./"; } else { assert rel[..4] == "#../"; }
    SplitAllCons(dots, seg);
    assert Find(seg, '/').None?;
  }

  /** Joining `#../seg` to a normalised reference replaces its last
      segment by `seg`; joining `#./seg` appends `seg`. */
  lemma JoinSibling(b: Path, seg: string)
    requires NormalPath(b) && b.segs != [] && PlainSegment(seg)
    ensures JoinReferences(Render(b), "#../" + seg)
      == Ok(Render(Path(b.anchor, b.segs[..|b.segs| - 1] + [seg])))
  {
    var base, rel := Render(b), "#../" + seg;
    ParseRender(b);
    SplitRelative("..", seg);
    assert rel == "#" + ".." + "/" + seg;
    var up := Path(b.anchor, b.segs[..|b.segs| - 1]);
    assert Step(b, "..") == Ok(up);
    StepsPlain(up, [seg]);
    assert ["..", seg][1..] == [seg];
    assert Steps(b, ["..", seg]) == Ok(Path(b.anchor, b.segs[..|b.segs| - 1] + [seg]));
  }

  lemma JoinChild(b: Path, seg: string)
    requires NormalPath(b) && PlainSegment(seg)
    ensures JoinReferences(Render(b), "#./" + seg) == Ok(Render(Path(b.anchor, b.segs + [seg])))
  {
    var base, rel := Render(b), "#./" + seg;
    ParseRender(b);
    SplitRelative(".", seg);
    assert rel == "#" + "." + "/" + seg;
    StepsPlain(b, [seg]);
    assert [".", seg][1..] == [seg];
    assert Steps(b, [".", seg]) == Ok(Path(b.anchor, b.segs + [seg]));
  }
}

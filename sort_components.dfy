/** `sort_quam_components`: repeated passes over the components that move
    each component's `after` dependencies in front of it and its `before`
    dependencies behind it, on a copy of the list. */
module SortComponents {
  import opened Wrappers
  import opened Values
  import opened QuamModel

  /** `list.index(x)`: the first position of `x`. */
  function IndexOf(s: seq<Id>, x: Id): (r: Option<nat>)
    ensures r.None? <==> x !in s
    ensures r.Some? ==> r.value < |s| && s[r.value] == x && x !in s[..r.value]
  {
    if s == [] then None
    else if s[0] == x then Some(0)
    else match IndexOf(s[1..], x)
      case None => None
      case Some(i) =>
        assert s[..i + 1] == [s[0]] + s[1..][..i];
        Some(i + 1)
  }

  /** Where `list.insert` puts an element in a list of `n` elements: an
      index past the end appends. */
  function Clamp(to: nat, n: nat): nat {
    if to <= n then to else n
  }

  /** The position of the element that was at `i != from` once the
      element at `from` has been moved to `k`. */
  function MovedIndex(from: nat, k: nat, i: nat): nat
    requires i != from
  {
    var j := if i < from then i else i - 1;
    if j < k then j else j + 1
  }

  /** The old position of the element at `t` after the element at `from`
      has been moved to `k`. */
  function SourceIndex(from: nat, k: nat, t: nat): nat {
    if t == k then from
    else
      var j := if t < k then t else t - 1;
      if j < from then j else j + 1
  }

  /** `list.remove(x)` of the element at `from`, then `list.insert(to, x)`
      (an index past the end appends): the element at `from` lands at
      `Clamp(to, |s| - 1)` and every other element keeps its order. */
  function Move(s: seq<Id>, from: nat, to: nat): (r: seq<Id>)
    requires from < |s|
    ensures multiset(r) == multiset(s)
    ensures |r| == |s|
  {
    var x := s[from];
    var rest := s[..from] + s[from + 1..];
    var k := Clamp(to, |rest|);
    assert s == s[..from] + [x] + s[from + 1..];
    assert multiset(s) == multiset(s[..from]) + multiset{x} + multiset(s[from + 1..]);
    assert multiset(rest) == multiset(s[..from]) + multiset(s[from + 1..]);
    assert rest == rest[..k] + rest[k..];
    assert multiset(rest) == multiset(rest[..k]) + multiset(rest[k..]);
    var r := rest[..k] + [x] + rest[k..];
    assert multiset(r) == multiset(rest[..k]) + multiset{x} + multiset(rest[k..]);
    assert multiset(r) == multiset(rest) + multiset{x};
    r
  }

  /** Each element of `Move`'s result, read at its old position. */
  lemma MoveAt(s: seq<Id>, from: nat, to: nat, t: nat)
    requires from < |s| && t < |s|
    ensures SourceIndex(from, Clamp(to, |s| - 1), t) < |s|
    ensures Move(s, from, to)[t] == s[SourceIndex(from, Clamp(to, |s| - 1), t)]
  {
    var x := s[from];
    var rest := s[..from] + s[from + 1..];
    var k := Clamp(to, |rest|);
    var r := rest[..k] + [x] + rest[k..];
    assert Move(s, from, to) == r;
    if t < k {
      assert r[t] == rest[t];
    } else if t > k {
      assert r[t] == rest[t - 1];
    }
  }

  /** Reading `Move` back: the element at `i` is now at `MovedIndex`, or
      at the clamped index when `i` is the moved one. */
  lemma MoveOne(s: seq<Id>, from: nat, to: nat, i: nat)
    requires from < |s| && i < |s|
    ensures i == from ==> Move(s, from, to)[Clamp(to, |s| - 1)] == s[i]
    ensures i != from ==>
      MovedIndex(from, Clamp(to, |s| - 1), i) < |s| && Move(s, from, to)[MovedIndex(from, Clamp(to, |s| - 1), i)] == s[i]
  {
    var k := Clamp(to, |s| - 1);
    if i == from {
      MoveAt(s, from, to, k);
    } else {
      MoveAt(s, from, to, MovedIndex(from, k, i));
    }
  }

  /** Moving an element keeps the identities distinct. */
  lemma MoveDistinct(s: seq<Id>, from: nat, to: nat)
    requires from < |s| && Distinct(s)
    ensures Distinct(Move(s, from, to))
  {
    var r := Move(s, from, to);
    var k := Clamp(to, |s| - 1);
    forall a, b | 0 <= a < b < |r|
      ensures r[a] != r[b]
    {
      MoveAt(s, from, to, a);
      MoveAt(s, from, to, b);
    }
  }

  /** In a list without repeats, `list.index` finds the one position. */
  lemma IndexOfDistinct(s: seq<Id>, i: nat)
    requires Distinct(s) && i < |s|
    ensures IndexOf(s, s[i]) == Some(i)
  {
  }

  /** `a` at `i` stands before `b` at `j` in a list without repeats. */
  lemma BeforeAt(s: seq<Id>, i: nat, j: nat)
    requires Distinct(s) && i < j < |s|
    ensures Before(s, s[i], s[j])
  {
    IndexOfDistinct(s, i);
    IndexOfDistinct(s, j);
  }

  /** `a` stands before `b` in `s` (first occurrences). */
  predicate Before(s: seq<Id>, a: Id, b: Id) {
    IndexOf(s, a).Some? && IndexOf(s, b).Some? && IndexOf(s, a).value < IndexOf(s, b).value
  }

  /** Component `c`'s `config_settings` hold in `s`. */
  predicate SettingsHold(st: Store, s: seq<Id>, c: Id)
    requires c in st
  {
    st[c].settings.Some? ==>
      && (forall a | a in st[c].settings.value.after :: Before(s, a, c))
      && (forall b | b in st[c].settings.value.before :: Before(s, c, b))
  }

  /** Every component's `config_settings` hold in `s`. */
  predicate Sorted(st: Store, components: seq<Id>, s: seq<Id>)
    requires forall c | c in components :: c in st
  {
    forall c | c in components :: SettingsHold(st, s, c)
  }

  /** `a` and `b` hold the same elements when they are permutations. */
  lemma SameElements(a: seq<Id>, b: seq<Id>, x: Id)
    requires multiset(a) == multiset(b)
    ensures x in a <==> x in b
  {
    assert x in a <==> x in multiset(a);
    assert x in b <==> x in multiset(b);
  }

  /** What the `after` loop keeps while the list has no repeats: the
      component sits at `pc`, at or behind `cIdx`, every dependency handled
      so far stands in front of it, and the prefix before `cIdx` is intact. */
  ghost predicate AfterInv(s: seq<Id>, sorted: seq<Id>, cIdx: nat, pc: nat, done: seq<Id>) {
    && Distinct(sorted) && cIdx <= pc < |sorted| && cIdx < |s| && sorted[pc] == s[cIdx]
    && sorted[..cIdx] == s[..cIdx]
    && forall a | a in done :: a in sorted[..pc]
  }

  /** The `after` loop for the component at `cIdx`: a dependency already
      in front is left alone, any other is moved to `cIdx`. Reports
      whether anything moved; `ValueError` for a dependency not listed.
      In a list without repeats, every dependency ends up in front of the
      component, and nothing in front of `cIdx` moves. */
  method PlaceAfter(s: seq<Id>, cIdx: nat, deps: seq<Id>) returns (r: Result<seq<Id>>, moved: bool)
    ensures r.Ok? ==> multiset(r.value) == multiset(s)
    ensures r.Ok? && !moved ==> r.value == s && forall a | a in deps :: IndexOf(s, a).Some? && IndexOf(s, a).value < cIdx
    ensures r.Err? ==> r.error == ValueError && exists a | a in deps :: a !in s
    ensures (exists a | a in deps :: a !in s) ==> r.Err?
    ensures r.Ok? && Distinct(s) && cIdx < |s| && s[cIdx] !in deps ==>
      && Distinct(r.value) && |r.value| == |s|
      && r.value[..cIdx] == s[..cIdx]
      && (forall a | a in deps :: Before(r.value, a, s[cIdx]))
  {
    var good := Distinct(s) && cIdx < |s| && s[cIdx] !in deps;
    var sorted := s;
    moved := false;
    ghost var pc: nat := cIdx;
    if good {
      assert AfterInv(s, sorted, cIdx, pc, deps[..0]);
    }
    var i := 0;
    while i < |deps|
      invariant 0 <= i <= |deps|
      invariant multiset(sorted) == multiset(s)
      invariant |sorted| == |s|
      invariant !moved ==> sorted == s && forall a | a in deps[..i] :: IndexOf(s, a).Some? && IndexOf(s, a).value < cIdx
      invariant forall a | a in deps[..i] :: a in s
      invariant good == (Distinct(s) && cIdx < |s| && s[cIdx] !in deps)
      invariant good ==> AfterInv(s, sorted, cIdx, pc, deps[..i])
    {
      var d := deps[i];
      var dIdx := IndexOf(sorted, d);
      SameElements(sorted, s, d);
      if dIdx.None? {
        return Err(ValueError), moved;
      }
      assert deps[..i + 1] == deps[..i] + [d];
      if good {
        pc := AfterInvStep(s, sorted, cIdx, pc, deps[..i], dIdx.value);
      }
      if dIdx.value >= cIdx {
        sorted := Move(sorted, dIdx.value, cIdx);
        moved := true;
      }
      i := i + 1;
    }
    assert deps[..i] == deps;
    if good {
      AfterInvDone(s, sorted, cIdx, pc, deps);
    }
    r := Ok(sorted);
  }

  /** One dependency of the `after` loop keeps `AfterInv`. */
  lemma AfterInvStep(s: seq<Id>, sorted: seq<Id>, cIdx: nat, pc: nat, done: seq<Id>, dIdx: nat)
    returns (npc: nat)
    requires AfterInv(s, sorted, cIdx, pc, done)
    requires dIdx < |sorted| && sorted[dIdx] != s[cIdx]
    ensures AfterInv(s, if dIdx >= cIdx then Move(sorted, dIdx, cIdx) else sorted, cIdx, npc, done + [sorted[dIdx]])
  {
    if dIdx >= cIdx {
      var r := Move(sorted, dIdx, cIdx);
      AfterStep(sorted, r, dIdx, cIdx, pc, done);
      npc := MovedIndex(dIdx, cIdx, pc);
    } else {
      npc := pc;
      assert sorted[..pc][dIdx] == sorted[dIdx];
    }
  }

  /** At the end of the `after` loop every dependency stands in front of
      the component. */
  lemma AfterInvDone(s: seq<Id>, sorted: seq<Id>, cIdx: nat, pc: nat, deps: seq<Id>)
    requires AfterInv(s, sorted, cIdx, pc, deps)
    ensures forall a | a in deps :: Before(sorted, a, s[cIdx])
  {
    forall a | a in deps
      ensures Before(sorted, a, s[cIdx])
    {
      var q :| 0 <= q < pc && sorted[q] == a;
      BeforeAt(sorted, q, pc);
    }
  }

  /** One move of the `after` loop keeps the component behind every
      dependency placed so far, the moved one included. */
  lemma AfterStep(s: seq<Id>, r: seq<Id>, from: nat, cIdx: nat, pc: nat, done: seq<Id>)
    requires Distinct(s) && cIdx <= pc < |s| && cIdx <= from < |s| && from != pc
    requires r == Move(s, from, cIdx)
    requires forall a | a in done :: a in s[..pc]
    ensures Distinct(r) && cIdx <= MovedIndex(from, cIdx, pc) < |r| && r[MovedIndex(from, cIdx, pc)] == s[pc]
    ensures r[..cIdx] == s[..cIdx]
    ensures forall a | a in done + [s[from]] :: a in r[..MovedIndex(from, cIdx, pc)]
  {
    MoveDistinct(s, from, cIdx);
    MoveOne(s, from, cIdx, pc);
    MoveOne(s, from, cIdx, from);
    var npc := MovedIndex(from, cIdx, pc);
    forall t | 0 <= t < cIdx
      ensures r[t] == s[t]
    {
      MoveOne(s, from, cIdx, t);
    }
    forall a | a in done + [s[from]]
      ensures a in r[..npc]
    {
      if a != s[from] {
        var q :| 0 <= q < pc && s[q] == a;
        MoveOne(s, from, cIdx, q);
      }
    }
  }

  /** What the `before` loop keeps while the list has no repeats: the
      component sits at `pc`, at or in front of `cIdx`, and every
      dependency handled so far stands behind it. */
  ghost predicate BeforeInv(s: seq<Id>, sorted: seq<Id>, cIdx: nat, pc: nat, done: seq<Id>) {
    && Distinct(sorted) && pc <= cIdx < |sorted| && cIdx < |s| && sorted[pc] == s[cIdx]
    && forall b | b in done :: b in sorted[pc + 1..]
  }

  /** The `before` loop for the component at `cIdx`: a dependency already
      behind is left alone, any other is moved to `cIdx + 1`. In a list
      without repeats, every dependency ends up behind the component. */
  method PlaceBefore(s: seq<Id>, cIdx: nat, deps: seq<Id>) returns (r: Result<seq<Id>>, moved: bool)
    ensures r.Ok? ==> multiset(r.value) == multiset(s)
    ensures r.Ok? && !moved ==> r.value == s && forall b | b in deps :: IndexOf(s, b).Some? && IndexOf(s, b).value > cIdx
    ensures r.Err? ==> r.error == ValueError && exists b | b in deps :: b !in s
    ensures (exists b | b in deps :: b !in s) ==> r.Err?
    ensures r.Ok? && Distinct(s) && cIdx < |s| && s[cIdx] !in deps ==>
      && Distinct(r.value)
      && (forall b | b in deps :: Before(r.value, s[cIdx], b))
  {
    var good := Distinct(s) && cIdx < |s| && s[cIdx] !in deps;
    var sorted := s;
    moved := false;
    ghost var pc: nat := cIdx;
    if good {
      assert BeforeInv(s, sorted, cIdx, pc, deps[..0]);
    }
    var i := 0;
    while i < |deps|
      invariant 0 <= i <= |deps|
      invariant multiset(sorted) == multiset(s)
      invariant |sorted| == |s|
      invariant !moved ==> sorted == s && forall b | b in deps[..i] :: IndexOf(s, b).Some? && IndexOf(s, b).value > cIdx
      invariant forall b | b in deps[..i] :: b in s
      invariant good == (Distinct(s) && cIdx < |s| && s[cIdx] !in deps)
      invariant good ==> BeforeInv(s, sorted, cIdx, pc, deps[..i])
    {
      var d := deps[i];
      var dIdx := IndexOf(sorted, d);
      SameElements(sorted, s, d);
      if dIdx.None? {
        return Err(ValueError), moved;
      }
      assert deps[..i + 1] == deps[..i] + [d];
      if good {
        pc := BeforeInvStep(s, sorted, cIdx, pc, deps[..i], dIdx.value);
      }
      if dIdx.value <= cIdx {
        sorted := Move(sorted, dIdx.value, cIdx + 1);
        moved := true;
      }
      i := i + 1;
    }
    assert deps[..i] == deps;
    if good {
      BeforeInvDone(s, sorted, cIdx, pc, deps);
    }
    r := Ok(sorted);
  }

  /** One dependency of the `before` loop keeps `BeforeInv`. */
  lemma BeforeInvStep(s: seq<Id>, sorted: seq<Id>, cIdx: nat, pc: nat, done: seq<Id>, dIdx: nat)
    returns (npc: nat)
    requires BeforeInv(s, sorted, cIdx, pc, done)
    requires dIdx < |sorted| && sorted[dIdx] != s[cIdx]
    ensures BeforeInv(s, if dIdx <= cIdx then Move(sorted, dIdx, cIdx + 1) else sorted, cIdx, npc, done + [sorted[dIdx]])
  {
    if dIdx <= cIdx {
      var r := Move(sorted, dIdx, cIdx + 1);
      MoveDistinct(sorted, dIdx, cIdx + 1);
      BeforeStep(sorted, r, dIdx, cIdx, pc, done);
      npc := MovedIndex(dIdx, Clamp(cIdx + 1, |sorted| - 1), pc);
    } else {
      npc := pc;
      assert dIdx != pc;
      assert sorted[pc + 1..][dIdx - pc - 1] == sorted[dIdx];
    }
  }

  /** At the end of the `before` loop every dependency stands behind the
      component. */
  lemma BeforeInvDone(s: seq<Id>, sorted: seq<Id>, cIdx: nat, pc: nat, deps: seq<Id>)
    requires BeforeInv(s, sorted, cIdx, pc, deps)
    ensures forall b | b in deps :: Before(sorted, s[cIdx], b)
  {
    forall b | b in deps
      ensures Before(sorted, s[cIdx], b)
    {
      var q :| pc + 1 <= q < |sorted| && sorted[q] == b;
      BeforeAt(sorted, pc, q);
    }
  }

  /** One move of the `before` loop keeps the component in front of every
      dependency placed so far, and puts the moved one behind it too. */
  lemma BeforeStep(s: seq<Id>, r: seq<Id>, from: nat, cIdx: nat, pc: nat, done: seq<Id>)
    requires pc <= cIdx < |s| && from <= cIdx && from != pc
    requires r == Move(s, from, cIdx + 1)
    requires forall b | b in done :: b in s[pc + 1..]
    ensures var k := Clamp(cIdx + 1, |s| - 1);
      MovedIndex(from, k, pc) <= cIdx && r[MovedIndex(from, k, pc)] == s[pc]
    ensures forall b | b in done + [s[from]] :: b in r[MovedIndex(from, Clamp(cIdx + 1, |s| - 1), pc) + 1..]
  {
    var k := Clamp(cIdx + 1, |s| - 1);
    var npc := MovedIndex(from, k, pc);
    MovedLands(s, r, from, cIdx, pc);
    forall b | b in done
      ensures b in r[npc + 1..]
    {
      var q0 :| 0 <= q0 < |s| - pc - 1 && s[pc + 1..][q0] == b;
      BehindIn(s, r, from, cIdx, pc, q0 + pc + 1);
    }
    assert forall b | b in done + [s[from]] :: b in done || b == s[from];
  }

  /** The component and the moved dependency after one move of the
      `before` loop: the component at its new index, the dependency
      behind it. */
  lemma MovedLands(s: seq<Id>, r: seq<Id>, from: nat, cIdx: nat, pc: nat)
    requires pc <= cIdx < |s| && from <= cIdx && from != pc
    requires r == Move(s, from, cIdx + 1)
    ensures var k := Clamp(cIdx + 1, |s| - 1);
      && MovedIndex(from, k, pc) <= cIdx && r[MovedIndex(from, k, pc)] == s[pc]
      && s[from] in r[MovedIndex(from, k, pc) + 1..]
  {
    var k := Clamp(cIdx + 1, |s| - 1);
    var j := if pc < from then pc else pc - 1;
    assert cIdx <= k && j < k;
    var npc := MovedIndex(from, k, pc);
    assert npc == j;
    MoveOne(s, from, cIdx + 1, pc);
    MoveOne(s, from, cIdx + 1, from);
    assert r[k] == s[from];
    assert r[npc + 1..][k - npc - 1] == s[from];
  }

  /** The element at `q`, behind the component, is still behind it. */
  lemma BehindIn(s: seq<Id>, r: seq<Id>, from: nat, cIdx: nat, pc: nat, q: nat)
    requires pc <= cIdx < |s| && from <= cIdx && from != pc && pc < q < |s|
    requires r == Move(s, from, cIdx + 1)
    ensures s[q] in r[MovedIndex(from, Clamp(cIdx + 1, |s| - 1), pc) + 1..]
  {
    var k := Clamp(cIdx + 1, |s| - 1);
    var npc := MovedIndex(from, k, pc);
    BehindStays(s, r, from, cIdx, pc, q);
    var t := if q == from then k else MovedIndex(from, k, q);
    assert r[npc + 1..][t - npc - 1] == s[q];
  }

  /** A dependency behind the component stays behind it after a move of
      the `before` loop. */
  lemma BehindStays(s: seq<Id>, r: seq<Id>, from: nat, cIdx: nat, pc: nat, q: nat)
    requires pc <= cIdx < |s| && from <= cIdx && from != pc && pc < q < |s|
    requires r == Move(s, from, cIdx + 1)
    ensures var k := Clamp(cIdx + 1, |s| - 1);
      var t := if q == from then k else MovedIndex(from, k, q);
      MovedIndex(from, k, pc) < t < |r| && r[t] == s[q]
  {
    MoveOne(s, from, cIdx + 1, q);
  }

  /** One pass over `components` (in their original order), working on
      `s`; reports whether any dependency moved. A pass that moves nothing
      leaves `s` as it is, and then every component's settings hold. */
  method SortPass(st: Store, components: seq<Id>, s: seq<Id>) returns (r: Result<seq<Id>>, adjusted: bool)
    requires forall c | c in components :: c in st
    requires multiset(s) == multiset(components)
    ensures r.Ok? ==> multiset(r.value) == multiset(s)
    ensures r.Ok? && !adjusted ==> r.value == s && Sorted(st, components, s)
    ensures (forall c | c in components :: st[c].settings.None?) ==> r == Ok(s) && !adjusted
  {
    var sorted := s;
    adjusted := false;
    var i := 0;
    while i < |components|
      invariant 0 <= i <= |components|
      invariant multiset(sorted) == multiset(s)
      invariant !adjusted ==> sorted == s && forall c | c in components[..i] :: SettingsHold(st, s, c)
      invariant (forall c | c in components :: st[c].settings.None?) ==> sorted == s && !adjusted
    {
      var c := components[i];
      assert components[..i + 1] == components[..i] + [c];
      if st[c].settings.None? {
        i := i + 1;
        continue;
      }
      assert c in multiset(sorted);
      var cIdx := IndexOf(sorted, c).value;
      var settings := st[c].settings.value;
      var afterResult, movedAfter := PlaceAfter(sorted, cIdx, settings.after);
      if afterResult.Err? {
        return Err(ValueError), adjusted;
      }
      var beforeResult, movedBefore := PlaceBefore(afterResult.value, cIdx, settings.before);
      if beforeResult.Err? {
        return Err(ValueError), adjusted;
      }
      sorted := beforeResult.value;
      adjusted := adjusted || movedAfter || movedBefore;
      i := i + 1;
    }
    assert components[..i] == components;
    r := Ok(sorted);
  }

  /** `sort_quam_components(components, max_attempts)`: at most
      `maxAttempts` passes, stopping after the first pass that moves
      nothing. `warned` is the warning raised when no pass came out clean
      (also when `maxAttempts` is 0), and then the last ordering is kept. */
  method SortQuamComponents(st: Store, components: seq<Id>, maxAttempts: nat)
    returns (r: Result<seq<Id>>, warned: bool, passes: nat)
    requires forall c | c in components :: c in st
    ensures passes <= maxAttempts
    ensures r.Err? ==> r.error == ValueError
    ensures r.Ok? ==> multiset(r.value) == multiset(components)
    ensures r.Ok? && !warned ==> Sorted(st, components, r.value)
    ensures r.Ok? && warned ==> passes == maxAttempts
    ensures (forall c | c in components :: st[c].settings.None?) ==>
      r == Ok(components) && warned == (maxAttempts == 0) && passes == (if maxAttempts == 0 then 0 else 1)
  {
    var sorted := components;
    passes := 0;
    while passes < maxAttempts
      invariant passes <= maxAttempts
      invariant multiset(sorted) == multiset(components)
      invariant (forall c | c in components :: st[c].settings.None?) ==> sorted == components && passes == 0
    {
      var next, adjusted := SortPass(st, components, sorted);
      passes := passes + 1;
      if next.Err? {
        return Err(ValueError), false, passes;
      }
      if !adjusted {
        return Ok(sorted), false, passes;
      }
      sorted := next.value;
    }
    r, warned := Ok(sorted), true;
  }
}

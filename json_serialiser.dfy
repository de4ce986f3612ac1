/** `quam/serialisation/json.py`, the file-level half: splitting the
    top-level contents across files on save and merging the files of a
    folder on load. The file system is a map from the path of a file
    (relative to the save folder) to the dict it holds; encoding, the
    environment and the configuration file are not modelled. */
module JsonSerialiser {
  import opened Wrappers
  import opened Strings
  import opened JsonValue
  import opened SerialiserKeys

  const DefaultFilename: string := "state.json"

  /** `Path(p).name`: what follows the last `/`. */
  function BaseName(p: string): (r: string)
    ensures '/' !in r
  {
    match RFind(p, '/')
    case None => p
    case Some(i) => p[i + 1..]
  }

  /** Where a mapped component is written inside the folder: an absolute
      file name is reduced to its base name. */
  function TargetFile(filename: string): string {
    if StartsWith(filename, "/") then BaseName(filename) else filename
  }

  /** The mapped components that the contents hold. */
  function Mapped(full: Obj, mapping: ContentMapping): (r: set<Key>)
    ensures r == mapping.Keys * full.Keys
  {
    set c | c in mapping && c in full
  }

  /** The components among `keys` that go to file `p`. */
  function Group(full: Obj, mapping: ContentMapping, keys: set<Key>, p: string): Obj
    requires keys <= Mapped(full, mapping)
  {
    map c | c in keys && TargetFile(mapping[c]) == p :: full[c]
  }

  /** The files that the components among `keys` go to. */
  function Targets(mapping: ContentMapping, keys: set<Key>): set<string>
    requires keys <= mapping.Keys
  {
    set c | c in keys :: TargetFile(mapping[c])
  }

  /** `files_to_save` once the components among `keys` are collected. */
  function Groups(full: Obj, mapping: ContentMapping, keys: set<Key>): map<string, Obj>
    requires keys <= Mapped(full, mapping)
  {
    map p | p in Targets(mapping, keys) :: Group(full, mapping, keys, p)
  }

  /** As written, the files `_save_split_content` leaves in the folder: the groups,
      then the remainder written to the default file, which replaces a
      group of the same name. */
  function SplitFiles(full: Obj, mapping: ContentMapping): (r: map<string, Obj>)
    ensures var rest := full - Mapped(full, mapping);
      r.Keys == Targets(mapping, Mapped(full, mapping)) + (if rest == map[] then {} else {DefaultFilename})
    ensures var rest := full - Mapped(full, mapping);
      rest != map[] ==> r[DefaultFilename] == rest
  {
    var groups := Groups(full, mapping, Mapped(full, mapping));
    var rest := full - Mapped(full, mapping);
    if rest != map[] then groups[DefaultFilename := rest] else groups
  }

  /** One more component collected into its file. */
  lemma GroupAdd(full: Obj, mapping: ContentMapping, keys: set<Key>, c: Key, q: string)
    requires keys <= Mapped(full, mapping) && c in Mapped(full, mapping) && c !in keys
    ensures Group(full, mapping, keys + {c}, q) ==
      if q == TargetFile(mapping[c]) then Group(full, mapping, keys, q)[c := full[c]] else Group(full, mapping, keys, q)
  {
  }

  /** A file no collected component goes to has an empty group. */
  lemma GroupEmpty(full: Obj, mapping: ContentMapping, keys: set<Key>, q: string)
    requires keys <= Mapped(full, mapping) && q !in Targets(mapping, keys)
    ensures Group(full, mapping, keys, q) == map[]
  {
    forall d | d in keys ensures TargetFile(mapping[d]) != q {
      assert TargetFile(mapping[d]) in Targets(mapping, keys);
    }
  }

  lemma GroupsAdd(full: Obj, mapping: ContentMapping, keys: set<Key>, c: Key)
    requires keys <= Mapped(full, mapping) && c in Mapped(full, mapping) && c !in keys
    ensures Groups(full, mapping, keys + {c}) ==
      var p := TargetFile(mapping[c]);
      Groups(full, mapping, keys)[p := (if p in Groups(full, mapping, keys) then Groups(full, mapping, keys)[p] else map[])[c := full[c]]]
  {
    var p := TargetFile(mapping[c]);
    var g := Groups(full, mapping, keys);
    var g2 := Groups(full, mapping, keys + {c});
    var h := g[p := (if p in g then g[p] else map[])[c := full[c]]];
    assert Targets(mapping, keys + {c}) == Targets(mapping, keys) + {p};
    forall q | q in g2 ensures g2[q] == h[q] {
      GroupAdd(full, mapping, keys, c, q);
      if q == p && p !in g {
        GroupEmpty(full, mapping, keys, p);
      }
    }
    assert g2.Keys == h.Keys;
  }

  /** `_save_split_content(full_contents, folder, content_mapping)`: each
      mapped component present is moved from a copy of the contents into
      the dict of its file, then the files are written, then what is left
      goes to the default file, joining (not replacing) a group already
      bound for it (`SplitFilesMerged`; `SplitFiles` is the code as
      written). `warned` tells whether a mapped component was missing. */
  method SaveSplitContent(full: Obj, mapping: ContentMapping) returns (written: map<string, Obj>, warned: bool)
    ensures written == SplitFilesMerged(full, mapping)
    ensures warned <==> !(mapping.Keys <= full.Keys)
  {
    var remaining := full;
    var filesToSave: map<string, Obj> := map[];
    var mappedKeys: set<Key> := {};
    warned := false;
    var todo := mapping.Keys;
    while todo != {}
      invariant todo <= mapping.Keys
      invariant mappedKeys == (mapping.Keys - todo) * full.Keys
      invariant remaining == full - mappedKeys
      invariant filesToSave == Groups(full, mapping, mappedKeys)
      invariant warned <==> !(mapping.Keys - todo <= full.Keys)
      decreases todo
    {
      var c :| c in todo;
      todo := todo - {c};
      if c in remaining {
        var p := TargetFile(mapping[c]);
        GroupsAdd(full, mapping, mappedKeys, c);
        ghost var before := filesToSave;
        if p !in filesToSave {
          filesToSave := filesToSave[p := map[]];
        }
        filesToSave := filesToSave[p := filesToSave[p][c := remaining[c]]];
        assert filesToSave == before[p := (if p in before then before[p] else map[])[c := full[c]]];
        remaining := remaining - {c};
        mappedKeys := mappedKeys + {c};
      } else {
        warned := true;
      }
    }
    assert mappedKeys == Mapped(full, mapping);
    written := filesToSave;
    if remaining != map[] {
      var prior: Obj := if DefaultFilename in written then written[DefaultFilename] else map[];
      written := written[DefaultFilename := prior + remaining];
    }
    RemainderJoinsDefault(full, mapping);
  }

  /** The corrected split as the last step of `SaveSplitContent` builds it. */
  lemma RemainderJoinsDefault(full: Obj, mapping: ContentMapping)
    ensures var groups := Groups(full, mapping, Mapped(full, mapping));
      var rest := full - Mapped(full, mapping);
      var prior: Obj := if DefaultFilename in groups then groups[DefaultFilename] else map[];
      SplitFilesMerged(full, mapping) == if rest != map[] then groups[DefaultFilename := prior + rest] else groups
  {
    var groups := Groups(full, mapping, Mapped(full, mapping));
    var rest := full - Mapped(full, mapping);
    assert DefaultFilename !in groups ==> map[] + rest == rest;
  }

  /** `Path(p).suffix`: the last dot of the last path component and what
      follows, unless that dot leads or ends the name. */
  function Suffix(p: string): (r: string)
    ensures r == "" || r[0] == '.'
  {
    var name := BaseName(p);
    match RFind(name, '.')
    case None => ""
    case Some(i) => if 0 < i < |name| - 1 then name[i..] else ""
  }

  /** What a save writes. */
  datatype Saved =
    /** a single file at the given path */
    | SingleFile(path: string, contents: Obj)
    /** a folder and its files, by path relative to it */
    | Folder(path: string, files: map<string, Obj>)

  /** The contents and mapping without the ignored keys. */
  function Without(full: Obj, ignore: seq<Key>): Obj {
    map k | k in full && k !in ignore :: full[k]
  }

  function MappingWithout(mapping: ContentMapping, ignore: seq<Key>): ContentMapping {
    map k | k in mapping && k !in ignore :: mapping[k]
  }

  /** `save(quam_obj, path, content_mapping, ignore)` once `to_dict` gave
      `full`: a `.json` path gets one file, a path without suffix a split
      folder, any other suffix is a `ValueError`. A mapping argument
      replaces the instance's for this call only. */
  function SaveSpec(current: ContentMapping, full: Obj, path: string, mappingArg: Option<MappingArg>, ignore: seq<Key>)
    : (r: Result<Saved>)
    ensures r.Err? ==> r.error in {TypeError, ValueError}
    ensures r.Ok? && r.value.SingleFile? ==> r.value.contents.Keys == full.Keys - set k | k in ignore
    ensures r.Ok? && r.value.Folder? ==> forall f | f in r.value.files :: forall k | k in ignore :: k !in r.value.files[f]
  {
    var mapping :- if mappingArg.Some? then NormaliseMapping(mappingArg.value) else Ok(current);
    var contents := Without(full, ignore);
    var mapping' := MappingWithout(mapping, ignore);
    var suffix := Suffix(path);
    if suffix == ".json" then Ok(SingleFile(path, contents))
    else if suffix == "" then
      SplitKeysFrom(contents, mapping');
      Ok(Folder(path, SplitFilesMerged(contents, mapping')))
    else Err(ValueError)
  }

  /** Every file of a split holds only keys of the contents. */
  lemma SplitKeysFrom(full: Obj, mapping: ContentMapping)
    ensures forall f | f in SplitFilesMerged(full, mapping) :: SplitFilesMerged(full, mapping)[f].Keys <= full.Keys
  {
    MergedSplitSound(full, mapping);
  }

  // ---------------------------------------------------------------------
  // Loading

  /** A file as `_load_from_file` reads it. */
  datatype FileRead = Decoded(j: Json) | BadJson | Unreadable

  /** Some directory of the relative path starts with a dot. */
  predicate InHiddenDir(p: string)
    decreases |p|
  {
    match Find(p, '/')
    case None => false
    case Some(i) => StartsWith(p, ".") || InHiddenDir(p[i + 1..])
  }

  /** `_load_from_file` inside a directory load: a file that fails or holds
      an empty dict is skipped. */
  predicate Processed(f: (string, FileRead)) {
    !InHiddenDir(f.0) && f.1.Decoded? && f.1.j.JObj? && f.1.j.fields != map[]
  }

  function FileFields(f: (string, FileRead)): Obj
    requires Processed(f)
  {
    f.1.j.fields
  }

  /** The merge of the files found, in the order found: contents, the
      inferred mapping before filtering, and whether the default file was
      among them. */
  function Merge(files: seq<(string, FileRead)>): (r: (Obj, ContentMapping, bool))
    ensures r.0.Keys == r.1.Keys
    decreases |files|
  {
    if files == [] then (map[], map[], false)
    else
      var n := |files| - 1;
      var (contents, inferred, found) := Merge(files[..n]);
      var f := files[n];
      if !Processed(f) then (contents, inferred, found)
      else
        var m := FileFields(f);
        (contents + m, inferred + map k | k in m :: f.0, found || f.0 == DefaultFilename)
  }

  /** The last processed file that holds key `k`: the reference the merge
      is compared against. */
  function LastWith(files: seq<(string, FileRead)>, k: Key): Option<nat>
    decreases |files|
  {
    if files == [] then None
    else
      var n := |files| - 1;
      if Processed(files[n]) && k in FileFields(files[n]) then Some(n)
      else LastWith(files[..n], k)
  }

  /** A key's value and inferred file come from the last processed file
      that holds it; later files overwrite earlier ones. */
  lemma {:induction false} MergeLastWins(files: seq<(string, FileRead)>, k: Key)
    ensures k in Merge(files).0 <==> LastWith(files, k).Some?
    ensures LastWith(files, k).Some? ==>
      var i := LastWith(files, k).value;
      i < |files| && Processed(files[i]) && k in FileFields(files[i]) &&
      Merge(files).0[k] == FileFields(files[i])[k] && Merge(files).1[k] == files[i].0
    decreases |files|
  {
    if files != [] {
      var n := |files| - 1;
      MergeLastWins(files[..n], k);
      var w := LastWith(files[..n], k);
      if w.Some? {
        assert files[..n][w.value] == files[w.value];
      }
    }
  }

  /** `_load_from_directory(dirpath)`: the merged contents, the inferred
      mapping without the entries that point at the default file, and the
      default file name when that file was found. */
  method LoadFromDirectory(files: seq<(string, FileRead)>) returns (contents: Obj, mapping: ContentMapping, defaultFile: Option<string>)
    ensures contents == Merge(files).0
    ensures mapping == map k | k in Merge(files).1 && Merge(files).1[k] != DefaultFilename :: Merge(files).1[k]
    ensures defaultFile == if Merge(files).2 then Some(DefaultFilename) else None
  {
    contents := map[];
    var inferred: ContentMapping := map[];
    var found := false;
    var i := 0;
    while i < |files|
      invariant 0 <= i <= |files|
      invariant (contents, inferred, found) == Merge(files[..i])
    {
      assert files[..i + 1][..i] == files[..i];
      var f := files[i];
      if Processed(f) {
        var m := f.1.j.fields;
        contents := contents + m;
        var keys := m.Keys;
        while keys != {}
          invariant keys <= m.Keys
          invariant inferred == Merge(files[..i]).1 + map k | k in m.Keys - keys :: f.0
          decreases keys
        {
          var k :| k in keys;
          keys := keys - {k};
          inferred := inferred[k := f.0];
        }
        assert m.Keys - keys == m.Keys;
        if f.0 == DefaultFilename {
          found := true;
        }
      }
      i := i + 1;
    }
    assert files[..i] == files;
    mapping := map k | k in inferred && inferred[k] != DefaultFilename :: inferred[k];
    defaultFile := if found then Some(DefaultFilename) else None;
  }

  // ---------------------------------------------------------------------
  // The round trip

  /** The files of a split listed in some order. */
  predicate Lists(files: seq<(string, FileRead)>, written: map<string, Obj>) {
    && (forall i | 0 <= i < |files| :: files[i].0 in written && files[i].1 == Decoded(JObj(written[files[i].0])))
    && (forall p | p in written :: exists i | 0 <= i < |files| :: files[i].0 == p)
  }

  /** The files of a split hold parts of `full`, and every key of `full`
      is in one of them. */
  predicate Covers(written: map<string, Obj>, full: Obj) {
    && (forall p | p in written :: written[p] != map[])
    && (forall p | p in written :: forall k | k in written[p] :: k in full && written[p][k] == full[k])
    && (forall k | k in full :: exists p | p in written :: k in written[p])
  }

  lemma MergeKey(files: seq<(string, FileRead)>, written: map<string, Obj>, full: Obj, k: Key)
    requires Lists(files, written) && Covers(written, full)
    requires forall i | 0 <= i < |files| :: !InHiddenDir(files[i].0)
    ensures k in Merge(files).0 <==> k in full
    ensures k in full ==> Merge(files).0[k] == full[k]
  {
    MergeLastWins(files, k);
    if k in full {
      var p :| p in written && k in written[p];
      var i :| 0 <= i < |files| && files[i].0 == p;
      LastWithFinds(files, k, i);
    }
  }

  lemma SameEntries(m: Obj, full: Obj)
    requires forall k :: k in m <==> k in full
    requires forall k | k in m :: m[k] == full[k]
    ensures m == full
  {
  }

  /** Merging listed files that cover `full`, none hidden, gives `full`
      back, whatever order they are found in. */
  lemma MergeOfCover(files: seq<(string, FileRead)>, written: map<string, Obj>, full: Obj)
    requires Lists(files, written) && Covers(written, full)
    requires forall i | 0 <= i < |files| :: !InHiddenDir(files[i].0)
    ensures Merge(files).0 == full
  {
    var m := Merge(files).0;
    forall k ensures k in m <==> k in full {
      MergeKey(files, written, full, k);
    }
    forall k | k in m ensures m[k] == full[k] {
      MergeKey(files, written, full, k);
    }
    SameEntries(m, full);
  }

  lemma {:induction false} LastWithFinds(files: seq<(string, FileRead)>, k: Key, i: nat)
    requires i < |files| && Processed(files[i]) && k in FileFields(files[i])
    ensures LastWith(files, k).Some?
    decreases |files|
  {
    var n := |files| - 1;
    if !(Processed(files[n]) && k in FileFields(files[n])) {
      assert i < n;
      assert files[..n][i] == files[i];
      LastWithFinds(files[..n], k, i);
    }
  }

  /** The round trip holds whenever no mapped component is sent to the
      default file, or nothing is left for it: every file of the split,
      read back in any order, gives the contents. */
  lemma SplitThenMerge(full: Obj, mapping: ContentMapping, files: seq<(string, FileRead)>)
    requires forall c | c in Mapped(full, mapping) :: TargetFile(mapping[c]) != DefaultFilename
    requires Lists(files, SplitFiles(full, mapping))
    requires forall i | 0 <= i < |files| :: !InHiddenDir(files[i].0)
    ensures Merge(files).0 == full
  {
    SplitCovers(full, mapping);
    MergeOfCover(files, SplitFiles(full, mapping), full);
  }

  /** The files of the groups hold what `full` holds. */
  lemma GroupsSound(full: Obj, mapping: ContentMapping, keys: set<Key>)
    requires keys <= Mapped(full, mapping)
    ensures forall p | p in Groups(full, mapping, keys) :: Groups(full, mapping, keys)[p] != map[]
    ensures forall p | p in Groups(full, mapping, keys) :: forall k | k in Groups(full, mapping, keys)[p] ::
      k in full && Groups(full, mapping, keys)[p][k] == full[k]
    ensures forall k | k in keys ::
      TargetFile(mapping[k]) in Groups(full, mapping, keys) && k in Groups(full, mapping, keys)[TargetFile(mapping[k])]
  {
    var g := Groups(full, mapping, keys);
    forall p | p in g ensures g[p] != map[] {
      var c :| c in keys && TargetFile(mapping[c]) == p;
      assert c in g[p];
    }
  }

  lemma SplitCovers(full: Obj, mapping: ContentMapping)
    requires forall c | c in Mapped(full, mapping) :: TargetFile(mapping[c]) != DefaultFilename
    ensures Covers(SplitFiles(full, mapping), full)
  {
    var keys := Mapped(full, mapping);
    var w := SplitFiles(full, mapping);
    GroupsSound(full, mapping, keys);
    forall k | k in full ensures exists p | p in w :: k in w[p] {
      if k in keys {
        var p := TargetFile(mapping[k]);
        assert p in w && k in w[p];
      } else {
        var rest := full - keys;
        assert k in rest;
        assert rest != map[];
        assert DefaultFilename in w && w[DefaultFilename] == rest;
      }
    }
  }

  /** A component mapped to the default file is lost when anything else
      is left over: the remainder replaces its file. */
  lemma DefaultFileOverwritten()
    ensures var full := map[KStr("a") := JInt(1), KStr("b") := JInt(2)];
      var mapping := map[KStr("a") := DefaultFilename];
      SplitFiles(full, mapping) == map[DefaultFilename := map[KStr("b") := JInt(2)]]
  {
    var full := map[KStr("a") := JInt(1), KStr("b") := JInt(2)];
    var mapping := map[KStr("a") := DefaultFilename];
    assert Mapped(full, mapping) == {KStr("a")};
    assert Targets(mapping, {KStr("a")}) == {DefaultFilename};
    var rest := full - {KStr("a")};
    assert rest == map[KStr("b") := JInt(2)];
    assert KStr("b") in rest;
    var w := SplitFiles(full, mapping);
    assert w.Keys == {DefaultFilename} && w[DefaultFilename] == rest;
  }

  /** The split where the remainder joins whatever the mapping already sent
      to the default file. */
  function SplitFilesMerged(full: Obj, mapping: ContentMapping): (r: map<string, Obj>)
    ensures var rest := full - Mapped(full, mapping);
      r.Keys == Targets(mapping, Mapped(full, mapping)) + (if rest == map[] then {} else {DefaultFilename})
  {
    var groups := Groups(full, mapping, Mapped(full, mapping));
    var rest := full - Mapped(full, mapping);
    if rest == map[] then groups
    else if DefaultFilename in groups then groups[DefaultFilename := groups[DefaultFilename] + rest]
    else groups[DefaultFilename := rest]
  }

  /** With the remainder merged in, the round trip holds for every mapping. */
  lemma MergedSplitThenMerge(full: Obj, mapping: ContentMapping, files: seq<(string, FileRead)>)
    requires Lists(files, SplitFilesMerged(full, mapping))
    requires forall i | 0 <= i < |files| :: !InHiddenDir(files[i].0)
    ensures Merge(files).0 == full
  {
    MergedSplitCovers(full, mapping);
    MergeOfCover(files, SplitFilesMerged(full, mapping), full);
  }

  lemma MergedSplitCovers(full: Obj, mapping: ContentMapping)
    ensures Covers(SplitFilesMerged(full, mapping), full)
  {
    MergedSplitSound(full, mapping);
    MergedSplitComplete(full, mapping);
  }

  lemma MergedSplitSound(full: Obj, mapping: ContentMapping)
    ensures forall p | p in SplitFilesMerged(full, mapping) :: SplitFilesMerged(full, mapping)[p] != map[]
    ensures forall p | p in SplitFilesMerged(full, mapping) :: forall k | k in SplitFilesMerged(full, mapping)[p] ::
      k in full && SplitFilesMerged(full, mapping)[p][k] == full[k]
  {
    var w := SplitFilesMerged(full, mapping);
    forall p | p in w ensures w[p] != map[] && forall k | k in w[p] :: k in full && w[p][k] == full[k] {
      MergedFileSound(full, mapping, p);
    }
  }

  /** One file of the corrected split holds a non-empty part of `full`. */
  lemma MergedFileSound(full: Obj, mapping: ContentMapping, p: string)
    requires p in SplitFilesMerged(full, mapping)
    ensures var f := SplitFilesMerged(full, mapping)[p];
      f != map[] && forall k | k in f :: k in full && f[k] == full[k]
  {
    var keys := Mapped(full, mapping);
    var g := Groups(full, mapping, keys);
    var rest := full - keys;
    GroupsSound(full, mapping, keys);
    MergedFile(full, mapping, p);
    var f := (if p in g then g[p] else map[]) + (if p == DefaultFilename then rest else map[]);
    forall k | k in f
      ensures k in full && f[k] == full[k]
    {
      if !(p == DefaultFilename && k in rest) {
        assert p in g && k in g[p];
      }
    }
    if p in g {
      var k :| k in g[p];
      assert k in f;
    } else {
      var k :| k in rest;
      assert k in f;
    }
  }

  lemma MergedSplitComplete(full: Obj, mapping: ContentMapping)
    ensures forall k | k in full :: exists p | p in SplitFilesMerged(full, mapping) :: k in SplitFilesMerged(full, mapping)[p]
  {
    var w := SplitFilesMerged(full, mapping);
    forall k | k in full ensures exists p | p in w :: k in w[p] {
      var p := MergedFileOf(full, mapping, k);
    }
  }

  /** The file of the merged split that holds a given entry. */
  lemma MergedFileOf(full: Obj, mapping: ContentMapping, k: Key) returns (p: string)
    requires k in full
    ensures p in SplitFilesMerged(full, mapping) && k in SplitFilesMerged(full, mapping)[p]
  {
    var keys := Mapped(full, mapping);
    var g := Groups(full, mapping, keys);
    var rest := full - keys;
    if k in keys {
      GroupsSound(full, mapping, keys);
      p := TargetFile(mapping[k]);
      assert p in g && k in g[p];
    } else {
      p := DefaultFilename;
      assert k in rest;
    }
    MergedFile(full, mapping, p);
  }

  /** Each file of the merged split: the group bound for it, joined by the
      remainder for the default file. */
  lemma MergedFile(full: Obj, mapping: ContentMapping, p: string)
    ensures var keys := Mapped(full, mapping);
      var g := Groups(full, mapping, keys);
      var rest := full - keys;
      var w := SplitFilesMerged(full, mapping);
      && (p in w <==> p in g || (p == DefaultFilename && rest != map[]))
      && (p in w ==> w[p] == (if p in g then g[p] else map[]) + (if p == DefaultFilename then rest else map[]))
  {
    var keys := Mapped(full, mapping);
    var g := Groups(full, mapping, keys);
    var rest := full - keys;
    assert p in g ==> g[p] + map[] == g[p];
    assert map[] + rest == rest;
  }

  // ---------------------------------------------------------------------
  // The serialiser object

  /** The metadata `load` returns. */
  datatype Metadata = Metadata(contentMapping: ContentMapping, defaultFilename: Option<string>, defaultFoldername: Option<string>)

  /** What a load path names. */
  datatype PathNode =
    | Missing
    | AFile(name: string, read: FileRead)
    /** a directory, its resolved path and the `*.json` files under it in
        the order `rglob` finds them */
    | ADir(resolved: string, files: seq<(string, FileRead)>)
    | Special

  /** ASCII lower case, as `str.lower` does on the suffix. */
  function Lower(s: string): (r: string)
    ensures |r| == |s|
  {
    seq(|s|, i requires 0 <= i < |s| => if 'A' <= s[i] <= 'Z' then (s[i] as int + 32) as char else s[i])
  }

  /** `_load_from_file(filepath)`: the suffix check comes before the `try`;
      inside it a decoding error and a read error are re-raised as such,
      and the `TypeError` for a non-dict becomes a `RuntimeError`. */
  function LoadFromFile(name: string, read: FileRead): (r: Result<(Obj, Metadata)>)
    ensures r.Ok? <==> Lower(Suffix(name)) == ".json" && read.Decoded? && read.j.JObj?
    ensures r.Ok? ==> r.value.1 == Metadata(map[], Some(BaseName(name)), None)
    ensures Lower(Suffix(name)) != ".json" ==> r == Err(TypeError)
  {
    if Lower(Suffix(name)) != ".json" then Err(TypeError)
    else match read
      case BadJson => Err(JSONDecodeError)
      case Unreadable => Err(OSError)
      case Decoded(j) =>
        if !j.JObj? then Err(RuntimeError)
        else Ok((j.fields, Metadata(map[], Some(BaseName(name)), None)))
  }

  /** The directory branch of `load`. */
  function LoadDirSpec(resolved: string, files: seq<(string, FileRead)>): (Obj, Metadata) {
    var (contents, inferred, found) := Merge(files);
    (contents, Metadata(map k | k in inferred && inferred[k] != DefaultFilename :: inferred[k],
                        if found then Some(DefaultFilename) else None, Some(resolved)))
  }

  /** `load(path)` on what the path names. */
  function LoadSpec(node: PathNode): (r: Result<(Obj, Metadata)>)
    ensures node == Missing ==> r == Err(FileNotFoundError)
    ensures node == Special ==> r == Err(ValueError)
  {
    match node
    case Missing => Err(FileNotFoundError)
    case AFile(name, read) => LoadFromFile(name, read)
    case ADir(resolved, files) => Ok(LoadDirSpec(resolved, files))
    case Special => Err(ValueError)
  }

  /** The mapping equals the class attribute: only an all-string dict with
      the same entries (or an empty one) compares equal. */
  predicate SameAsClassMapping(m: ContentMapping, classMapping: MappingArg) {
    classMapping.MDict? && CheckNew(classMapping.entries) == Ok(m)
  }

  class Serialiser {
    /** the class attribute `content_mapping` */
    const classMapping: MappingArg
    var contentMapping: ContentMapping
    var includeDefaults: bool

    constructor (classMapping: MappingArg, mapping: ContentMapping, includeDefaults: bool)
      ensures this.classMapping == classMapping
      ensures contentMapping == mapping && this.includeDefaults == includeDefaults
    {
      this.classMapping := classMapping;
      contentMapping := mapping;
      this.includeDefaults := includeDefaults;
    }

    /** `_save_split_content` and `_save_dict_to_json` only; the object is
        not changed. */
    method Save(full: Obj, path: string, mappingArg: Option<MappingArg>, ignore: seq<Key>) returns (r: Result<Saved>)
      ensures r == SaveSpec(contentMapping, full, path, mappingArg, ignore)
    {
      var mapping: ContentMapping;
      if mappingArg.Some? {
        var normalised := NormaliseMapping(mappingArg.value);
        if normalised.Err? {
          return Err(normalised.error);
        }
        mapping := normalised.value;
      } else {
        mapping := contentMapping;
      }
      var contents := Without(full, ignore);
      mapping := MappingWithout(mapping, ignore);
      var suffix := Suffix(path);
      if suffix == ".json" {
        return Ok(SingleFile(path, contents));
      } else if suffix == "" {
        var written, _ := SaveSplitContent(contents, mapping);
        return Ok(Folder(path, written));
      }
      return Err(ValueError);
    }

    /** `load(path)`: the loaded contents and metadata; the inferred
        mapping replaces the instance's only while that is still the class
        default. */
    method Load(node: PathNode) returns (r: Result<(Obj, Metadata)>)
      modifies this
      ensures r == LoadSpec(node)
      ensures contentMapping ==
        if r.Ok? && SameAsClassMapping(old(contentMapping), classMapping) then r.value.1.contentMapping
        else old(contentMapping)
      ensures includeDefaults == old(includeDefaults)
    {
      match node {
        case Missing => return Err(FileNotFoundError);
        case Special => return Err(ValueError);
        case AFile(name, read) =>
          r := LoadFromFile(name, read);
          if r.Err? {
            return;
          }
        case ADir(resolved, files) =>
          var contents, mapping, defaultFile := LoadFromDirectory(files);
          r := Ok((contents, Metadata(mapping, defaultFile, Some(resolved))));
      }
      if SameAsClassMapping(contentMapping, classMapping) {
        contentMapping := r.value.1.contentMapping;
      }
    }
  }

  /** `JSONSerialiser(content_mapping, include_defaults)`: the argument,
      or else the class attribute, normalised; a bad one is a `TypeError`. */
  method NewSerialiser(classMapping: MappingArg, mappingArg: Option<MappingArg>, includeDefaults: bool)
    returns (r: Result<Serialiser>)
    ensures r.Err? <==> NormaliseMapping(mappingArg.GetOr(classMapping)).Err?
    ensures r.Ok? ==> fresh(r.value) && r.value.classMapping == classMapping
    ensures r.Ok? ==> r.value.contentMapping == NormaliseMapping(mappingArg.GetOr(classMapping)).value
    ensures r.Ok? ==> r.value.includeDefaults == includeDefaults
  {
    var normalised := NormaliseMapping(mappingArg.GetOr(classMapping));
    if normalised.Err? {
      return Err(normalised.error);
    }
    var s := new Serialiser(classMapping, normalised.value, includeDefaults);
    return Ok(s);
  }
}

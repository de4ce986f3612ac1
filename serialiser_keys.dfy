/** `quam/serialisation/json.py`, the pure half: recovering int keys on
    load and normalising a `content_mapping` argument. */
module SerialiserKeys {
  import opened Wrappers
  import opened Strings
  import opened JsonValue

  // ---------------------------------------------------------------------
  // convert_int_keys

  /** What the decoder's object hook receives: a freshly decoded object,
      as its string keys in file order, or any other value. */
  datatype HookArg = PyDict(entries: seq<(string, Json)>) | NotDict(v: Json)

  /** `int(key)` when it parses, else the key kept as a string. */
  function KeyOfString(s: string): (r: Key)
    ensures r.KInt? <==> IsDigits(s) || (|s| > 1 && s[0] in {'-', '+'} && IsDigits(s[1..]))
    ensures r.KInt? ==> ParseInt(s) == Ok(r.i)
    ensures r.KStr? ==> r.s == s
  {
    match ParseInt(s)
    case Ok(n) => KInt(n)
    case Err(_) => KStr(s)
  }

  /** The dict built by assigning the entries in order: a key met twice
      keeps its last value. */
  function ConvertEntries(entries: seq<(string, Json)>): (r: Obj)
    ensures r.Keys == set i | 0 <= i < |entries| :: KeyOfString(entries[i].0)
    decreases |entries|
  {
    if entries == [] then map[]
    else
      var n := |entries| - 1;
      var prefix := ConvertEntries(entries[..n]);
      assert forall i | 0 <= i < n :: entries[..n][i] == entries[i];
      prefix[KeyOfString(entries[n].0) := entries[n].1]
  }

  /** `convert_int_keys(obj)`: a non-dict is passed through; a dict gets
      every `int()`-parsable key as an int. */
  function ConvertIntKeys(obj: HookArg): (r: Json)
    ensures obj.NotDict? ==> r == obj.v
    ensures obj.PyDict? ==> r.JObj? && r.fields.Keys == set i | 0 <= i < |obj.entries| :: KeyOfString(obj.entries[i].0)
  {
    match obj
    case NotDict(v) => v
    case PyDict(entries) => JObj(ConvertEntries(entries))
  }

  /** An entry whose converted key does not come again later keeps its
      value. */
  lemma {:induction false} ConvertLastWins(entries: seq<(string, Json)>, i: nat)
    requires i < |entries|
    requires forall j | i < j < |entries| :: KeyOfString(entries[j].0) != KeyOfString(entries[i].0)
    ensures ConvertEntries(entries)[KeyOfString(entries[i].0)] == entries[i].1
    decreases |entries|
  {
    var n := |entries| - 1;
    var key := KeyOfString(entries[i].0);
    assert ConvertEntries(entries) == ConvertEntries(entries[..n])[KeyOfString(entries[n].0) := entries[n].1];
    if i < n {
      assert KeyOfString(entries[n].0) != key;
      assert forall j | i < j < n :: entries[..n][j] == entries[j];
      assert entries[..n][i] == entries[i];
      ConvertLastWins(entries[..n], i);
    }
  }

  /** `json.dump` writes an int key as its decimal string. */
  function DumpKey(k: Key): string {
    match k
    case KStr(s) => s
    case KInt(n) => IntToString(n)
  }

  /** A key survives the dump and the hook unless it is a string that
      reads as an int. */
  predicate Recoverable(k: Key) {
    k.KInt? || ParseInt(k.s).Err?
  }

  lemma DumpKeyRecovered(k: Key)
    requires Recoverable(k)
    ensures KeyOfString(DumpKey(k)) == k
  {
    if k.KInt? {
      IntToStringParses(k.i);
    }
  }

  /** The entries as they are written to a file. */
  function Dumped(entries: seq<(Key, Json)>): (r: seq<(string, Json)>)
    ensures |r| == |entries|
    ensures forall i | 0 <= i < |entries| :: r[i] == (DumpKey(entries[i].0), entries[i].1)
  {
    seq(|entries|, i requires 0 <= i < |entries| => (DumpKey(entries[i].0), entries[i].1))
  }

  /** The dict whose entries, in order, are `entries`. */
  function DictOf(entries: seq<(Key, Json)>): Obj
    decreases |entries|
  {
    if entries == [] then map[]
    else DictOf(entries[..|entries| - 1])[entries[|entries| - 1].0 := entries[|entries| - 1].1]
  }

  /** Writing a dict and reading it back with the hook gives the dict back,
      int keys included, as long as no string key reads as an int. */
  lemma {:induction false} IntKeysRoundTrip(entries: seq<(Key, Json)>)
    requires forall i | 0 <= i < |entries| :: Recoverable(entries[i].0)
    ensures ConvertIntKeys(PyDict(Dumped(entries))) == JObj(DictOf(entries))
    decreases |entries|
  {
    if entries != [] {
      var n := |entries| - 1;
      assert Dumped(entries)[..n] == Dumped(entries[..n]);
      IntKeysRoundTrip(entries[..n]);
      DumpKeyRecovered(entries[n].0);
    }
  }

  // ---------------------------------------------------------------------
  // _validate_and_convert_content_mapping

  /** The values a `content_mapping` argument can hold: strings, sequences
      (lists, tuples and sets) and anything else. */
  datatype PyVal = PStr(s: string) | PSeq(items: seq<PyVal>) | POther

  /** The `content_mapping` argument: `None`, a dict (its entries in
      order), or some other object. */
  datatype MappingArg = MNone | MDict(entries: seq<(PyVal, PyVal)>) | MNotDict

  /** A normalised mapping: component name to file name. Int components
      only come from a mapping inferred at load time. */
  type ContentMapping = map<Key, string>

  /** Every entry of an old-format mapping is a string file name with a
      sequence of string component names. */
  predicate OldEntryOk(e: (PyVal, PyVal)) {
    e.0.PStr? && e.1.PSeq? && forall j | 0 <= j < |e.1.items| :: e.1.items[j].PStr?
  }

  /** Assigns `filename` to each of `components` in order. */
  function AssignAll(m: ContentMapping, components: seq<PyVal>, filename: string): (r: ContentMapping)
    requires forall j | 0 <= j < |components| :: components[j].PStr?
    decreases |components|
  {
    if components == [] then m
    else
      var n := |components| - 1;
      AssignAll(m, components[..n], filename)[KStr(components[n].s) := filename]
  }

  /** The old format inverted, entry by entry and component by component. */
  function InvertOld(entries: seq<(PyVal, PyVal)>): (r: Result<ContentMapping>)
    ensures r.Ok? <==> forall i | 0 <= i < |entries| :: OldEntryOk(entries[i])
    ensures r.Err? ==> r.error == TypeError
    decreases |entries|
  {
    if entries == [] then Ok(map[])
    else
      var n := |entries| - 1;
      var prefix := InvertOld(entries[..n]);
      assert forall i | 0 <= i < n :: entries[..n][i] == entries[i];
      if prefix.Err? then Err(TypeError)
      else if !OldEntryOk(entries[n]) then Err(TypeError)
      else Ok(AssignAll(prefix.value, entries[n].1.items, entries[n].0.s))
  }

  /** The file that the last listing of component `c` names: the reference
      the forward inversion is compared against. */
  function LastFile(entries: seq<(PyVal, PyVal)>, c: string): Option<string>
    decreases |entries|
  {
    if entries == [] then None
    else
      var e := entries[|entries| - 1];
      if e.0.PStr? && e.1.PSeq? && PStr(c) in e.1.items then Some(e.0.s)
      else LastFile(entries[..|entries| - 1], c)
  }

  lemma {:induction false} AssignAllSpec(m: ContentMapping, components: seq<PyVal>, filename: string, k: Key)
    requires forall j | 0 <= j < |components| :: components[j].PStr?
    ensures k in AssignAll(m, components, filename) <==> k in m || (k.KStr? && PStr(k.s) in components)
    ensures k in AssignAll(m, components, filename) ==>
      AssignAll(m, components, filename)[k] == if k.KStr? && PStr(k.s) in components then filename else m[k]
    decreases |components|
  {
    if components != [] {
      var n := |components| - 1;
      AssignAllSpec(m, components[..n], filename, k);
      assert components == components[..n] + [components[n]];
      if k.KStr? && PStr(k.s) in components && PStr(k.s) != components[n] {
        assert PStr(k.s) in components[..n];
      }
    }
  }

  /** Conflicts between files are settled by the last file listing the
      component, and nothing but listed components is mapped. */
  lemma {:induction false} OldFormatLastWins(entries: seq<(PyVal, PyVal)>, c: string)
    requires InvertOld(entries).Ok?
    ensures KStr(c) in InvertOld(entries).value <==> LastFile(entries, c).Some?
    ensures KStr(c) in InvertOld(entries).value ==> InvertOld(entries).value[KStr(c)] == LastFile(entries, c).value
    decreases |entries|
  {
    if entries != [] {
      var n := |entries| - 1;
      assert forall i | 0 <= i < n :: entries[..n][i] == entries[i];
      var prefix := InvertOld(entries[..n]).value;
      OldFormatLastWins(entries[..n], c);
      AssignAllSpec(prefix, entries[n].1.items, entries[n].0.s, KStr(c));
    }
  }

  /** The new format checked: every key and value must be a string. */
  function CheckNew(entries: seq<(PyVal, PyVal)>): (r: Result<ContentMapping>)
    ensures r.Ok? <==> forall i | 0 <= i < |entries| :: entries[i].0.PStr? && entries[i].1.PStr?
    ensures r.Err? ==> r.error == TypeError
    ensures r.Ok? ==> forall i | 0 <= i < |entries| :: KStr(entries[i].0.s) in r.value
    decreases |entries|
  {
    if entries == [] then Ok(map[])
    else
      var n := |entries| - 1;
      var prefix := CheckNew(entries[..n]);
      assert forall i | 0 <= i < n :: entries[..n][i] == entries[i];
      if prefix.Err? then Err(TypeError)
      else if !(entries[n].0.PStr? && entries[n].1.PStr?) then Err(TypeError)
      else Ok(prefix.value[KStr(entries[n].0.s) := entries[n].1.s])
  }

  /** A new-format mapping comes back as it was: with the dict's keys
      distinct, every entry is kept as is. */
  lemma {:induction false} NewFormatUnchanged(entries: seq<(PyVal, PyVal)>, i: nat)
    requires CheckNew(entries).Ok? && i < |entries|
    requires forall j | 0 <= j < |entries| && j != i :: entries[j].0 != entries[i].0
    ensures CheckNew(entries).value[KStr(entries[i].0.s)] == entries[i].1.s
    decreases |entries|
  {
    var n := |entries| - 1;
    if i < n {
      assert forall j | 0 <= j < n :: entries[..n][j] == entries[j];
      NewFormatUnchanged(entries[..n], i);
      assert entries[n].0 != entries[i].0;
    }
  }

  /** `_validate_and_convert_content_mapping(mapping)`: the format is
      inferred from the first value. */
  function NormaliseMapping(arg: MappingArg): (r: Result<ContentMapping>)
    ensures arg == MNone || arg == MDict([]) ==> r == Ok(map[])
    ensures arg == MNotDict ==> r == Err(TypeError)
    ensures r.Err? ==> r.error == TypeError
    ensures r.Ok? ==> forall k | k in r.value :: k.KStr?
  {
    match arg
    case MNone => Ok(map[])
    case MNotDict => Err(TypeError)
    case MDict(entries) =>
      if entries == [] then Ok(map[])
      else if entries[0].1.PSeq? then
        var r := InvertOld(entries);
        if r.Ok? then OldFormatStrKeys(entries); r else r
      else if entries[0].1.PStr? then
        var r := CheckNew(entries);
        if r.Ok? then
          NewFormatNoInts(entries);
          r
        else r
      else Err(TypeError)
  }

  lemma OldFormatStrKeys(entries: seq<(PyVal, PyVal)>)
    requires InvertOld(entries).Ok?
    ensures forall k | k in InvertOld(entries).value :: k.KStr?
  {
    forall k | k in InvertOld(entries).value ensures k.KStr? {
      if k.KInt? {
        OldFormatNoInts(entries, k);
      }
    }
  }

  lemma {:induction false} OldFormatNoInts(entries: seq<(PyVal, PyVal)>, k: Key)
    requires InvertOld(entries).Ok? && k.KInt?
    ensures k !in InvertOld(entries).value
    decreases |entries|
  {
    if entries != [] {
      var n := |entries| - 1;
      assert forall i | 0 <= i < n :: entries[..n][i] == entries[i];
      OldFormatNoInts(entries[..n], k);
      AssignAllSpec(InvertOld(entries[..n]).value, entries[n].1.items, entries[n].0.s, k);
    }
  }

  lemma {:induction false} NewFormatNoInts(entries: seq<(PyVal, PyVal)>)
    requires CheckNew(entries).Ok?
    ensures forall k | k in CheckNew(entries).value :: k.KStr?
    decreases |entries|
  {
    if entries != [] {
      var n := |entries| - 1;
      assert forall i | 0 <= i < n :: entries[..n][i] == entries[i];
      NewFormatNoInts(entries[..n]);
    }
  }

  /** A value of the other kind than the first one is a `TypeError`, in
      either direction. */
  lemma MixedFormatsRaise(entries: seq<(PyVal, PyVal)>, i: nat)
    requires 0 < |entries| && i < |entries|
    requires (entries[0].1.PSeq? && entries[i].1.PStr?) || (entries[0].1.PStr? && entries[i].1.PSeq?)
    ensures NormaliseMapping(MDict(entries)) == Err(TypeError)
  {
    if entries[0].1.PSeq? {
      assert !OldEntryOk(entries[i]);
    } else {
      assert !(entries[i].0.PStr? && entries[i].1.PStr?);
    }
  }

  /** A component name that is not a string is a `TypeError`. */
  lemma NonStringComponentRaises(entries: seq<(PyVal, PyVal)>, i: nat, j: nat)
    requires 0 < |entries| && i < |entries| && entries[0].1.PSeq?
    requires entries[i].1.PSeq? && j < |entries[i].1.items| && !entries[i].1.items[j].PStr?
    ensures NormaliseMapping(MDict(entries)) == Err(TypeError)
  {
    assert !OldEntryOk(entries[i]);
  }
}

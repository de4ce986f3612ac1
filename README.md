# A verified model of the QuAM component tree

QuAM (Quantum Abstract Machine) describes a quantum-control setup as a tree
of typed components. Channels, pulses, mixers, Octaves, ports and qubits hang
under one root. Any attribute may hold a string reference (`#/a/b`, `#./x`,
`#../y`) to another place in the tree. Reads resolve a reference lazily and
fall back to the raw string when resolution fails. Each node has exactly one
parent. The tree is flattened to JSON with `__class__` tags and rebuilt from
it. The tree is also compiled into a QUA configuration dict by each
component's `apply_to_config`.

This project models that core in Dafny:

- **Tree store.** The live object graph is a `map<Id, Node>`
  (`QuamModel`). Each node has a kind, a parent link, a class path and
  ordered fields. Mutation goes through the class `QuamStore.Tree`.
- **References.** Parsing and resolution (`StringReference`, `Resolver`,
  `ResolverProps`) follow the reference grammar and its error handling.
  The `ReferenceClass` read and write guards are modelled.
- **Walking and sorting.** `get_attrs`, `get_reference`, `to_dict`,
  `iterate_components` and `sort_quam_components` are in `QuamTree` and
  `SortComponents`.
- **Rebuilding.** Instantiation from plain data (`Instantiation`) uses
  dataclass annotations, class paths and type validation (`DataclassUtil`,
  `TypeChecking`, `General`) and the frequency-converter deprecation rule
  (`Deprecations`).
- **Persistence.** The JSON serialiser covers integer keys, the content
  mapping, the split save and the directory merge on load
  (`SerialiserKeys`, `JsonSerialiser`). The config version validator and
  the v1→v2→v3 migrations are in `Validators` and `Migrations`.
- **QUA config builders.** Ports and their containers, channels, pulses,
  mixers and frequency converters, and the Octave are in `Ports`,
  `PortsContainers`, `Channels`, `Pulses`, `Hardware` and `Octaves`.
  `ConfigFinal` holds the final config actions, and `RootConfig` the
  `generate_config` step that chains the traversal, the sort, every
  component's `apply_to_config` and the final actions.
- **Small utilities.** Qubit naming and `q1 @ q2` are in `Qubits`, macro id
  inference in `QuamMacro`, and operation signature partitioning in
  `FunctionProperties`. Pulse-string parsing is in `PulseUtil`, and the
  state tracker's JSON-patch summary in `StateTracker`.

Python exceptions become `Wrappers.Result` errors named after the exception
class. JSON-like data is `JsonValue.Json`, whose dicts are
`map<Key, Json>` with string or integer keys. A dict that the Python code mutates
in place is a `JsonValue.Dict` object whose methods reassign its contents.
A state-changing operation is a method, proved equal to a pure function of
the old state. The lemmas beside that function state what the Python code
promises about it. Recursion along parent chains and reference chains
carries a `fuel` bound, which stands for Python's recursion depth.

## Model

| member | source | states |
|---|---|---|
| StringReference.AnchorsPartitionReferences | quam/utils/string_reference.py:8-26 | a value is a reference exactly when it is a string starting with `#/`, `#./` or `#../` (non-strings never are); absolute references are exactly the `#/` ones, and the three anchors exclude each other |
| StringReference.SplitNextAttribute | quam/utils/string_reference.py:29-48 | after stripping every leading `#` and `/`, an empty remainder gives `("", "")`, a remainder without `/` gives `(remainder, "")`, otherwise the remainder is `head + "/" + rest` with no `/` and no leading `#`/`/` in `head` |
| StringReference.Render | quam/core/quam_classes.py:421 | a rendered path is a reference, absolute exactly when its anchor is the root |
| StringReference.Parse | tests/utils/test_join_references.py:5-22 | parsing keeps the anchor kind: the result is absolute exactly when the text starts with `#/` |
| StringReference.ParseRender | tests/utils/test_join_references.py:5-22 | parsing the rendering of any normalised path (plain segments, any anchor) gives the path back |
| StringReference.ParseRenderRelative | tests/utils/test_join_references.py:16-21 | the same round trip for paths anchored one or more levels up (`#../`, `#../../`, ...) |
| StringReference.JoinReferences | tests/utils/test_join_references.py:5-47 | an absolute or non-reference `relative` is a `ValueError`; a joined reference is a reference and is absolute exactly when the base is |
| StringReference.JoinSibling | tests/utils/test_join_references.py:9-20 | joining `#../seg` onto any normalised reference with at least one segment replaces its last segment by `seg` |
| StringReference.JoinChild | tests/utils/test_join_references.py:8-45 | joining `#./seg` onto any normalised reference appends `seg` |
| StringReference.SplitReference | quam/core/quam_classes.py:664-670 | the attribute part has no `/` and the reference is `holder + "/" + attribute`, with the holder keeping its slash when it is a bare anchor |
| StringReference.SplitAllJoin | quam/core/quam_classes.py:421 | splitting segments joined with `/` gives the segments back |
| StringReference.StepsAppend | tests/utils/test_join_references.py:11 | normalising `a + b` is normalising `a` and then `b` |
| QuamModel.RawValue | quam/core/quam_classes.py:1004-1020 | the raw (unresolved) value of a slot is one of the node's stored values; a missing name is an `AttributeError`; for a dataclass object this is also what `get_unreferenced_value` returns |
| QuamModel.GetAttrName | quam/core/quam_classes.py:297-317 | the name found is one whose raw value is the child object itself (identity, not equality); none found is an `AttributeError` |
| QuamModel.FindName | quam/core/quam_classes.py:309-311 | the loop over attribute names returns a name whose raw value is the child |
| QuamModel.FindIndex | quam/core/quam_classes.py:1174-1183 | the index returned is the first item that is the child, and no earlier item is |
| QuamModel.GetRoot | quam/core/quam_classes.py:275-295 | a root found on the parent chain is a `QuamRoot`; running out of recursion depth is a `RecursionError` |
| QuamModel.GetReference | quam/core/quam_classes.py:370-434 | the root gives `#/attr`; both `attr` and `relative_path` is a `ValueError`; no parent is an `AttributeError`; without `relative_path` the result is absolute |
| QuamModel.FieldDefault | quam/core/quam_classes.py:333-337 | a default is found exactly when a field of that name is declared |
| QuamModel.UndeclaredIsNeverDefault | quam/core/quam_classes.py:334-335 | a name that is not a declared field is never treated as holding its default (a one-step unfolding of the definitions, kept as a rewriting rule for the proofs) |
| QuamModel.AttrNames | quam/core/quam_classes.py:263-273 | the attribute names of a dataclass node are its declared fields |
| Resolver.ParentOf | quam/core/quam_classes.py:206-212 | `obj.parent` is defined exactly for objects, and stays in the store |
| Resolver.WalkStripped | quam/utils/string_reference.py:65-91 | walking an empty path returns the start object |
| Resolver.Walk | quam/utils/string_reference.py:51-91 | every value reached by the walk is in the store |
| Resolver.GetAttr | quam/utils/string_reference.py:74-91 | a segment on a non-object is an `AttributeError`; on a `QuamList` a non-digit segment succeeds exactly when it is `parent` and gives the parent (or `None`); any value reached is in the store |
| Resolver.GetAttribute | quam/utils/reference_class.py:34-45 | a stored name always reads; a name not stored is looked up among the class's properties (`AttributeError` when there is none, and a property that raises raises the same error); helper names and non-reference values, stored or computed, come back raw |
| Resolver.DictGetItem | quam/core/quam_classes.py:905-918 | a missing key is a `KeyError`; a stored non-reference comes back as is |
| Resolver.ListGetItem | quam/core/quam_classes.py:1114-1124 | an index past the end is an `IndexError`; a stored non-reference comes back as is |
| Resolver.Resolve | quam/core/quam_classes.py:553-604 | a non-reference comes back unchanged; a broken reference raises only when `raise_error_missing_reference` is set |
| Resolver.GetReferencedValue | quam/utils/string_reference.py:94-120 | a non-reference is a `ValueError`, and no `AttributeError` or `KeyError` escapes the walk |
| ResolverProps.SimpleNameSegment | quam/utils/string_reference.py:40-48 | a plain name with an optional rest is left alone by the strip and splits into that name and rest |
| ResolverProps.WalkDotSlash | quam/utils/string_reference.py:65-72 | walking `#./s` is walking `s`: `./` stays put |
| ResolverProps.WalkUp | quam/utils/string_reference.py:65-70 | `../rest` walks `rest` from the parent, and fails with `obj.parent`'s error when there is none |
| ResolverProps.ListParentAttr | quam/core/quam_classes.py:206-212 | the segment `parent` on a `QuamList` reads its parent descriptor |
| ResolverProps.ListParentIsUp | quam/utils/string_reference.py:68-91 | on a `QuamList`, walking `parent/rest` reaches the same value as walking `../rest` |
| ResolverProps.WalkSingle | quam/utils/string_reference.py:74-91 | walking a single plain name is one `getattr` (or item access) on the start object |
| ResolverProps.WalkSegment | quam/utils/string_reference.py:74-91 | a walk stops at the first failing segment with its error, and otherwise continues from the value that segment gives |
| ResolverProps.WalkIgnoresStrip | quam/utils/string_reference.py:65 | leading `#` and `/` characters never change where a walk goes |
| ResolverProps.WalkJoin | quam/utils/string_reference.py:65-91 | walking plain names joined by `/` is reading them one after the other |
| ResolverProps.WalkAbsolute | quam/utils/string_reference.py:114-118 | walking `#/a/b/...` from the root reads `a`, then `b`, ... from the root |
| ResolverProps.WalkNamesSnoc | quam/utils/string_reference.py:91 | one more name reads one more attribute of the value reached so far |
| ResolverProps.DotSlashIsRelative | quam/utils/string_reference.py:8-26 | `#./s` is a reference and not an absolute one |
| ResolverProps.GetAttributeOfReference | quam/utils/reference_class.py:34-45 | reading a field that holds a reference gives the resolved value, and the raw reference string whenever resolution raises (a one-step unfolding of the definitions, kept as a rewriting rule for the proofs) |
| ResolverProps.GetAttrOfObject | quam/utils/reference_class.py:34-45 | `getattr` on a dataclass object is its `__getattribute__` (a one-step unfolding of the definitions, kept as a rewriting rule for the proofs) |
| ResolverProps.ResolveRootError | quam/core/quam_classes.py:568 | an error while looking for the root propagates out of reference resolution |
| ResolverProps.ResolveRelativeOk | quam/core/quam_classes.py:576-577 | a `#./` reference that walks resolves to what the walk reaches |
| ResolverProps.ResolveRelativeMissing | quam/core/quam_classes.py:576-604 | a `#./` reference to a missing attribute raises `ValueError` when `raise_error_missing_reference` is set, and otherwise comes back as the raw string |
| ResolverProps.ResolveRelativeFails | quam/core/quam_classes.py:576-604 | a `#./` reference whose walk fails either raises or comes back as the raw string; it never resolves to another value |
| ResolverProps.ResolveAbsoluteOk | quam/core/quam_classes.py:568-577 | a `#/` reference from any object under a root resolves to what walking it from that root reaches |
| ResolverProps.SelfReferenceYieldsRaw | quam/utils/reference_class.py:44-45 | a field referring to itself reads back as its raw reference string, whatever the recursion depth |
| ResolverProps.ChainIsFollowed | quam/utils/reference_class.py:40-42 | a field `a = "#./b"` reads as whatever `b` reads as (so chains are followed), and as its raw string when reading `b` fails (no such field, or a property that raises) |
| ResolverProps.NonRootReference | quam/core/quam_classes.py:398-401 | a reference of a non-root object needs a parent |
| ResolverProps.GetReferenceStep | quam/core/quam_classes.py:403-421 | a child's reference is its parent's reference (with `#/` collapsed to `#`) + `/` + its name in the parent |
| ResolverProps.GetRootStep | quam/core/quam_classes.py:285-286 | the root of a child is the root of its parent |
| ResolverProps.LookupByAttrName | quam/core/quam_classes.py:297-317 | reading a parent at the name `get_attr_name` reports for a child gives that child, for fields, dict keys and list indices alike |
| ResolverProps.LookupField | quam/core/quam_classes.py:297-317 | the same for a dataclass field |
| ResolverProps.LookupDictKey | quam/core/quam_classes.py:953-973 | the same for a `QuamDict` key |
| ResolverProps.LookupListSlot | quam/core/quam_classes.py:1174-1183 | the same for a `QuamList` index, which is a digit string |
| ResolverProps.ReferenceWalksBack | quam/core/quam_classes.py:370-434 | the reference of an object is `#/` + plain names whose walk from its root reaches the object |
| ResolverProps.ChildReference | quam/core/quam_classes.py:403-421 | a child's reference extends its parent's by its name |
| ResolverProps.ChildWalk | quam/core/quam_classes.py:414-421 | walking the parent's names and then the child's name reaches the child |
| ResolverProps.ReferenceRoundTrip | quam/core/quam_classes.py:370-434 | resolving `get_reference()` of an object, from any object with the same root, gives that object back |
| QuamStore.ParentSet | quam/core/quam_classes.py:214-225 | setting the parent fails (`AttributeError`, nothing changed) exactly when a different parent is already set; `None` clears it, the same parent again is a no-op, and no other node changes |
| QuamStore.Adopted | quam/core/quam_classes.py:706-707 | storing a non-object adopts nothing; storing an object sets its parent to the holder |
| QuamStore.AttrSet | quam/utils/reference_class.py:47-67 | a non-`None` write over a field holding a reference after initialisation is a `ValueError` that changes nothing; `None`, a new name or a write before initialisation is never refused; otherwise the field takes the value, an object value gets the holder as parent, and an object owned elsewhere is an `AttributeError` |
| QuamStore.DictPut | quam/core/quam_classes.py:921-924 | a dict write keeps every key in place, replacing the value of an existing key or appending a new key at the end |
| QuamStore.DictPutGet | quam/core/quam_classes.py:921-924 | after writing `k` the dict maps `k` to the value and every other key as before |
| QuamStore.EntryWritten | quam/core/quam_classes.py:921-924 | the node's dict maps `k` to the value, every other key and every other node unchanged |
| QuamStore.DictItemSet | quam/core/quam_classes.py:921-927 | a non-`None` write over an entry holding a reference is a `ValueError` that changes nothing, and a new key or `None` is never refused; otherwise `d[k] = v` stores `v` under `k`, keeps the other keys, sets an object's parent to the dict, and an object owned elsewhere is an `AttributeError` |
| QuamStore.ListIndex | quam/core/quam_classes.py:1126-1128 | a list index is valid exactly when `-n <= i < n`, a negative one counting from the end |
| QuamStore.ListItemSet | quam/core/quam_classes.py:1126-1131 | an index out of range is an `IndexError` that changes nothing; otherwise the slot takes the value and an object gets the list as parent |
| QuamStore.InsertIndex | quam/core/quam_classes.py:1145-1151 | `insert` clamps its index into `0..n`, counting a negative one from the end |
| QuamStore.ListInserted | quam/core/quam_classes.py:1145-1151 | `insert(i, v)` puts `v` at the clamped index with every other item kept in order, and adopts an object |
| QuamStore.ListAppended | quam/core/quam_classes.py:1137-1143 | `append(v)` adds `v` at the end and adopts an object; a failed adoption changes nothing |
| QuamStore.AdoptAll | quam/core/quam_classes.py:1153-1157 | on success every object of the iterable has the list as parent; no stored value changes |
| QuamStore.ListExtended | quam/core/quam_classes.py:1153-1159 | `extend(vs)` appends `vs` in order after adopting each object; if an adoption fails the items are unchanged |
| QuamStore.AttrSetKeepsReferences | quam/core/quam_classes.py:674-679 | writing a field that does not hold a reference leaves every reference string in the tree intact |
| QuamStore.DictItemSetKeepsReferences | quam/core/quam_classes.py:674-679 | the same for a dict key |
| QuamStore.ListItemSetKeepsReferences | quam/core/quam_classes.py:674-679 | the same for a list slot |
| QuamStore.SlotSet | quam/core/quam_classes.py:899-903 | `setattr(parent_obj, ref_attr, value)` on a slot without a reference keeps every reference intact, and on success the slot's raw value is the new value; on a dict, `parent` set to an object or `None` changes the dict's own parent link instead of an entry |
| QuamStore.WriteTarget | quam/core/quam_classes.py:653-679 | the slot `set_at_reference` writes holds no reference; a missing attribute is an `AttributeError`; a non-reference is written in place with `allow_non_reference` and a `ValueError` without it |
| QuamStore.AtReferenceSet | quam/core/quam_classes.py:636-679 | `set_at_reference` never overwrites a reference string anywhere; errors before the write change nothing; a non-reference is a plain write or a `ValueError` |
| QuamStore.Tree.constructor | quam/core/quam_classes.py:248-261 | a tree over a valid store with no last-instantiated root |
| QuamStore.Tree.PostInit | quam/utils/reference_class.py:12-14 | marks the node initialised; a root becomes the last instantiated root |
| QuamStore.Tree.SetParent | quam/core/quam_classes.py:214-225 | the new store is `ParentSet` of the old one |
| QuamStore.Tree.Adopt | quam/core/quam_classes.py:706-707 | the new store is `Adopted` of the old one |
| QuamStore.Tree.SetAttr | quam/utils/reference_class.py:47-67 | the new store is `AttrSet` of the old one |
| QuamStore.Tree.DictSetItem | quam/core/quam_classes.py:921-927 | the new store is `DictItemSet` of the old one |
| QuamStore.Tree.ListSetItem | quam/core/quam_classes.py:1126-1131 | the new store is `ListItemSet` of the old one |
| QuamStore.Tree.Append | quam/core/quam_classes.py:1137-1143 | the new store is `ListAppended` of the old one |
| QuamStore.Tree.Insert | quam/core/quam_classes.py:1145-1151 | the new store is `ListInserted` of the old one |
| QuamStore.Tree.Extend | quam/core/quam_classes.py:1153-1159 | the new store is `ListExtended` of the old one |
| QuamStore.Tree.AdoptEach | quam/core/quam_classes.py:1154-1157 | the loop that adopts each item leaves the new store at `AdoptAll` of the old one |
| QuamStore.Tree.SetSlot | quam/core/quam_classes.py:679 | the new store is `SlotSet` of the old one |
| QuamStore.Tree.SetAtReference | quam/core/quam_classes.py:636-679 | the new store is `AtReferenceSet` of the old one, with references resolved through the class properties given |
| QuamTree.VisibleNames | quam/core/quam_classes.py:451-454 | the names `get_attrs` reads are exactly the declared fields not in `_skip_attrs` |
| QuamTree.ReadFields | quam/core/quam_classes.py:456-459 | every name is read in order; when all names are stored the read succeeds, raw reads fail exactly on a name not stored (`AttributeError`), and followed values differ from the stored ones only where the stored value is a reference |
| QuamTree.DropDefaults | quam/core/quam_classes.py:461-466 | keeps exactly the pairs whose value is not the declared default of its field |
| QuamTree.GetAttrs | quam/core/quam_classes.py:436-467 | a `QuamList` has no attributes (`NotImplementedError`); a `QuamDict` gives its data whatever the flags |
| QuamTree.GetAttrsNames | quam/core/quam_classes.py:451-466 | every reported name is a declared, non-skipped field whose value is not its default unless defaults are included, and every such raw field is reported |
| QuamTree.ToDict | quam/core/quam_classes.py:469-504 | a dataclass node becomes a dict tagged with its `__class__` path; a `QuamDict` a dict without `__class__`; a `QuamList` a list of the same length |
| QuamTree.EntriesToJson | quam/core/quam_classes.py:492-499 | the converted dict has exactly the keys of the attributes |
| QuamTree.ValuesToJson | quam/core/quam_classes.py:1206-1217 | the list conversion succeeds exactly when every item converts, and then the list holds each item's own conversion at its position |
| QuamTree.ValueToJson | quam/core/quam_classes.py:493-499 | a primitive value is copied as it is; a nested node becomes its own `to_dict` with the same flags, one level deeper, and past the depth bound the conversion raises `RecursionError` |
| QuamTree.EntriesToJsonValue | quam/core/quam_classes.py:492-499 | in the converted dict, a key holds the conversion of the last attribute with that key |
| QuamTree.ToDictAttrs | quam/core/quam_classes.py:488-504 | a dataclass node's dict has exactly the keys of its attributes plus `__class__`, and each attribute key other than `__class__` holds the conversion of the last attribute's value under that key |
| QuamTree.ToDictEntries | quam/core/quam_classes.py:1061-1066 | a `QuamDict`'s dict has exactly the keys of its data minus `__class__`, and each key other than `__class__` holds the conversion of its last value made without following references or adding defaults |
| QuamTree.ToDictItems | quam/core/quam_classes.py:1206-1217 | a `QuamList` becomes a list whose every element is the conversion of the item at the same position |
| QuamTree.DictIgnoresFlags | quam/core/quam_classes.py:1061 | `QuamDict.to_dict` gives the same result whatever `follow_references` and `include_defaults` are, because it does not forward them (a one-step unfolding of the definitions, kept as a rewriting rule for the proofs) |
| QuamTree.ChildValues | quam/core/quam_classes.py:530 | the values the traversal descends into are in the store |
| QuamTree.IterateComponents | quam/core/quam_classes.py:506-537 | yields only `QuamComponent`s (never a `QuamDict` or `QuamList`), each appended to the shared skip list, so nothing is yielded twice; a component not yet skipped is yielded first, before anything nested in it |
| QuamTree.IterateValues | quam/core/quam_classes.py:532-537 | the same over the values of one object: only components, each added to the skip list once |
| QuamTree.IterateValuesConcat | quam/core/quam_classes.py:532-537 | the values are visited in field order: iterating over two runs of values yields the components of the first, then those of the second with the skip list the first left behind |
| SortComponents.IndexOf | quam/core/quam_classes.py:119-132 | `list.index`: the first position of the element, absent exactly when it is not in the list |
| SortComponents.Move | quam/core/quam_classes.py:126-136 | `remove` then `insert` is a permutation |
| SortComponents.PlaceAfter | quam/core/quam_classes.py:121-128 | the "after" loop permutes the list; when nothing moves, every "after" dependency already sits in front of the component; a dependency missing from the list is a `ValueError`, and only then does the loop fail; in a list without repeats every dependency ends up in front of the component and nothing in front of its old index moves |
| SortComponents.PlaceBefore | quam/core/quam_classes.py:130-137 | the "before" loop permutes the list; when nothing moves, every "before" dependency already sits behind the component; a dependency missing from the list is a `ValueError`, and only then does the loop fail; in a list without repeats every dependency ends up behind the component |
| SortComponents.SortPass | quam/core/quam_classes.py:113-137 | one pass permutes the list; a pass without adjustments leaves it sorted; when no component has `config_settings` the pass changes nothing and reports no adjustment |
| SortComponents.SortQuamComponents | quam/core/quam_classes.py:90-147 | the result is a permutation of the input after at most `max_attempts` passes; without a warning it satisfies every after/before constraint; with no `config_settings` anywhere the order is unchanged |
| DataclassUtil.Classify | quam/utils/dataclass.py:42-62 | an attribute is optional exactly when it has a class-level value other than the `REQUIRED` flag, or a dataclass field with a `default_factory`; otherwise it is required |
| DataclassUtil.PartitionKeys | quam/utils/dataclass.py:34-62 | `required` and `optional` hold exactly the annotated names (minus `_root`, `_references`, `_skip_attrs`, `parent`) of their category |
| DataclassUtil.PartitionTypes | quam/utils/dataclass.py:42-62 | each name keeps its own annotated type |
| DataclassUtil.AnnotationsPartition | quam/utils/dataclass.py:34-67 | `allowed` is exactly the non-hidden annotated names, the disjoint union of `required` and `optional`, each with its annotated type |
| DataclassUtil.NamesLast | quam/utils/dataclass.py:42 | the names of the annotations grow one at a time in order |
| DataclassUtil.GetDataclassAttrAnnotations | quam/utils/dataclass.py:17-67 | the loop computes `AttrAnnotations`, whose `allowed` is `required` merged with `optional` and contains only annotated names |
| DataclassUtil.FieldHasDefault | quam/utils/dataclass.py:70-76 | a field has a default exactly when `default` or `default_factory` is set |
| DataclassUtil.DataclassHasDefaultFields | quam/utils/dataclass.py:79-83 | the loop answers whether any field has a default |
| DataclassUtil.FlagRequired | quam/utils/dataclass.py:86-102 | existing namespace entries are kept; only the class's own annotated-but-unassigned names are added, each as `REQUIRED`, and only when the dataclass has a defaulted field |
| DataclassUtil.FlagRequiredIdempotent | quam/utils/dataclass.py:100-102 | flagging twice is flagging once |
| DataclassUtil.Unassigned | quam/utils/dataclass.py:100 | the list comprehension keeps exactly the annotations missing from the class dict |
| DataclassUtil.ClassDef.constructor | quam/utils/dataclass.py:86-90 | a class being decorated, with its annotations, namespace and fields |
| DataclassUtil.ClassDef.HandleInheritedRequiredFields | quam/utils/dataclass.py:86-102 | the namespace after the `setattr` loop is `FlagRequired` of the old one |
| DataclassUtil.FlaggedNamespace | quam/utils/dataclass.py:100-102 | the namespace the loop builds equals the old one plus `REQUIRED` for each unassigned annotation |
| DataclassUtil.RequiredCheck | quam/utils/dataclass.py:131-136 | the patched `__post_init__` raises `TypeError` exactly when some field still holds `REQUIRED` |
| DataclassUtil.InitAttrs | quam/utils/dataclass.py:131-133 | a keyword argument sets its field; an omitted one keeps the class default |
| DataclassUtil.OmittedRequiredRaises | quam/utils/dataclass.py:91-136 | a required field of a class with defaulted inherited fields that is omitted at construction makes the post-init check raise |
| TypeChecking.TypeIsOptional | quam/utils/type_checking.py:6-29 | exactly the two-argument unions whose second argument is `NoneType` are optional; a type without an origin never is |
| General.GetFullClassPath | quam/utils/general.py:12-23 | `module.qualname`, or the bare qualname for `__main__` or no module |
| General.SplitClassPath | quam/utils/general.py:65 | `rsplit(".", 1)`: a path without a dot is a `ValueError`; otherwise the path is `module + "." + name` with no dot in the name |
| General.ClassPathRoundTrip | quam/utils/general.py:12-65 | splitting the full path of a non-nested class defined in a module gives its module and name back |
| General.GetClassFromPath | quam/utils/general.py:64-68 | an unknown module is an `ImportError`; a found class is the one registered under the path |
| General.ValidateObjType | quam/utils/general.py:26-61 | references and an allowed `None` always pass; otherwise a `TypeError` exactly when the type check fails |
| Instantiation.PartitionFromHints | quam/utils/dataclass.py:42-62 | every type the partition files under a name is one of the class's annotated types |
| Instantiation.AnnotationsOfClassOk | quam/core/quam_instantiation.py:321 | the annotations of a class whose annotations name importable classes only name importable classes |
| Instantiation.InstAttr | quam/core/quam_instantiation.py:135-227 | with validation off a `:` reference is kept as it is; `None` passes exactly when validation is off, `None` is allowed or the type check accepts it, and otherwise it is a `TypeError`; a list for a `Tuple` becomes a tuple; an unsupported generic raises `TypeError` when validating; a quam class yields an object |
| Instantiation.InstQuamClass | quam/core/quam_instantiation.py:314-336 | contents that are not a dict raise `TypeError`; otherwise the class is the one `ChooseClass` picks (its failure is the result), its annotations are importable, and the object is that class built from the instantiated attributes, or the attributes' errors |
| Instantiation.ChooseClass | quam/core/quam_instantiation.py:316-317 | without `__class__` the annotated class is used; a string `__class__` replaces it with the class found at that path, or raises the lookup's error; any other `__class__` raises `AttributeError` |
| Instantiation.ElemStep | quam/core/quam_instantiation.py:113-128 | an element of a component type is kept verbatim when it is a reference and instantiated as that component otherwise; an element of any other type is kept; either way the result is type-checked (`TypeError`) and an undecidable subtype raises its error |
| Instantiation.Elements | quam/core/quam_instantiation.py:108 | the values iterated over are a list's or tuple's items, or a string's one-character strings in order, and no other value can be iterated |
| Instantiation.ListElem | quam/core/quam_instantiation.py:108-128 | an element of a list or tuple goes through `ElemStep` with references kept; a character of a string is type-checked as it is, or raises `TypeError` under a component type |
| Instantiation.Construct | quam/core/quam_instantiation.py:331-344 | the object carries the class's full path, the required and optional attributes as constructor arguments and the extras set afterwards |
| Instantiation.AttrStep | quam/core/quam_instantiation.py:256-281 | an entry goes to `required` only for a required name, to `optional` only for an allowed non-required name, and to `extra` only when `fix_attrs` is off and the name is not allowed |
| Instantiation.InstAttrs | quam/core/quam_instantiation.py:230-287 | on success every required name is present; the filed names are exactly the allowed names in the contents other than `__class__`; `extra` is exactly the unknown keys and is empty under `fix_attrs`; under `fix_attrs` an unknown key raises `AttributeError` |
| Instantiation.UnknownNameFails | quam/core/quam_instantiation.py:259-265 | under `fix_attrs` an unknown attribute name makes one of the entries fail with `AttributeError` |
| Instantiation.PlacedNames | quam/core/quam_instantiation.py:256-281 | when every entry succeeds, required, optional and extra are filed by name exactly as `instantiate_attrs` files them |
| Instantiation.AttrsFail | quam/core/quam_instantiation.py:256-281 | an entry that raises makes the whole instantiation raise, with that error among the possible ones |
| Instantiation.AttrsAllDone | quam/core/quam_instantiation.py:256-287 | when every entry succeeds the result is the filed attributes, unless a required name is missing, which is an `AttributeError` |
| Instantiation.InstFromDict | quam/core/quam_instantiation.py:17-72 | success keeps exactly the keys of the dict; a value that is not a dict raises `AttributeError` (no `.items()`) |
| Instantiation.DictFail | quam/core/quam_instantiation.py:51-70 | an entry that fails makes the dict fail with that error among the possible ones |
| Instantiation.DictAllDone | quam/core/quam_instantiation.py:51-72 | when every entry succeeds the result is the dict of rebuilt entries |
| Instantiation.ListFrom | quam/core/quam_instantiation.py:106-130 | the rebuilt tail has as many elements as the input tail |
| Instantiation.InstFromList | quam/core/quam_instantiation.py:75-132 | success is a list as long as the iterated input |
| Instantiation.ListFail | quam/core/quam_instantiation.py:106-130 | the first element that fails makes the list fail with its error |
| Instantiation.ListAllDone | quam/core/quam_instantiation.py:106-132 | when every element succeeds the result is the list of rebuilt elements, in order |
| Instantiation.InstantiateAttrs | quam/core/quam_instantiation.py:230-287 | the loop's result is the outcome of `InstAttrs` for some iteration order |
| Instantiation.InstantiateAttrStep | quam/core/quam_instantiation.py:256-281 | one loop iteration conforms to `AttrStep` |
| Instantiation.InstantiateAttr | quam/core/quam_instantiation.py:135-227 | conforms to `InstAttr` |
| Instantiation.InstantiateQuamClass | quam/core/quam_instantiation.py:290-344 | conforms to `InstQuamClass` |
| Instantiation.SetExtras | quam/core/quam_instantiation.py:331-344 | conforms to `Construct` |
| Instantiation.InstantiateElem | quam/core/quam_instantiation.py:55-68 | one dict element conforms to its specification step |
| Instantiation.InstantiateAttrsFromDict | quam/core/quam_instantiation.py:17-72 | the loop conforms to `InstFromDict` |
| Instantiation.InstantiateListElem | quam/core/quam_instantiation.py:111-126 | one list element conforms to its specification step |
| Instantiation.InstantiateAttrsFromList | quam/core/quam_instantiation.py:75-132 | the loop conforms to `InstFromList` |
| Deprecations.Applied | quam/core/deprecations.py:29-43 | the rule adds or replaces only `__class__`, pointing it at `quam.components.hardware.FrequencyConverter`, and keeps every other entry |
| Deprecations.AppliedIdempotent | quam/core/deprecations.py:20-41 | once applied, the rule no longer matches the contents, so it cannot fire twice; applying it twice is applying it once |
| Deprecations.Matches | quam/core/deprecations.py:20-27 | the rule fires only for a requested `BaseFrequencyConverter`, and only on contents that applying it extends by exactly one entry (the missing `__class__`) |
| Deprecations.Apply | quam/core/deprecations.py:29-43 | updates the contents dict in place to `Applied`, returns the same dict and `FrequencyConverter`, and warns |
| SerialiserKeys.ConvertEntries | quam/serialisation/json.py:30-39 | the keys are exactly the converted keys of the entries |
| SerialiserKeys.ConvertIntKeys | quam/serialisation/json.py:16-39 | a non-dict passes through unchanged; a dict keeps its entries under converted keys |
| SerialiserKeys.ConvertLastWins | quam/serialisation/json.py:31-38 | when two keys convert to the same key, the later entry's value wins |
| SerialiserKeys.DumpKeyRecovered | quam/serialisation/json.py:34 | a key written by `json.dump` and read back through the hook is the original key, for string keys that `int()` rejects and for integer keys |
| SerialiserKeys.Dumped | quam/serialisation/json.py:237 | `json.dump` writes each key as its string form and keeps each value and the order |
| SerialiserKeys.IntKeysRoundTrip | quam/serialisation/json.py:16-39 | dumping a dict and loading it with the hook gives back the same dict |
| SerialiserKeys.InvertOld | quam/serialisation/json.py:101-134 | the old filename-to-components format converts exactly when every filename is a string and every component list holds strings; otherwise `TypeError` |
| SerialiserKeys.AssignAllSpec | quam/serialisation/json.py:123-134 | a file's components are assigned to that file; other components keep their earlier file |
| SerialiserKeys.OldFormatLastWins | quam/serialisation/json.py:130-134 | a component listed by several files goes to the last of them, and only listed components are present |
| SerialiserKeys.CheckNew | quam/serialisation/json.py:165-181 | the new format is accepted exactly when every key and value is a string, and then every key is present; otherwise `TypeError` |
| SerialiserKeys.NewFormatUnchanged | quam/serialisation/json.py:181 | an accepted new-format mapping is returned unchanged |
| SerialiserKeys.NormaliseMapping | quam/serialisation/json.py:66-188 | `None` and `{}` give `{}`; a non-dict raises `TypeError`; every error is a `TypeError`; every key of the result is a string |
| SerialiserKeys.KeyOfString | quam/serialisation/json.py:31-38 | a key becomes an int exactly when it is an optionally signed string of digits, with the value `int()` gives; any other key is kept as the same string |
| SerialiserKeys.OldFormatStrKeys | quam/serialisation/json.py:123-134 | the converted mapping's keys are component names (strings) |
| SerialiserKeys.OldFormatNoInts | quam/serialisation/json.py:123-134 | no integer key appears in a converted mapping |
| SerialiserKeys.NewFormatNoInts | quam/serialisation/json.py:168-173 | no integer key appears in an accepted new-format mapping |
| SerialiserKeys.MixedFormatsRaise | quam/serialisation/json.py:112-121 | a mapping mixing string and sequence values raises `TypeError` whichever kind comes first |
| SerialiserKeys.NonStringComponentRaises | quam/serialisation/json.py:123-129 | a non-string component name in the old format raises `TypeError` |
| JsonSerialiser.BaseName | quam/serialisation/json.py:272 | the name part of a path holds no `/` |
| JsonSerialiser.Mapped | quam/serialisation/json.py:262-263 | the components that get their own file are exactly the mapped keys present in the contents |
| JsonSerialiser.GroupAdd | quam/serialisation/json.py:277-281 | one more component is added to its own file only |
| JsonSerialiser.GroupEmpty | quam/serialisation/json.py:277-278 | a file no component maps to stays empty |
| JsonSerialiser.GroupsAdd | quam/serialisation/json.py:277-281 | the files after one more component are the previous files with that component added to its target |
| JsonSerialiser.SaveSplitContent | quam/serialisation/json.py:239-297 | the loop writes the corrected split `SplitFilesMerged` (the remainder joins the default file) and warns exactly when a mapped key is missing from the contents |
| JsonSerialiser.SplitFiles | quam/serialisation/json.py:256-297 | as written: the files are the targets of the mapped components, plus the default file when anything is left over, and then the default file holds the leftover alone |
| JsonSerialiser.SplitFilesMerged | quam/serialisation/json.py:256-297 | corrected: the same set of files, with the leftover joining whatever the mapping sent to the default file |
| JsonSerialiser.Suffix | quam/serialisation/json.py:354-357 | a path suffix is empty or starts with `.` |
| JsonSerialiser.SaveSpec | quam/serialisation/json.py:299-367 | errors are only `TypeError` (bad mapping) and `ValueError` (bad suffix); a single file holds exactly the non-ignored keys; no file of a folder holds an ignored key |
| JsonSerialiser.SplitKeysFrom | quam/serialisation/json.py:256-297 | every written file holds only keys of the contents |
| JsonSerialiser.Merge | quam/serialisation/json.py:512-546 | the merged contents and the inferred mapping have the same keys |
| JsonSerialiser.MergeLastWins | quam/serialisation/json.py:541-546 | a key is present exactly when some processed file has it, and then its value and mapping come from the last such file |
| JsonSerialiser.LoadFromDirectory | quam/serialisation/json.py:472-575 | the loop computes `Merge`; the mapping drops entries pointing to the default file; the default file name is reported when it was read |
| JsonSerialiser.MergeKey | quam/serialisation/json.py:541 | when the files cover the contents, each key merges back to its original value |
| JsonSerialiser.MergeOfCover | quam/serialisation/json.py:541 | files that partition the contents merge back to the contents |
| JsonSerialiser.LastWithFinds | quam/serialisation/json.py:541-546 | a key in some processed file has a last file |
| JsonSerialiser.SplitThenMerge | quam/serialisation/json.py:239-297 | when no component is mapped to `state.json`, saving split and loading the folder gives back the contents |
| JsonSerialiser.GroupsSound | quam/serialisation/json.py:277-281 | every collected file is non-empty, holds original values, and each mapped component is in its target file |
| JsonSerialiser.SplitCovers | quam/serialisation/json.py:256-297 | without a component mapped to `state.json` the split files partition the contents |
| JsonSerialiser.DefaultFileOverwritten | quam/serialisation/json.py:277-297 | as written, a component mapped to `state.json` is lost because the remaining contents overwrite that file |
| JsonSerialiser.MergedSplitThenMerge | quam/serialisation/json.py:239-297 | with the default file merged instead of overwritten, save-then-load gives back the contents for every mapping |
| JsonSerialiser.MergedSplitCovers | quam/serialisation/json.py:256-297 | the corrected split covers the contents |
| JsonSerialiser.MergedSplitSound | quam/serialisation/json.py:277-297 | every file of the corrected split is non-empty and holds original values |
| JsonSerialiser.MergedFileSound | quam/serialisation/json.py:277-297 | one file of the corrected split is non-empty and holds original values |
| JsonSerialiser.MergedSplitComplete | quam/serialisation/json.py:277-297 | every key of the contents is in some file of the corrected split |
| JsonSerialiser.Lower | quam/serialisation/json.py:444 | lower-casing keeps the length |
| JsonSerialiser.LoadFromFile | quam/serialisation/json.py:425-470 | loading succeeds exactly for a `.json` name whose contents decode to a dict, with metadata naming the file; another suffix is a `TypeError` |
| JsonSerialiser.LoadSpec | quam/serialisation/json.py:577-619 | a missing path raises `FileNotFoundError`; a path that is neither file nor folder raises `ValueError` |
| JsonSerialiser.Serialiser.constructor | quam/serialisation/json.py:190-224 | a serialiser with the given mapping and `include_defaults` |
| JsonSerialiser.Serialiser.Save | quam/serialisation/json.py:299-367 | the result is `SaveSpec` of the current mapping |
| JsonSerialiser.Serialiser.Load | quam/serialisation/json.py:577-627 | the result is `LoadSpec`; the mapping is replaced by the loaded one only when the load succeeded and the mapping equals the class default |
| JsonSerialiser.NewSerialiser | quam/serialisation/json.py:190-224 | construction fails exactly when the given or class mapping does not normalise; otherwise the serialiser holds the normalised mapping |
| ConfigFinal.WithOffset | quam/utils/config.py:19-21 | `setdefault("offset", 0.0)` adds `offset = 0.0` only when it is missing and keeps every other entry; a port that is not a dict is an `AttributeError` |
| ConfigFinal.MapOk | quam/utils/config.py:18-21 | updating every port succeeds exactly when each one does, and keeps the port names |
| ConfigFinal.EachValue | quam/utils/config.py:18-28 | `.values()` of a non-dict is an `AttributeError`; it succeeds exactly when every value updates, and then keeps the keys and holds each value's update |
| ConfigFinal.PortsAt | quam/utils/config.py:18-28 | only the port group under the given key changes; a missing group is left alone |
| ConfigFinal.FemFinal | quam/utils/config.py:15-21 | a FEM whose type is not `LF` is unchanged; an LF FEM keeps its keys and every entry other than `analog_outputs` / `analog_inputs`, and each of those two port groups becomes the group with every port given an offset |
| ConfigFinal.ControllerFinal | quam/utils/config.py:14-28 | a controller keeps its keys and every entry other than `fems`, `analog_outputs` and `analog_inputs`; each of its FEMs becomes that FEM's `FemFinal`, and each of its port groups the group with every port given an offset |
| ConfigFinal.FinalActions | quam/utils/config.py:4-28 | a config without `controllers` is a `KeyError`; other errors are `AttributeError`; only `controllers` changes |
| ConfigFinal.EachValueInPlace | quam/utils/config.py:18-21 | the loop over the values computes `EachValue` |
| ConfigFinal.GenerateConfigFinalActions | quam/utils/config.py:4-28 | the config dict succeeds or fails as `FinalActions` does, and on success holds its result |
| ConfigFinal.ControllerPortsHaveOffsets | quam/utils/config.py:23-28 | after the final actions every analog port of a controller has an offset: its own if it had one, `0.0` otherwise |
| ConfigFinal.LfFemPortsHaveOffsets | quam/utils/config.py:15-21 | after the final actions every analog port of an LF FEM has an offset: its own if it had one, `0.0` otherwise |
| ConfigFinal.BareControllerUnchanged | quam/utils/config.py:14-28 | a controller with no FEMs and no analog ports is unchanged |
| ConfigFinal.NonLfFemUnchanged | quam/utils/config.py:16-17 | a FEM that is not LF is unchanged |
| ConfigFinal.MapOkIdempotent | quam/utils/config.py:18-21 | mapping an idempotent update over the ports twice is mapping it once |
| ConfigFinal.EachValueIdempotent | quam/utils/config.py:18-21 | the same for the values of a port group |
| ConfigFinal.PortsAtIdempotent | quam/utils/config.py:18-28 | updating one port group twice is updating it once |
| ConfigFinal.TwoPortsIdempotent | quam/utils/config.py:23-28 | once both port groups are updated, updating either again changes nothing |
| ConfigFinal.FemFinalIdempotent | quam/utils/config.py:15-21 | the FEM step is idempotent |
| ConfigFinal.ControllerFinalIdempotent | quam/utils/config.py:14-28 | the controller step is idempotent |
| ConfigFinal.FinalActionsIdempotent | quam/utils/config.py:4-28 | running the final actions on their own output changes nothing |
| RootConfig.ApplyAll | quam/core/quam_classes.py:816-817 | the apply loop: when no component writes anything, the config comes out as it went in |
| RootConfig.Build | quam/core/quam_classes.py:811-821 | the config `generate_config` returns for a given apply order: an error of the loop is raised, otherwise the final actions run on the loop's result |
| RootConfig.ApplyAllAppend | quam/core/quam_classes.py:816-817 | applying `a + b` is applying `a` and then `b`; an error in `a` stops the loop before `b` |
| RootConfig.ApplyAllStops | quam/core/quam_classes.py:816-817 | when every component before index `i` applies and the one at `i` raises, the whole loop raises that exception |
| RootConfig.TemplateIsFinal | quam/core/qua_config_template.py:1-22 | the template has no controllers, so the final actions leave it as it is |
| RootConfig.NothingAppliedGivesTemplate | quam/core/quam_classes.py:811-821 | when no component writes anything, the generated config is the template itself |
| RootConfig.GenerateConfig | quam/core/quam_classes.py:801-821 | a traversal error is raised; otherwise the components applied are a permutation of those `iterate_components` yields, in an order that meets every `config_settings` unless the sort warned, and in traversal order when no component has `config_settings`; the config is `Build` of that order, and a generated config has `controllers` and is left unchanged by the final actions |
| RootConfig.ApplyInPlace | quam/core/quam_classes.py:816-817 | the apply loop on the config dict itself: it raises the loop's error, or leaves the dict holding the loop's result |
| Validators.CompareToInt | quam/config/validators.py:44-50 | comparison of a number with the supported version gives -1, 0 or 1 and succeeds exactly for numbers (ints, floats and bools) |
| Validators.QuamVersionValidator | quam/config/validators.py:28-56 | without `quam` it raises `InvalidQuamConfigVersionError` when not skipping and `KeyError` when skipping; a non-dict `quam` is an `AttributeError`; it passes exactly when the version equals the supported one |
| Validators.IntVersionVerdict | quam/config/validators.py:44-56 | an older version raises `InvalidQuamConfigVersionError`, a newer one `GreaterThanSupportedQuamConfigVersionError`, an equal one passes; every error is an `InvalidQuamConfigVersion` |
| Validators.MissingVersionRejected | quam/config/validators.py:36-43 | a missing or `None` version raises `InvalidQuamConfigVersionError` |
| Migrations.Forward | quam/config/cli/migrations/v1_v2.py:18-24 | a missing `quam` section is a `KeyError`, a non-dict one a `TypeError`; otherwise only `quam` changes, gaining the migration's field and `version` and keeping its other entries |
| Migrations.ForwardSetsFieldAndVersion | quam/config/cli/migrations/v2_v3.py:21-33 | forward sets the new field to `False` and `version` to the target version |
| Migrations.Backward | quam/config/cli/migrations/v1_v2.py:9-16 | succeeds exactly when `quam` is a dict holding the field and a version equal to the target (or none); missing `quam` is a `KeyError`, a non-dict an `AttributeError`, a wrong version an `AssertionError`; the field is removed, `version` is set to the source version, every other entry of `quam` is kept, and nothing outside `quam` changes |
| Migrations.BackwardAfterForward | quam/config/cli/migrations/v1_v2.py:9-24 | on a config at the source version without the field, backward undoes forward |
| Migrations.ForwardAfterBackward | quam/config/cli/migrations/v2_v3.py:9-33 | on a config at the target version whose field is `False`, forward undoes backward |
| Migrations.BackwardDefaultsVersion | quam/config/cli/migrations/v2_v3.py:15-17 | a section without `version` is taken to be at the target version and moved to the source version |
| Migrations.MigrateForward | quam/config/cli/migrations/v1_v2.py:18-24 | returns `Forward` of the old dict and pops `quam` from the caller's dict |
| Migrations.MigrateBackward | quam/config/cli/migrations/v2_v3.py:9-19 | returns `Backward` of the old dict and pops `quam` from the caller's dict |
| Ports.PortTuple | quam/components/ports/base_ports.py:57-90 | an OPX+ port's tuple is `(controller, port)`, a FEM port's `(controller, fem, port)` |
| Ports.PortTupleNamesAddress | quam/components/ports/base_ports.py:57-90 | the port tuple determines the port's address |
| Ports.Construct | quam/components/ports/analog_outputs.py:17-84 | constructing a port succeeds exactly when every keyword is a field and every required field is given (`TypeError` otherwise); given fields take the given values and the rest their defaults |
| Ports.Properties | quam/components/ports/analog_outputs.py:28-84 | the reported properties are exactly those the port class reports, with the port's own values |
| Ports.LfOutputProperties | quam/components/ports/analog_outputs.py:28-38 | an LF analog output reports delay, crosstalk, both filters and shareable, and reports `offset` exactly when it is not `None` |
| Ports.LfFemExtendsLf | quam/components/ports/analog_outputs.py:52-57 | an LF-FEM output reports the LF properties plus sampling rate, upsampling mode and output mode |
| Ports.MwOutputProperties | quam/components/ports/analog_outputs.py:72-84 | an MW-FEM output reports band, delay, shareable, sampling rate and full-scale power, and each upconverter entry exactly when it is not `None` |
| Ports.PortsDictPath | quam/components/ports/base_ports.py:75-125 | the ports dict of a port lies under `controllers` |
| Ports.LeafSetDefault | quam/components/ports/base_ports.py:77-126 | `setdefault(port_id, {})` returns the entry now stored there and leaves an existing entry untouched |
| Ports.LookupStep | quam/components/ports/base_ports.py:67-68 | a lookup one key further is the entry under that key |
| Ports.GetPortConfigCreate | quam/components/ports/base_ports.py:61-127 | with `create=True`: no `controllers` is a `KeyError`; the returned entry is the one stored at the port's path; the top-level keys are unchanged; other errors are `KeyError`, `AttributeError` or `ValueError` |
| Ports.SetDefaultChild | quam/components/ports/base_ports.py:75-125 | `setdefault(k, {})` keeps an existing dict, fails on an existing non-dict (`AttributeError` on its next use) and otherwise stores `{}` |
| Ports.LookupStepOrUpdate | quam/components/ports/base_ports.py:75-77 | storing `{}` under a new key makes it readable there |
| Ports.FemTypeRecorded | quam/components/ports/base_ports.py:117-123 | a port with a FEM type records it in the FEM entry; a port without one leaves the config unchanged |
| Ports.GetPortConfigReuses | quam/components/ports/base_ports.py:75-127 | when the port entry already exists (and the FEM type agrees) the call returns it and changes nothing |
| Ports.FemTypeConflict | quam/components/ports/base_ports.py:118-122 | a FEM recorded with another type raises `ValueError` |
| Ports.GetPortConfigLookup | quam/components/ports/base_ports.py:96-112 | with `create=False` a FEM port is read at exactly the path where it is created |
| Ports.GetPortConfigLookupIntended | quam/components/ports/base_ports.py:65-78 | corrected: the `create=False` lookup under the plural key the create branch writes; it agrees with the code as written for FEM ports and is a `KeyError` without `controllers` |
| Ports.CreatedPortConfigFound | quam/components/ports/base_ports.py:61-78 | with the plural ports key, a created entry is found again by the lookup |
| Ports.OpxPlusCreateFromEmpty | quam/components/ports/base_ports.py:75-78 | creating an OPX+ output on empty controllers stores `{}` under `con1 / analog_outputs / 1` |
| Ports.OpxPlusLookupMissesCreatedEntry | quam/components/ports/base_ports.py:65-78 | as written, the `create=False` lookup of an OPX+ port uses `analog_output` without the `s` and misses the entry just created |
| Ports.UpdatedPortConfig | quam/components/ports/base_ports.py:30-42 | the entry after the update holds every property and keeps the other entries |
| Ports.ApplyToConfig | quam/components/ports/base_ports.py:44-49 | succeeds exactly when the port entry can be created as a dict; then that entry is the updated one, the top-level keys are kept and the warning flag says whether a value changed |
| Ports.ApplyWritesProperties | quam/components/ports/base_ports.py:44-49 | after applying, every property is in the port entry and other entries are kept |
| Ports.ApplyToConfigIdempotent | quam/components/ports/base_ports.py:30-49 | applying a port twice gives the same config and no warning the second time |
| Ports.UpdatedTwice | quam/components/ports/base_ports.py:30-42 | the update is idempotent and the second one overwrites nothing |
| Ports.FemTypeAfterApply | quam/components/ports/base_ports.py:117-127 | after applying a FEM port with a type, its FEM is recorded with that type |
| Ports.FemTypeKept | quam/components/ports/base_ports.py:117-127 | creating the port entry keeps the FEM type it recorded |
| Ports.FemTypeSurvives | quam/components/ports/base_ports.py:123-126 | writing below a FEM entry leaves its `type` alone |
| Ports.UpdatePortConfig | quam/components/ports/base_ports.py:30-42 | updates the port dict in place to `UpdatedPortConfig` and warns exactly when a value changes |
| Ports.ApplyPortToConfig | quam/components/ports/base_ports.py:44-49 | the config dict and the result are those of `ApplyToConfig` |
| PortsContainers.OpxPlusClassOf | quam/components/ports/ports_containers.py:80-91 | each OPX+ port type names a non-FEM port class of that type |
| PortsContainers.OpxPlusTableGet | quam/components/ports/ports_containers.py:68-93 | an existing port is returned and nothing changes; a missing one without `create` is a `KeyError`; a returned port is the one stored at its controller and id |
| PortsContainers.OpxPlusTableGetCreates | quam/components/ports/ports_containers.py:79-93 | creating adds the controller entry, constructs the port from the keywords and stores it; a constructor `TypeError` leaves only the new controller entry |
| PortsContainers.OpxPlusGetPort | quam/components/ports/ports_containers.py:52-93 | an unknown port type is a `ValueError`; without `create` nothing changes; only the port type's own table changes; a returned port is stored in its table |
| PortsContainers.OpxPlusTableGetPlaced | quam/components/ports/ports_containers.py:68-93 | every stored port sits at its own address and class, before and after |
| PortsContainers.OpxPlusGetPortWellPlaced | quam/components/ports/ports_containers.py:52-93 | the container stays well placed and a returned port has the requested address and class |
| PortsContainers.OpxPlusGetPortRepeat | quam/components/ports/ports_containers.py:68-71 | asking again for a port once obtained returns the same port and changes nothing, whatever the keywords |
| PortsContainers.FemClassOf | quam/components/ports/ports_containers.py:219-248 | each FEM port type names a FEM port class |
| PortsContainers.FemConstructorArgsAsWritten | quam/components/ports/ports_containers.py:228-242 | as written, passing `band` to `get_mw_output`/`get_mw_input` (or `downconverter_frequency` to `get_mw_input`) gives the keyword twice: `TypeError` |
| PortsContainers.FemConstructorArgs | quam/components/ports/ports_containers.py:219-246 | the corrected arguments keep every given keyword, default `band` to 1, `downconverter_frequency` to 5e9, and `upconverter_frequency` to 5e9 when no upconverter is given |
| PortsContainers.FemConstructorArgsAgree | quam/components/ports/ports_containers.py:219-246 | wherever the code as written succeeds, it passes the corrected arguments |
| PortsContainers.MwOutputBandTwice | quam/components/ports/ports_containers.py:231-242 | `band=1` passed to `get_mw_output` or `get_mw_input` with `create=True` raises `TypeError` as written |
| PortsContainers.MwPortsBuilt | quam/components/ports/ports_containers.py:228-242 | with the corrected arguments every MW port is constructible and gets the given band or 1 |
| PortsContainers.FemTableGet | quam/components/ports/ports_containers.py:204-250 | an existing FEM port is returned unchanged; a missing one without `create` is a `KeyError`; a returned port is stored at its controller, FEM and id |
| PortsContainers.FemTableGetCreates | quam/components/ports/ports_containers.py:215-250 | creating adds the controller and FEM entries and stores the constructed port; a constructor `TypeError` leaves the new empty entries |
| PortsContainers.FemGetPort | quam/components/ports/ports_containers.py:186-250 | an unknown port type is a `ValueError`; without `create` nothing changes; only that type's table changes; a returned port is stored in its table |
| PortsContainers.FemTableGetPlaced | quam/components/ports/ports_containers.py:204-250 | stored FEM ports stay at their own address and class |
| PortsContainers.FemGetPortWellPlaced | quam/components/ports/ports_containers.py:186-250 | the container stays well placed and a returned port has the requested address and class |
| PortsContainers.FemGetPortRepeat | quam/components/ports/ports_containers.py:204-207 | asking again for a FEM port once obtained returns it and changes nothing |
| PortsContainers.NewMwOutputAtDefaultFrequency | quam/components/ports/ports_containers.py:228-232 | a new MW output created without upconverter settings gets `upconverter_frequency = 5e9` and the given band or 1 (with the corrected arguments) |
| PortsContainers.ParseOpxPlusReference | quam/components/ports/ports_containers.py:107-114 | parsing fails with `ValueError` only, and always for fewer than three `/`-separated parts |
| PortsContainers.ParseFemReference | quam/components/ports/ports_containers.py:264-273 | parsing fails with `ValueError` only, and always for fewer than four parts |
| PortsContainers.AsValueError | quam/components/ports/ports_containers.py:117-120 | any failure inside the `try` becomes a `ValueError`; a success passes through |
| PortsContainers.OpxPlusReferenceToPort | quam/components/ports/ports_containers.py:95-120 | every failure is a `ValueError`; a bad reference changes nothing; the container stays valid |
| PortsContainers.FemReferenceToPort | quam/components/ports/ports_containers.py:252-280 | every failure is a `ValueError`; a bad reference changes nothing; the container stays valid |
| PortsContainers.ControllerRoundTrip | quam/components/ports/ports_containers.py:111-112 | a controller id written into a reference is read back as the same id (digits become an int) |
| PortsContainers.SplitLastThree | quam/components/ports/ports_containers.py:108-109 | the last three `/`-parts of a reference are its last three components |
| PortsContainers.OpxPlusReferenceRoundTrip | quam/components/ports/ports_containers.py:107-114 | the reference `…/<type>s/<controller>/<port>` parses back to the type, controller and port |
| PortsContainers.FemReferenceRoundTrip | quam/components/ports/ports_containers.py:264-273 | the reference `…/<type>s/<controller>/<fem>/<port>` parses back to its parts |
| PortsContainers.OpxPlusReferenceFindsPort | quam/components/ports/ports_containers.py:95-120 | the reference of an OPX+ port finds the stored port; a missing one is a `ValueError` without `create` and a new default port with it |
| PortsContainers.FemReferenceFindsPort | quam/components/ports/ports_containers.py:252-280 | the reference of a FEM port finds the stored port; a missing one is a `ValueError` without `create` and a new port at that address with it |
| PortsContainers.OpxPlusPortsContainer.constructor | quam/components/ports/ports_containers.py:38-50 | an empty container, one empty table per port class |
| PortsContainers.OpxPlusPortsContainer.GetPort | quam/components/ports/ports_containers.py:52-93 | the result and the tables after are those of `OpxPlusGetPort` |
| PortsContainers.OpxPlusPortsContainer.ReferenceToPort | quam/components/ports/ports_containers.py:95-120 | the result and the tables after are those of `OpxPlusReferenceToPort` |
| PortsContainers.OpxPlusPortsContainer.GetAnalogOutput | quam/components/ports/ports_containers.py:122-131 | `GetPort` with type `analog_output` |
| PortsContainers.OpxPlusPortsContainer.GetAnalogInput | quam/components/ports/ports_containers.py:133-142 | `GetPort` with type `analog_input` |
| PortsContainers.OpxPlusPortsContainer.GetDigitalOutput | quam/components/ports/ports_containers.py:144-153 | `GetPort` with type `digital_output` |
| PortsContainers.OpxPlusPortsContainer.GetDigitalInput | quam/components/ports/ports_containers.py:155-164 | `GetPort` with type `digital_input` |
| PortsContainers.FemPortsContainer.constructor | quam/components/ports/ports_containers.py:168-184 | an empty container, one empty table per FEM port class |
| PortsContainers.FemPortsContainer.GetPort | quam/components/ports/ports_containers.py:186-250 | the result and the tables after are those of `FemGetPort` |
| PortsContainers.FemPortsContainer.ReferenceToPort | quam/components/ports/ports_containers.py:252-280 | the result and the tables after are those of `FemReferenceToPort` |
| PortsContainers.FemPortsContainer.GetAnalogOutput | quam/components/ports/ports_containers.py:282-297 | `GetPort` with type `analog_output` |
| PortsContainers.FemPortsContainer.GetAnalogInput | quam/components/ports/ports_containers.py:299-314 | `GetPort` with type `analog_input` |
| PortsContainers.FemPortsContainer.GetMwOutput | quam/components/ports/ports_containers.py:316-331 | `GetPort` with type `mw_output` |
| PortsContainers.FemPortsContainer.GetMwInput | quam/components/ports/ports_containers.py:333-348 | `GetPort` with type `mw_input` |
| PortsContainers.FemPortsContainer.GetDigitalOutput | quam/components/ports/ports_containers.py:350-365 | `GetPort` with type `digital_output` |
| Channels.ChannelName | quam/components/channels.py:319-350 | a string id is the name unless it is a reference (`AttributeError`); an int id gets the class's default label as prefix; without id, no parent is an `AttributeError`, a dict parent gives the key, a component parent gives `<parent name>.<attribute>` or the parent's own error |
| Channels.IntIdRecovered | quam/components/channels.py:330-333 | the id of an integer-named channel can be read back from its name, so distinct ids give distinct names |
| Channels.PulseMapping | quam/components/channels.py:352-354 | every operation label maps to the label part of its pulse's name; no operations give `{}`; a channel with operations but no name fails with that error |
| Channels.PulseMappingInjective | quam/components/channels.py:352-354 | two different labels whose pulses carry no explicit id map to different pulse names |
| Channels.GenerateElementConfig | quam/components/channels.py:124-144 | the entry holds the port tuple, `delay` exactly when set and `buffer` exactly when set, and nothing else |
| Channels.ElementPortNamesAddress | quam/components/channels.py:134-135 | for a port object the `port` entry is the port's own tuple |
| Channels.TupleDigitalPort | quam/components/channels.py:166-176 | a tuple of two builds an OPX+ digital output, of three a FEM one, at that address, with `shareable`/`inverted` defaulted to `False` |
| Channels.ApplyDigitalOutput | quam/components/channels.py:146-177 | a port object changes nothing; a malformed tuple is a `TypeError` |
| Channels.DigitalOutputWritesSettings | quam/components/channels.py:163-177 | for a tuple, the controller's digital output entry ends up with the channel's `shareable` and `inverted` |
| Channels.WithInputs | quam/components/channels.py:603-607 | the `digitalInputs` entry gains exactly one key per digital output |
| Channels.WithInputsHas | quam/components/channels.py:605-607 | each digital output's entry is its element config (the last one of a name wins) |
| Channels.AddDigitalOutputs | quam/components/channels.py:587-607 | no digital outputs change nothing; a missing element entry fails with its error; otherwise `digitalInputs` holds the previous inputs plus the new entries |
| Channels.DigitalOutputsKeepElement | quam/components/channels.py:600-607 | only `digitalInputs` of the element changes |
| Channels.InputsStep | quam/components/channels.py:605-607 | one loop iteration adds one entry to `digitalInputs` |
| Channels.AddDigitalOutputsTo | quam/components/channels.py:587-607 | the config dict and the result are those of `AddDigitalOutputs` |
| Channels.Element | quam/components/channels.py:624-659 | the element holds the operations, `intermediate_frequency` exactly when set, and the core under `thread` (qm ≤ 1.2.1) or `core`, with `core` preferred over `thread` |
| Channels.ChannelApply | quam/components/channels.py:609-662 | a nameless channel fails with its name's error; an element already present is a `ValueError` and changes nothing |
| Channels.ChannelApplyRecords | quam/components/channels.py:609-662 | after applying, each entry of the element (other than `digitalInputs`) is exactly that of `Element` |
| Channels.ChannelApplyTwice | quam/components/channels.py:620-624 | applying the same channel twice is a `ValueError` the second time |
| Channels.ApplyChannelTo | quam/components/channels.py:609-662 | the config dict and the result are those of `ChannelApply` |
| Channels.StickyApply | quam/components/channels.py:213-225 | no channel or disabled does nothing; otherwise the element's `sticky` entry is written; a failure changes nothing |
| Channels.StickyKeepsElement | quam/components/channels.py:220-225 | only `sticky` of the element changes |
| Channels.Segments | quam/components/channels.py:911-933 | an unknown pulse is a `KeyError`; both or neither of `num_segments`/`segment_length` is a `ValueError`; a zero divisor is a `ZeroDivisionError`; the missing one is `int(length / (4 * given))`; `qua_vars` must be absent or a pair |
| Channels.SegmentsFitPulse | quam/components/channels.py:923-924 | `num_segments` segments of the given length fit in the pulse and one more would not |
| Channels.UpconverterFrequency | quam/components/channels.py:1832-1851 | the port's `upconverter_frequency` when set; otherwise the selected entry of `upconverters` (`KeyError` if absent); `ValueError` only when neither is set |
| Channels.NewMwOutputFrequency | quam/components/channels.py:1832-1851 | a new MW output created without upconverter settings reports 5e9 for any upconverter |
| Channels.MwChannelApply | quam/components/channels.py:1822-1830 | an error of the base channel step is passed on; on success the element's `MWInput` holds the port tuple and the upconverter |
| Pulses.Channel | quam/components/pulses.py:78-88 | a pulse's channel is its parent channel, or the channel holding its parent (the `operations` dict), or none |
| Pulses.PulseName | quam/components/pulses.py:90-104 | a pulse without a channel is an `AttributeError`; a channel without a name fails with that error; otherwise the name is `<channel name>.<id or attribute name>` |
| Pulses.LabelsDistinct | quam/components/pulses.py:106-116 | the `.pulse`, `.wf` and `.dm` labels never collide with each other, and each determines the pulse name |
| Pulses.AddPulse | quam/components/pulses.py:252-263 | the assertions come first (`AssertionError` for an operation other than `control`/`measurement` or a non-int length), then a missing `pulses` entry (`KeyError`), then the name's own error; success writes exactly `{operation, length}` under the pulse label; failure changes nothing |
| Pulses.Samples | quam/components/pulses.py:291-297 | the samples become a list of the same length |
| Pulses.WaveformParts | quam/components/pulses.py:280-319 | a complex waveform or an IQ/MW channel gives parts `I` and `Q`, otherwise one `single` part; a complex waveform on a single channel, a real one on another kind, or an unsupported type is a `ValueError` |
| Pulses.FullNamesDistinct | quam/components/pulses.py:321-324 | the waveform names of the different parts differ |
| Pulses.AddWaveforms | quam/components/pulses.py:265-332 | a missing pulse entry fails with its lookup error; no waveform changes nothing; a mismatched waveform is a `ValueError` |
| Pulses.WritePartsPreserves | quam/components/pulses.py:321-332 | writing the parts leaves every other config entry alone |
| Pulses.SuffixesOkTail | quam/components/pulses.py:321 | the remaining parts after the first still have distinct suffixes |
| Pulses.FirstPartSurvives | quam/components/pulses.py:321-332 | the entries written for the first part survive the writes of the later parts |
| Pulses.WritePartsRecords | quam/components/pulses.py:321-332 | after the loop, every part's waveform entry is written and the pulse's `waveforms` names it |
| Pulses.WritePartsLoop | quam/components/pulses.py:321-332 | the loop computes `WriteParts` |
| Pulses.MarkerTuples | quam/components/pulses.py:354 | each marker item becomes a tuple, in order |
| Pulses.AddDigitalMarker | quam/components/pulses.py:334-360 | a named marker must exist in `digital_waveforms` (`KeyError` otherwise); on success the pulse's `digital_marker` names it, or names the new `.dm` entry holding the samples |
| Pulses.ApplyPulse | quam/components/pulses.py:362-375 | a pulse without a channel changes nothing; one whose name cannot be computed fails with that error once the assertions pass and `pulses` exists; success implies the name exists |
| Pulses.ApplyPulseRecords | quam/components/pulses.py:362-375 | on success the pulse entry exists with its operation, and a truthy marker is recorded |
| Pulses.AddWaveformsKeepsPulseFields | quam/components/pulses.py:265-332 | adding waveforms changes only the pulse's `waveforms` field |
| Pulses.AddDigitalMarkerKeepsPulseFields | quam/components/pulses.py:334-360 | adding a marker changes only the pulse's `digital_marker` field |
| Pulses.AddWaveformsRecords | quam/components/pulses.py:321-332 | each part has its waveform entry and its name under the pulse's `waveforms` |
| Pulses.PartsSuffixesOk | quam/components/pulses.py:280-300 | the parts of a waveform have distinct suffixes |
| Pulses.SingleWaveform | quam/components/pulses.py:321-332 | a real waveform on a single channel is stored under the plain `.wf` name and referenced as `single` |
| Pulses.AddWaveformsTo | quam/components/pulses.py:265-332 | the config dict and the result are those of `AddWaveforms` |
| Pulses.ApplyPulseTo | quam/components/pulses.py:362-375 | the config dict and the result are those of `ApplyPulse` |
| Pulses.IntegrationWeightsNames | quam/components/pulses.py:400-403 | three names, `<pulse name>.iw1` to `.iw3` |
| Pulses.IntegrationWeightsZip | quam/components/pulses.py:405-407 | the mapping sends each label to its name, has exactly the three labels, and the names are distinct |
| Pulses.WriteWeightsRecords | quam/components/pulses.py:422-433 | each of the three weight entries holds its cosine/sine pair |
| Pulses.AddIntegrationWeights | quam/components/pulses.py:418-436 | a config without `integration_weights` fails with `KeyError` before anything else; otherwise a nameless pulse fails with its name's error |
| Pulses.IntegrationWeightsRecorded | quam/components/pulses.py:418-436 | on success all three weight entries are written and the pulse's `integration_weights` holds the mapping |
| Pulses.ApplyReadoutPulse | quam/components/pulses.py:438-446 | an error of the base pulse step is passed on |
| Pulses.DetachedReadoutPulseRaises | quam/components/pulses.py:418-446 | a readout pulse without a channel is skipped by the base step but then, given an `integration_weights` entry, fails with `AttributeError` when naming its weights |
| Pulses.ReadoutMarkerMustExist | quam/components/pulses.py:345-392 | the default readout marker `ON` must already be a digital waveform, else `KeyError` |
| Pulses.DefaultIntegrationWeights | quam/components/pulses.py:474-476 | the default weights are `[(1, length)]` |
| Pulses.RiseFallLength | quam/components/pulses.py:779-786 | the rise/fall length exists exactly when `length - flat_length` is even, and then `flat_length + 2 * rise_fall == length`; otherwise `ValueError` |
| Pulses.WaveformPulseLength | quam/components/pulses.py:516-520 | the length of a waveform pulse is the length of `waveform_I` when it is a list, otherwise `None` |
| Pulses.SetWaveformPulseLength | quam/components/pulses.py:522-525 | setting the length succeeds only with `None`; any other value is an `AttributeError` |
| Hardware.DefaultLOFrequencyReferenceParses | quam/components/hardware.py:52 | that default is a reference and parses to one level up, then `local_oscillator`, `frequency` |
| Hardware.DefaultIntermediateFrequencyReferenceParses | quam/components/hardware.py:53 | that default is a reference and parses to two levels up, then `intermediate_frequency` |
| Hardware.LOFrequency | quam/components/hardware.py:139-141 | the converter's LO frequency is its local oscillator's frequency; without an oscillator it is an `AttributeError` |
| Hardware.MixerName | quam/components/hardware.py:58-71 | the name is `<channel name>.mixer` when the mixer sits in a converter inside a named channel; a missing converter or channel is an `AttributeError`; a channel name error passes through |
| Hardware.MixerNamesDistinct | quam/components/hardware.py:71 | two mixers have the same name exactly when their channels do, and the channel name can be read back |
| Hardware.MixerApply | quam/components/hardware.py:73-89 | without `mixers` it is a `KeyError`; a name error passes through; on success the mixer's entry is the one-element list `[{intermediate_frequency, lo_frequency, correction}]` and nothing else changes; a failure changes nothing |
| Hardware.MixerApplyIdempotent | quam/components/hardware.py:73-89 | applying the same mixer twice leaves the config as after once |
| Hardware.MixersOfTwoChannels | quam/components/hardware.py:73-89 | mixers of differently named channels both keep their entries |
| Hardware.ApplyMixerTo | quam/components/hardware.py:73-89 | the config dict and the result are those of `MixerApply` |
| Octaves.Octave.constructor | quam/components/octave.py:33-67 | an Octave with its name and loopbacks and no converters |
| Octaves.Octave.InitializeFrequencyConverters | quam/components/octave.py:69-100 | raises `ValueError` and changes nothing exactly when either converter dict is non-empty; otherwise installs up-converters 1–5 and down-converters 1–2 |
| Octaves.DefaultConvertersNumbered | quam/components/octave.py:93-100 | the default converters are numbered 1–5 and 1–2 by their own ids, with no LO frequency and no channel |
| Octaves.Octave.ApplyTo | quam/components/octave.py:114-139 | the config dict and the result are those of `OctaveApply` |
| JsonValue.ContainsStr | quam/components/octave.py:126 | Python's `name in container`: a dict tests its keys, a list or tuple its items, a string its substrings, and any other value is a `TypeError` |
| JsonValue.IsInfix | quam/components/octave.py:192 | a string is `in` another exactly when it occurs in it at some position |
| Octaves.OctaveApply | quam/components/octave.py:114-139 | `octaves` is created if missing; an Octave name already `in` it (a dict key, a list or tuple item, or a substring of a string) is a `KeyError`; any other non-dict `octaves` is a `TypeError`; otherwise its entry holds empty `RF_outputs`, `IF_outputs`, `RF_inputs` and the loopbacks, and other Octaves and top-level keys are kept |
| Octaves.OctaveApplyTwice | quam/components/octave.py:125-129 | adding the same Octave twice is a `KeyError` |
| Octaves.ListOctaves | quam/components/octave.py:126-131 | a list `octaves` holding the Octave's name makes `Octave.apply_to_config` raise `KeyError`; one not holding it makes the converters' check raise `KeyError` (lines 192-196) |
| Octaves.ConverterOctave | quam/components/octave.py:155-162 | a converter's Octave is the grandparent when that is an Octave, otherwise none |
| Octaves.ConverterSlot | quam/components/octave.py:169-197 | no `octaves`, no Octave parent, or an Octave name not `in` `octaves` (dict, list, tuple or string alike) is a `KeyError`; a number or `None` there is a `TypeError`, and so is indexing a list, tuple or string that holds the name; a converter id already present is a `KeyError`; success is the free slot's dict path |
| Octaves.UpEntry | quam/components/octave.py:269-292 | the RF output entry holds the LO settings plus `I_connection` for a single channel, or both connections (port tuples) for an IQ channel |
| Octaves.UpApply | quam/components/octave.py:236-292 | no numeric LO frequency: nothing for a converter without channel, `ValueError` with one; otherwise it succeeds exactly when the slot is free, writing `UpEntry` where there was nothing; a failure changes nothing |
| Octaves.UpApplyTwice | quam/components/octave.py:262-267 | a second up-converter with the same id is a `KeyError` |
| Octaves.UpApplyAfterOctave | quam/components/octave.py:114-139 | once its Octave is in the config, an up-converter with an LO frequency is added |
| Octaves.DefaultUpConverterSkipped | quam/components/octave.py:93-97 | the default up-converters add nothing |
| Octaves.IFPairs | quam/components/octave.py:384-392 | an IQ channel gives two IF outputs (I then Q), a single channel one, others none |
| Octaves.IFLabelsDistinct | quam/components/octave.py:401 | distinct IF outputs have distinct labels |
| Octaves.IFStep | quam/components/octave.py:400-408 | `setdefault` then compare: succeeds exactly when the label is new or already holds the same port; it then holds the port; nothing else changes |
| Octaves.IFOutputs | quam/components/octave.py:398-408 | the loop keeps every existing label |
| Octaves.IFOutputsRecords | quam/components/octave.py:398-408 | after a successful loop every IF output holds its port and the old labels are unchanged |
| Octaves.IFOutputsStops | quam/components/octave.py:403-408 | the first conflicting IF output stops the loop |
| Octaves.IFOutputTaken | quam/components/octave.py:403-408 | an IF output already assigned to another port is a `ValueError` |
| Octaves.DownApply | quam/components/octave.py:338-408 | no numeric LO frequency: nothing without channel, `ValueError` with one; a slot error is passed on; success means the slot was free |
| Octaves.IFApply | quam/components/octave.py:396-408 | a missing `IF_outputs` entry raises even when there is nothing to wire; with no IF outputs the config is left as it was; a non-dict entry fails with `AttributeError` only once an output is wired |
| Octaves.IFApplyRecords | quam/components/octave.py:396-408 | after a successful loop each IF output's port is found in the config |
| Octaves.DownApplyRecords | quam/components/octave.py:338-408 | after success the RF input entry is written and every IF output holds its OPX port |
| Octaves.DownApplyEntry | quam/components/octave.py:373-379 | after success the RF input entry is the converter's settings |
| Octaves.DownApplyIFOutput | quam/components/octave.py:396-408 | after success each IF output holds its OPX port |
| Octaves.DefaultDownConverterSkipped | quam/components/octave.py:99-100 | the default down-converters add nothing |
| Octaves.ApplyUpConverterTo | quam/components/octave.py:236-292 | the config dict and the result are those of `UpApply` |
| Octaves.ApplyDownConverterTo | quam/components/octave.py:338-408 | the config dict and the result are those of `DownApply` |
| Octaves.RunIFOutputs | quam/components/octave.py:398-408 | the loop over the IF outputs computes `IFOutputs` on the mutated dict |
| Qubits.QubitName | quam/components/quantum_components/qubit.py:19-22 | a string id is the name itself; an integer id `n` gives `q` followed by digits that parse back to `n` |
| Qubits.QubitNamesOfIntIds | quam/components/quantum_components/qubit.py:19-22 | two integer ids give the same name exactly when they are equal, and id `n` is named like the string id `"q<n>"` |
| Qubits.ChannelsOf | quam/components/quantum_components/qubit.py:24-33 | keeps exactly the attribute entries whose value is a channel, under their own keys |
| Qubits.QubitChannels | quam/components/quantum_components/qubit.py:24-33 | fails exactly when reading the attributes (references followed, defaults included) fails; otherwise holds every attribute that is a channel and nothing else |
| Qubits.QubitChannelsAreFields | quam/components/quantum_components/qubit.py:24-33 | every channel of a qubit sits under a declared, non-skipped field name |
| Qubits.IterItem | quam/components/quantum_components/qubit.py:62 | each item drawn from `qubit_pairs` is a value of the tree |
| Qubits.PairTest | quam/components/quantum_components/qubit.py:63 | a pair passes the test only when its `qubit_control` is this qubit and its `qubit_target` is the other object itself |
| Qubits.ItemTests | quam/components/quantum_components/qubit.py:62-64 | one test outcome per item of `qubit_pairs`, in iteration order |
| Qubits.FirstPair | quam/components/quantum_components/qubit.py:62-69 | the loop returns the first passing pair with every earlier test failing, reports none found only when every test failed, and raises only an error some test raised |
| Qubits.FirstPairReaches | quam/components/quantum_components/qubit.py:62-64 | if a passing pair exists and no earlier test raises, the loop stops at or before it |
| Qubits.Matmul | quam/components/quantum_components/qubit.py:43-69 | raises `ValueError` for a non-qubit or for the qubit itself; a pair it returns is a value of the tree whose control is this qubit and whose target is the other |
| Qubits.MatmulDirected | quam/components/quantum_components/qubit.py:43-69 | `q1 @ q2` and `q2 @ q1` never return the same pair |
| Qubits.MatmulFindsPair | quam/components/quantum_components/qubit.py:62-64 | when a matching pair is listed and no earlier test raises, `@` succeeds |
| Qubits.MatmulNoPair | quam/components/quantum_components/qubit.py:65-69 | when no listed pair matches, `@` raises `ValueError` |
| PulseUtil.AngleText | quam/utils/pulse.py:24-27 | an empty angle text raises `IndexError`; a leading `m` becomes a minus sign and any other text is kept |
| PulseUtil.PulseStrToAxisAngle | quam/utils/pulse.py:7-31 | an empty string or a bare axis raises `IndexError`, a first letter outside `X`, `Y`, `Z` raises `ValueError`, and a result carries the string's own axis |
| PulseUtil.AxisAngleToPulseStr | quam/utils/pulse.py:7-31 | the pulse string for an axis and angle starts with that axis and has an angle part |
| PulseUtil.PulseStrRoundTrip | quam/utils/pulse.py:7-31 | parsing the pulse string written for any axis and integer angle gives back that axis and angle |
| PulseUtil.MinusSpellings | quam/utils/pulse.py:26-29 | `m` and `-` before the digits spell the same negative angle |
| QuamMacro.KeyValue | quam/core/macro/quam_macro.py:18-20 | a string key is returned as that string and an integer key as that integer |
| QuamMacro.InferredId | quam/core/macro/quam_macro.py:12-24 | an `id` that is not a reference is returned as it is; a reference id without a parent raises `AttributeError`; otherwise the id is a key under which the parent holds this macro |
| QuamMacro.FindNameFirst | quam/core/macro/quam_macro.py:18-20 | the attribute name found for a child is the first one whose value is that very child |
| QuamMacro.InferredIdInDict | quam/core/macro/quam_macro.py:12-20 | a macro with the default id stored in a dict is named by the first key holding it |
| QuamMacro.DictGetUnique | quam/core/macro/quam_macro.py:18-20 | in a dict with distinct keys, looking up an entry's key gives back that entry's value |
| QuamMacro.MacroProps | quam/core/macro/quam_macro.py:14-24 | the `inferred_id` property exists exactly on objects of a macro class that do not store a field of that name, and reads as `inferred_id` |
| QuamMacro.InferredIdIn | quam/core/macro/quam_macro.py:14-24 | a successful `inferred_id` is a value of the tree (the raw id or a key, never a foreign object) |
| QuamMacro.MacroPropsWf | quam/core/macro/quam_macro.py:14-24 | the macro property is a well-formed getter for the resolver: never shadowing a stored field and giving only values of the tree |
| QuamMacro.ReadsInferredId | quam/core/macro/quam_macro.py:14-24 | reading `inferred_id` of a macro raises the property's error, and gives its value when that is not itself a reference |
| QuamMacro.DefaultIdReadsInferredId | quam/core/macro/quam_macro.py:12-24 | reading `id` of a macro that keeps the default `#./inferred_id` gives `inferred_id` (the key its parent holds it under) whenever that is a plain value, and the unresolved default when `inferred_id` raises |
| FunctionProperties.RequiredNames | quam/core/operation/function_properties.py:48-51 | the required argument names are exactly the names of the parameters without a default, no more of them than there are parameters |
| FunctionProperties.OptionalDefaultsFromParams | quam/core/operation/function_properties.py:48-53 | every optional argument is a parameter of that name with that default |
| FunctionProperties.FromFunction | quam/core/operation/function_properties.py:20-55 | no parameters or a first parameter not hinted as a quantum component raises `ValueError` (an annotation that is not a class raises `TypeError`); otherwise the first parameter names the component and the rest split into required names and optional defaults |
| FunctionProperties.Partition | quam/core/operation/function_properties.py:48-53 | with distinct names, a parameter without a default is required and not optional, and one with a default is optional with that default and not required |
| FunctionProperties.NotIn | quam/core/operation/function_properties.py:48-53 | a name that is no parameter's is neither required nor optional |
| FunctionProperties.PartitionCount | quam/core/operation/function_properties.py:48-53 | with distinct names, the required and optional arguments together number exactly the parameters |
| StateTracker.Resolve | quam/utils/state_tracker.py:19 | resolving fails only with a pointer exception, and the empty pointer gives the whole document |
| StateTracker.ResolveOrPlaceholder | quam/utils/state_tracker.py:35 | with a default, only a malformed pointer raises; otherwise the value found agrees with resolving and the placeholder stands exactly for an unresolvable path |
| StateTracker.OpChange | quam/utils/state_tracker.py:18-52 | an add records only the new value; a replace or remove succeeds exactly when its path resolves and records the old value, and the new one for a replace; a copy or move succeeds exactly when `from` resolves and `path` is well formed, records the value at `from` as new and the destination's old value when it existed; every failure is a pointer exception |
| StateTracker.Step | quam/utils/state_tracker.py:16-52 | a test operation changes nothing; any other operation fails exactly when its change fails, records the change under its path, keeps every earlier entry it does not target, and adds no key other than its path or a move's source; a move records its source's old value unless the source already has an entry, which it keeps |
| StateTracker.Fold | quam/utils/state_tracker.py:15-52 | the loop over the patch only ever raises a pointer exception |
| StateTracker.Mapping | quam/utils/state_tracker.py:10-56 | succeeds exactly when the loop does; without the hash flag it is the loop's dict; with it the loop's dict re-keyed by `WithHash`, so every key is a loop key behind a `#`, with the same change |
| StateTracker.FoldFailurePersists | quam/utils/state_tracker.py:16-52 | once one operation raises, the whole conversion raises that same error |
| StateTracker.WithHash | quam/utils/state_tracker.py:54-55 | every key gains a leading `#` with its change unchanged, and no other key appears |
| StateTracker.RecordOp | quam/utils/state_tracker.py:16-52 | one loop step of the conversion performs exactly the specified step |
| StateTracker.JsonpatchToMapping | quam/utils/state_tracker.py:10-56 | the loop computes exactly the specified mapping, hashed keys included when asked |
| StateTracker.LastOpWins | quam/utils/state_tracker.py:16-52 | the entry for a path is the change made by the last operation targeting it |
| StateTracker.MappingKeys | quam/utils/state_tracker.py:16-52 | the mapping holds every non-test operation's path and every move's source, and nothing else |
| StateTracker.AddsNeverFail | quam/utils/state_tracker.py:29-32 | a patch of additions never raises |
| StateTracker.WithHashSingleton | quam/utils/state_tracker.py:54-55 | a single path is reported under `#` and that path |
| StateTracker.AddToEmptyState | quam/utils/state_tracker.py:10-56 | adding `/hi` to an empty state reports `#/hi` with only the new value |
| StateTracker.ValueToStr | quam/utils/state_tracker.py:65-72 | a text of under 40 characters is shown whole; a longer one is cut to 40 characters followed by `...` |
| StateTracker.ChangeLineAsWritten | quam/utils/state_tracker.py:75-80 | printing a change raises `KeyError` exactly when the change has no new value |
| StateTracker.ChangeLine | quam/utils/state_tracker.py:75-80 | the printed line is the indent, the path and `: `, and agrees with the code wherever the code does not raise |
| StateTracker.RemovalBreaksPrinting | quam/utils/state_tracker.py:24-80 | removing `/a` yields a change with no new value, and printing it raises `KeyError` |
| StateTracker.Tracker.constructor | quam/utils/state_tracker.py:84-86 | the tracker starts from the given state, or an empty one, with no recorded changes |
| StateTracker.Tracker.UpdateState | quam/utils/state_tracker.py:88-90 | on success records the mapping from the last state to the patch and takes the new state; if the conversion raises, nothing changes |

## Left out

- Dict key order: Python dicts keep insertion order. The model's `map`s do not, except where behaviour depends on order. Fields, dict entries and list items are ordered `seq`s, and the file sequence of a directory load is ordered.
- Resolver.Resolve / Resolver.DictGetItem / ResolverProps.ResolveRelativeMissing: `get_referenced_value` raises a plain `ValueError` for a path that does not walk (quam/utils/string_reference.py:112-120), and the handlers in `_get_referenced_value` and `QuamDict.__getitem__` catch `InvalidReferenceError` (quam/core/quam_classes.py:578, 910). The model takes that `ValueError` to be the `InvalidReferenceError` those handlers catch, which is what the reference-chain tests expect (a broken reference reads back as its raw string). quam/utils/exceptions.py, which defines the exception class, is not part of this model.
- RootConfig.GenerateConfig: `apply_to_config` is dispatched on each component's class. The model takes it as a parameter, a function from the component and the config to the new config or an error. The per-class steps are modelled in `Ports`, `Channels`, `Pulses`, `Hardware` and `Octaves`, but they are not wired to the nodes of the store. The traversal carries the same recursion `fuel` as `IterateComponents`.
- Aliasing between nested dicts: a nested dict reached through two paths is one object in Python but two values in the model.
- ConfigFinal.GenerateConfigFinalActions: when an action fails halfway, the code leaves the config partly changed. The model leaves it unchanged and reports the error.
- Warnings (`warnings.warn`) are a `warned` flag where they matter and are otherwise dropped. Printing (`print_state_changes`) is modelled only through the text of one line.
- Port attributes that hold references are taken as already-resolved values.
- Ports.FemTypeAfterApply: `fem_type` is only a `ClassVar` annotation and is never assigned, so the `hasattr` test in the code is false. The model makes the type an optional field of the port, and the branch runs only when the field is given.
- Unicode digits: `str.isdigit` and `int()` are modelled for ASCII digits only. The whitespace and underscores that `int()` accepts are not modelled.
- Port identity: two port objects with equal contents are one port in the model.
- An integer `QuamDict` key used as a channel name is not modelled.
- JSON pointers: the `~0` / `~1` escapes and the `-` array index of RFC 6901 are not modelled.
- PortsContainers.OpxPlusPortsContainer.ReferenceToPort / PortsContainers.FemPortsContainer.ReferenceToPort: the branch that accepts a component input (a port object rather than a reference string) is not modelled.
- StateTracker.Tracker.UpdateState: `jsonpatch.make_patch` is outside this code base, so the patch is a parameter.
- `typing.get_type_hints` failures (unresolvable forward references) are not modelled. `typeguard.check_type` is a predicate parameter.
- Numerics: `IQ_imbalance` is a parameter giving the correction matrix. Waveform samples, float rounding and float-to-int truncation are not modelled. Waveform constants are kept as given.
- QUA DSL calls (`play`, `measure`, `align`, `wait`, …) emit program statements and are not modelled. Only the argument checks that raise before them are modelled.
- A tuple of qubit ids that are not integers raises `TypeError` in Python. It is not modelled.
- `integration_weights_function` is a parameter, and the `TimeTaggingAddon` is not modelled.
- Octaves.ConverterSlot: a list- or tuple-valued `RF_outputs` or `RF_inputs` under an Octave is taken as a `TypeError`. In Python `id in` such a container is a membership test (an id found there is a `KeyError`). The entry is then stored at list index `id` (an `IndexError` when out of range), and storing into a tuple is a `TypeError`. `octaves` itself and the Octave entry follow Python's `in` and indexing.
- Octaves: `get_octave_config`, `OctaveOld`, non-LF port objects and the ordering of `config_settings` are not modelled.
- Qubits.Matmul: the root (`_root`) is a parameter. A `qubit_pairs` string iterating its characters and a dict iterating its keys are modelled as items.
- Hardware.MixerApply: mixer references (`local_oscillator_frequency`, `intermediate_frequency`) are taken as resolved values. A channel whose name is `None` is treated as having no name.
- StringReference.SplitReference / StringReference.JoinReferences: `quam/utils/string_reference.py` as shown lacks them. They follow the behaviour `tests/utils/test_join_references.py` expects.
- Resolver.GetAttr / Resolver.GetAttribute: the getters of class properties are a parameter of the resolver (`props` in its context). Only the `inferred_id` property of macros is defined in the model (QuamMacro.MacroProps). The other `@property` getters of components are left to the caller.
- Resolver.GetAttr: a dataclass field named `parent` is not modelled. The store keeps the parent link apart from the fields and a well-formed node has no field of that name (QuamModel.WfNode), although tests/quam_base/test_set_at_reference.py:19-21 declares one and resolves `#/parent/child/value` through it. On a dataclass object, `parent` is read like any other descriptor through the `props` parameter. A non-digit segment on a primitive value, and any name other than `parent` on a `QuamList` (its list methods), is `AttributeError` in the model, where Python's `getattr` may find a bound method or a number's attribute.
- Fuel: every recursion along parent or reference chains has a bound that stands for Python's recursion limit. Running out gives `RecursionError`.
- Deprecations.Apply: the list of deprecation rules is never consulted in the shown source. The rule is modelled on its own.
- Hardware.DefaultIntermediateFrequencyReferenceParses: the docstring gives `#../intermediate_frequency`, but the code uses `#../../intermediate_frequency`. The model follows the code.
- Path lookup for the state file (environment variables, config files, the file-system walk) is a parameter of the loader.
- Validators.QuamVersionValidator: with `skip_if_none` the code raises `KeyError` for a missing `quam` section. The model follows the code.
- JsonSerialiser.SaveSplitContent: the method follows the corrected split (see Findings). `SplitFiles` and `DefaultFileOverwritten` keep the code as written.
- JsonSerialiser.SaveSpec: it uses the corrected split `SplitFilesMerged` (see Findings). When the remaining contents and a mapped group both go to the default file, the code as written keeps only the remainder, and the model keeps both.
- JsonSerialiser.Serialiser.Save: it follows `SaveSpec`, so it has the same departure for a group mapped to the default file.
- JsonSerialiser.TargetFile: file names are compared as written. `./a.json` and `a.json` name the same file on disk but two files in the model.
- PortsContainers.FemGetPort: it builds new ports with the corrected arguments `FemConstructorArgs` (see Findings). As written, creating an MW-FEM port raises `TypeError` when the caller passes `band` (or `downconverter_frequency` for an MW input), because that keyword then reaches the constructor twice. Without them the code builds the port with band 1, as `PortsContainers.FemConstructorArgsAgree` shows.
- PortsContainers.FemPortsContainer.GetPort: it follows `FemGetPort`, so it has the same departure.
- PortsContainers.FemPortsContainer.GetMwOutput: it follows `FemGetPort`, so it has the same departure.
- PortsContainers.FemPortsContainer.GetMwInput: it follows `FemGetPort`, so it has the same departure.
- QuamStore.SlotSet: on a dict, setting `data`, `config_settings` or `_initialized` leaves the store unchanged, and so does setting `parent` to something that is neither an object nor `None`. The store has no place for these attributes of the dict object.
- QuamStore.Tree.SetSlot: it follows `SlotSet`, so it has the same gap.
- QuamStore.DictItemSet: the guard follows the rule of `ReferenceClass.__setattr__`. `_is_valid_setattr` itself is not part of this model.
- Instantiation.InstFromList: Python enumerates the keys of a dict given where a list is annotated. The model's dicts have no key order, so the model raises `TypeError` for a dict, as it does for a number.

## Findings

| source | as written | input that shows it | evidently intended | confidence | as-written member | corrected member |
|---|---|---|---|---|---|---|
| quam/serialisation/json.py:277-297 | the remaining contents are written to `state.json` after the mapped groups, replacing a group mapped to that same file | contents `{a: 1, b: 2}` with mapping `{a: "state.json"}` saves only `{b: 2}` | the remainder joins the group already bound for `state.json`, so save-then-load gives back the contents for every mapping | medium, not executed | JsonSerialiser.DefaultFileOverwritten | JsonSerialiser.MergedSplitThenMerge |
| quam/components/ports/base_ports.py:65-78 | `create=False` reads `controller[port_type]` (e.g. `analog_output`), but `create=True` writes under `port_type + "s"` | an OPX+ output port `("con1", 1)` on a config with no controller entry: create, then look up, gives `KeyError` | the lookup uses the plural key the create branch writes, finding the entry just made | high, not executed | Ports.OpxPlusLookupMissesCreatedEntry | Ports.CreatedPortConfigFound |
| quam/components/ports/ports_containers.py:228-242 | `band=kwargs.get("band", 1)` is passed next to `**kwargs` (and `downconverter_frequency` for inputs) | `get_mw_output("con1", 1, 1, create=True, band=1)` raises `TypeError` for a repeated keyword | the given band (or 1) is passed once | high, not executed | PortsContainers.MwOutputBandTwice | PortsContainers.MwPortsBuilt |
| quam/utils/state_tracker.py:24-80 | a removal records a change with no `"new"` entry, and printing reads `state_change["new"]` | a state `{a: 1}` followed by the patch `remove /a`: printing the change raises `KeyError` | the absent new value prints as `None`, as the absent old value does, instead of raising | medium, not executed | StateTracker.RemovalBreaksPrinting | StateTracker.ChangeLine |

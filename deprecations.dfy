/** `quam/core/deprecations.py`: the rule that turns a frequency converter
    saved without a `__class__` tag into a `FrequencyConverter`. Classes
    are identified by their full class path. */
module Deprecations {
  import opened JsonValue

  const BaseFrequencyConverterPath: string := "quam.components.hardware.BaseFrequencyConverter"
  const FrequencyConverterPath: string := "quam.components.hardware.FrequencyConverter"
  const ClassTag: Key := KStr("__class__")

  /** `DeprecatedFrequencyConverterInstantiation.match`: the rule applies
      to untagged contents requested as a `BaseFrequencyConverter`. */
  function Matches(cls: string, contents: Obj): (r: bool)
    ensures r ==> |Applied(contents)| == |contents| + 1
    ensures r ==> cls == BaseFrequencyConverterPath
  {
    cls == BaseFrequencyConverterPath && ClassTag !in contents
  }

  /** The contents the rule leaves behind: tagged as a `FrequencyConverter`,
      whatever tag was there before. */
  function Applied(contents: Obj): (r: Obj)
    ensures r.Keys == contents.Keys + {ClassTag}
    ensures r[ClassTag] == JStr(FrequencyConverterPath)
    ensures forall k | k in contents && k != ClassTag :: r[k] == contents[k]
  {
    contents[ClassTag := JStr(FrequencyConverterPath)]
  }

  /** Once applied, the rule no longer matches the contents, so it cannot
      fire twice; and applying it twice is applying it once. */
  lemma AppliedIdempotent(cls: string, contents: Obj)
    ensures !Matches(cls, Applied(contents))
    ensures Applied(Applied(contents)) == Applied(contents)
  {
  }

  /** `DeprecatedFrequencyConverterInstantiation.apply`: warns, writes the
      tag into the caller's dict in place, and returns the
      `FrequencyConverter` class with that same dict. */
  method Apply(cls: string, contents: Dict) returns (newCls: string, same: Dict, warned: bool)
    modifies contents
    ensures contents.data == Applied(old(contents.data))
    ensures same == contents
    ensures newCls == FrequencyConverterPath && warned
  {
    warned := true;
    contents.data := contents.data[ClassTag := JStr(FrequencyConverterPath)];
    return FrequencyConverterPath, contents, warned;
  }
}

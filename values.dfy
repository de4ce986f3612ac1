/** The values a quam attribute slot can hold. Dicts and lists assigned to a
    quam object are converted to `QuamDict` / `QuamList` objects, so a slot
    holds either a primitive or a reference to another quam object. */
module Values {

  /** Identity of a quam object (Python's `is`). */
  type Id = nat

  datatype Value =
    | VNone
    | VBool(b: bool)
    | VInt(i: int)
    | VFloat(f: real)
    | VStr(s: string)
    | VNode(id: Id)

  /** No identity occurs twice. */
  predicate Distinct(s: seq<Id>) {
    forall i, j | 0 <= i < j < |s| :: s[i] != s[j]
  }
}

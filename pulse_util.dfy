/** `pulse_str_to_axis_axis_angle`: reads a rotation name such as `X90`,
    `Ym90` or `Z-45` as an axis and an angle in degrees. */
module PulseUtil {
  import opened Wrappers
  import opened Strings

  const Axes: set<char> := {'X', 'Y', 'Z'}

  /** The angle text with a leading `m` ("minus") turned into `-`; an empty
      text is an `IndexError`, as indexing its first character is. */
  function AngleText(t: string): (r: Result<string>)
    ensures r.Err? <==> t == []
    ensures r.Err? ==> r.error == IndexError
    ensures r.Ok? && t[0] != 'm' ==> r.value == t
    ensures r.Ok? && t[0] == 'm' ==> r.value == "-" + t[1..]
  {
    if t == [] then Err(IndexError)
    else if t[0] == 'm' then Ok("-" + t[1..])
    else Ok(t)
  }

  /** The axis is the first character and must be one of `X`, `Y`, `Z`;
      the rest is the angle, parsed by `int()`. */
  function PulseStrToAxisAngle(s: string): (r: Result<(char, int)>)
    ensures s == [] ==> r == Err(IndexError)
    ensures s != [] && s[0] !in Axes ==> r == Err(ValueError)
    ensures s == ['X'] || s == ['Y'] || s == ['Z'] ==> r == Err(IndexError)
    ensures r.Ok? ==> |s| >= 2 && r.value.0 == s[0] && r.value.0 in Axes
  {
    if s == [] then Err(IndexError)
    else if s[0] !in Axes then Err(ValueError)
    else
      var t :- AngleText(s[1..]);
      var angle :- ParseInt(t);
      Ok((s[0], angle))
  }

  /** The canonical rotation name: axis, then `m` and the magnitude for a
      negative angle, or the angle itself. */
  function AxisAngleToPulseStr(axis: char, angle: int): (r: string)
    ensures |r| >= 2 && r[0] == axis
  {
    if angle < 0 then [axis, 'm'] + NatToString(-angle)
    else [axis] + NatToString(angle)
  }

  /** Reading a canonical name gives back its axis and angle. */
  lemma PulseStrRoundTrip(axis: char, angle: int)
    requires axis in Axes
    ensures PulseStrToAxisAngle(AxisAngleToPulseStr(axis, angle)) == Ok((axis, angle))
  {
    var s := AxisAngleToPulseStr(axis, angle);
    IntToStringParses(angle);
    if angle < 0 {
      assert s[1..] == ['m'] + NatToString(-angle);
      assert s[1..][1..] == NatToString(-angle);
      assert AngleText(s[1..]) == Ok(IntToString(angle));
    } else {
      assert s[1..] == NatToString(angle);
      assert IsDigitChar(s[1..][0]);
      assert AngleText(s[1..]) == Ok(IntToString(angle));
    }
  }

  /** `m` and `-` are two spellings of a negative angle: `Xm90` and `X-90`
      both read as `('X', -90)`. */
  lemma MinusSpellings(axis: char, digits: string)
    requires axis in Axes && IsDigits(digits)
    ensures PulseStrToAxisAngle([axis, 'm'] + digits) == PulseStrToAxisAngle([axis, '-'] + digits)
    ensures PulseStrToAxisAngle([axis, 'm'] + digits) == Ok((axis, -(DigitsValue(digits) as int)))
  {
    var a := [axis, 'm'] + digits;
    var b := [axis, '-'] + digits;
    assert a[1..][1..] == digits;
    assert b[1..] == "-" + digits;
    assert ("-" + digits)[1..] == digits;
  }
}

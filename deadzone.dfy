/**
 * The analog deadzone classification macros of src/keyboard.c
 * (_ANALOG_AXIS_ZERO, _ANALOG_AXIS_POS, _ANALOG_AXIS_NEG), as integer
 * predicates over a raw axis value v and a deadzone d.
 */
module Deadzone {

  /** C abs() on an int. */
  function Abs(v: int): (r: nat)
    ensures r == v || r == -v
  {
    if v < 0 then -v else v
  }

  /** _ANALOG_AXIS_ZERO: |v| < d. */
  predicate AxisZero(v: int, d: int)
  {
    Abs(v) < d
  }

  /** _ANALOG_AXIS_POS: not zero and v > d. */
  predicate AxisPos(v: int, d: int)
  {
    !AxisZero(v, d) && v > d
  }

  /** _ANALOG_AXIS_NEG: not zero and v < d (note: compared with d, not with -d). */
  predicate AxisNeg(v: int, d: int)
  {
    !AxisZero(v, d) && v < d
  }

  /** Zero holds exactly strictly inside (-d, d), and it excludes both other classes. */
  lemma ZeroExactlyInside(v: int, d: int)
    ensures AxisZero(v, d) <==> -d < v < d
    ensures AxisZero(v, d) ==> !AxisPos(v, d) && !AxisNeg(v, d)
    ensures !(AxisPos(v, d) && AxisNeg(v, d))
  {
  }

  /** For a positive deadzone: positive means above d, negative means at or below -d. */
  lemma PositiveDeadzoneClasses(v: int, d: int)
    requires d > 0
    ensures AxisPos(v, d) <==> v > d
    ensures AxisNeg(v, d) <==> v <= -d
    ensures !AxisZero(v, d) && !AxisPos(v, d) && !AxisNeg(v, d) <==> v == d
  {
  }

  /** The boundary is asymmetric: v == d is in no class, v == -d is negative. */
  lemma BoundaryAsymmetry(d: int)
    requires d > 0
    ensures !AxisZero(d, d) && !AxisPos(d, d) && !AxisNeg(d, d)
    ensures AxisNeg(-d, d) && !AxisZero(-d, d)
  {
  }

  /** For a deadzone of zero or below nothing is zero, and the sign test is against d itself. */
  lemma NonPositiveDeadzoneClasses(v: int, d: int)
    requires d <= 0
    ensures !AxisZero(v, d)
    ensures AxisPos(v, d) <==> v > d
    ensures AxisNeg(v, d) <==> v < d
  {
  }
}

/** A scalar of a decoded JSON document, and the two Python conversions the
    core applies to one: `float(v)` and `str(v)`. */
module Json {
  import opened Wrappers
  import Text

  /** `null`, `true`/`false`, an integer, a floating-point number or a string.
      A float carries the text Python's `str` prints for it, which depends on
      the binary value and is not derived here. */
  datatype Scalar = SNull | SBool(b: bool) | SInt(i: int) | SReal(x: real, repr: string) | SText(s: string)

  /** `float(v)`: None stands for the TypeError (null) or ValueError (text
      that is not a number) Python raises. */
  function FloatOf(v: Scalar): (r: Option<real>)
    ensures v.SNull? ==> r.None?
    ensures v.SBool? ==> r == Some(if v.b then 1.0 else 0.0)
    ensures v.SInt? ==> r == Some(v.i as real)
    ensures v.SReal? ==> r == Some(v.x)
    ensures v.SText? ==> r == Text.ParseFloat(v.s)
  {
    match v
    case SNull => None
    case SBool(b) => Some(if b then 1.0 else 0.0)
    case SInt(i) => Some(i as real)
    case SReal(x, _) => Some(x)
    case SText(s) => Text.ParseFloat(s)
  }

  /** `str(v)`. */
  function StrOf(v: Scalar): (s: string)
    ensures v.SText? ==> s == v.s
    ensures v.SNull? ==> s == "None"
  {
    match v
    case SNull => "None"
    case SBool(b) => if b then "True" else "False"
    case SInt(i) => Text.IntToString(i)
    case SReal(_, repr) => repr
    case SText(s) => s
  }

  /** An integer printed by `str` converts back with `float`. */
  lemma FloatOfStrOfInt(i: int)
    ensures FloatOf(SText(StrOf(SInt(i)))) == Some(i as real)
  {
    Text.ParseFloatOfIntToString(i);
  }
}

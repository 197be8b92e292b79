/** Decimal digits as the source produces and reads them: `str(n)`,
    `f"{n:02d}"`, `float(text)` and `str.lower()`. */
module Text {
  import opened Wrappers

  predicate IsDigit(c: char) { '0' <= c <= '9' }

  function DigitValue(c: char): (d: nat)
    requires IsDigit(c)
    ensures d < 10
  {
    (c as int) - ('0' as int)
  }

  function DigitChar(d: nat): (c: char)
    requires d < 10
    ensures IsDigit(c) && DigitValue(c) == d
  {
    ('0' as int + d) as char
  }

  predicate AllDigits(s: string) {
    forall i :: 0 <= i < |s| ==> IsDigit(s[i])
  }

  /** The number a run of decimal digits denotes; leading zeros are allowed. */
  function DigitsValue(s: string): nat
    requires AllDigits(s)
  {
    if s == [] then 0 else DigitsValue(s[..|s| - 1]) * 10 + DigitValue(s[|s| - 1])
  }

  /** Python's `str(n)` for a natural number: no leading zeros. */
  function NatToString(n: nat): (s: string)
    ensures AllDigits(s) && 1 <= |s|
    ensures |s| == 1 <==> n < 10
  {
    if n < 10 then [DigitChar(n)] else NatToString(n / 10) + [DigitChar(n % 10)]
  }

  /** Python's `str(n)` for any integer. */
  function IntToString(n: int): string {
    if n < 0 then "-" + NatToString(-n) else NatToString(n)
  }

  /** Reading back what `str(n)` printed gives `n`. */
  lemma {:induction false} NatToStringRoundTrip(n: nat)
    ensures DigitsValue(NatToString(n)) == n
  {
    if n >= 10 {
      var s := NatToString(n);
      var prefix := NatToString(n / 10);
      assert s[..|s| - 1] == prefix;
      NatToStringRoundTrip(n / 10);
    }
  }

  /** `f"{n:02d}"`: at least two digits, padded with a leading zero. */
  function Pad2(n: nat): (s: string)
    ensures AllDigits(s)
    ensures n < 100 ==> |s| == 2
    ensures DigitsValue(s) == n
  {
    NatToStringRoundTrip(n);
    if n < 10 then
      var s := "0" + NatToString(n);
      assert s[..|s| - 1] == "0";
      s
    else NatToString(n)
  }

  /** The last `w` decimal digits of `n`, zero-padded: `f"{n:0{w}d}"` when `n`
      has at most `w` digits. */
  function FixedDigits(n: nat, w: nat): (s: string)
    ensures |s| == w && AllDigits(s)
  {
    if w == 0 then "" else FixedDigits(n / 10, w - 1) + [DigitChar(n % 10)]
  }

  /** Reading back `w` fixed digits gives `n` modulo 10^w. */
  lemma {:induction false} FixedDigitsValue(n: nat, w: nat)
    ensures DigitsValue(FixedDigits(n, w)) == n % Pow10(w)
  {
    if w > 0 {
      var s := FixedDigits(n, w);
      assert s[..|s| - 1] == FixedDigits(n / 10, w - 1);
      FixedDigitsValue(n / 10, w - 1);
      ShiftedRemainder(n, Pow10(w - 1));
    }
  }

  /** Printing the value of a digit string back at its own width gives the
      string itself. */
  lemma {:induction false} FixedDigitsOfValue(s: string)
    requires AllDigits(s)
    ensures FixedDigits(DigitsValue(s), |s|) == s
  {
    if s != [] {
      var init := s[..|s| - 1];
      var v := DigitsValue(s);
      assert v / 10 == DigitsValue(init) && v % 10 == DigitValue(s[|s| - 1]);
      FixedDigitsOfValue(init);
      assert s == init + [s[|s| - 1]];
    }
  }

  /** One more low digit: (n / 10) mod p, shifted, plus n's last digit is n mod 10p. */
  lemma ShiftedRemainder(n: nat, p: nat)
    requires p >= 1
    ensures (n / 10) % p * 10 + n % 10 == n % (10 * p)
  {
    var q := n / 10;
    var b := q % p;
    var a := q / p;
    assert q == p * a + b;
    assert n == 10 * q + n % 10;
    assert n == (10 * p) * a + (b * 10 + n % 10);
    RemainderUnique(n, 10 * p, a, b * 10 + n % 10);
  }

  lemma RemainderUnique(n: int, m: int, q: int, r: int)
    requires m > 0 && n == m * q + r && 0 <= r < m
    ensures n % m == r
  {
    var q' := n / m;
    var r' := n % m;
    assert m * q' + r' == n;
    if q' > q {
      assert m * q' == m * q + m * (q' - q);
      MultipleAtLeast(m, q' - q);
    } else if q' < q {
      assert m * q == m * q' + m * (q - q');
      MultipleAtLeast(m, q - q');
    }
  }

  lemma {:induction false} MultipleAtLeast(m: int, d: int)
    requires m > 0 && d >= 1
    ensures m * d >= m
  {
    if d > 1 {
      MultipleAtLeast(m, d - 1);
      assert m * d == m * (d - 1) + m;
    }
  }

  /** Index of the first occurrence of `c` in `s`, or `|s|` when there is none. */
  function IndexOf(s: string, c: char): (k: nat)
    ensures k <= |s|
    ensures k < |s| ==> s[k] == c
    ensures forall i :: 0 <= i < k ==> s[i] != c
  {
    if s == [] then 0 else if s[0] == c then 0 else 1 + IndexOf(s[1..], c)
  }

  function Pow10(k: nat): (p: nat)
    ensures p >= 1
  {
    if k == 0 then 1 else 10 * Pow10(k - 1)
  }

  /** The value of the digits `whole` "." `fraction`. */
  function DecimalValue(whole: string, fraction: string): (v: real)
    requires AllDigits(whole) && AllDigits(fraction)
    ensures fraction == [] ==> v == DigitsValue(whole) as real
    ensures v >= 0.0
  {
    DigitsValue(whole) as real + DigitsValue(fraction) as real / Pow10(|fraction|) as real
  }

  /** Python's `float(text)` on plain decimal notation: an optional sign, then
      digits with at most one decimal point and at least one digit in all.
      None stands for the ValueError Python raises. */
  function ParseFloat(s: string): (r: Option<real>)
    ensures r.Some? ==> |s| >= 1
  {
    if |s| > 0 && s[0] == '-' then
      var m := ParseUnsigned(s[1..]);
      if m.Some? then Some(-m.value) else None
    else if |s| > 0 && s[0] == '+' then ParseUnsigned(s[1..])
    else ParseUnsigned(s)
  }

  /** The unsigned part: digits with at most one decimal point, at least one
      digit in all. */
  function ParseUnsigned(body: string): (r: Option<real>)
    ensures r.Some? ==> |body| >= 1 && r.value >= 0.0
  {
    var dot := IndexOf(body, '.');
    var whole := body[..dot];
    var fraction := if dot < |body| then body[dot + 1..] else "";
    if AllDigits(whole) && AllDigits(fraction) && |whole| + |fraction| > 0 then
      Some(DecimalValue(whole, fraction))
    else
      None
  }

  /** Whatever `str(n)` prints, `float` reads back as the same number. */
  lemma ParseFloatOfIntToString(n: int)
    ensures ParseFloat(IntToString(n)) == Some(n as real)
  {
    if n < 0 {
      ParseFloatOfNegativeInt(n);
    } else {
      NatToStringRoundTrip(n);
      ParseFloatOfUnsigned(NatToString(n));
    }
  }

  lemma ParseFloatOfNegativeInt(n: int)
    requires n < 0
    ensures ParseFloat(IntToString(n)) == Some(n as real)
  {
    var m: nat := -n;
    var digits := NatToString(m);
    assert ParseUnsigned(digits) == Some(m as real) by {
      NatToStringRoundTrip(m);
      ParseUnsignedDigits(digits);
    }
    assert IntToString(n) == "-" + digits;
    ParseFloatOfMinus(digits, m as real);
  }

  /** A minus sign in front negates what the rest reads as. */
  lemma ParseFloatOfMinus(body: string, v: real)
    requires ParseUnsigned(body) == Some(v)
    ensures ParseFloat("-" + body) == Some(-v)
  {
    var s := "-" + body;
    assert s[0] == '-' && s[1..] == body;
  }

  lemma ParseFloatOfUnsigned(digits: string)
    requires AllDigits(digits) && |digits| >= 1
    ensures ParseFloat(digits) == Some(DigitsValue(digits) as real)
  {
    ParseUnsignedDigits(digits);
    assert IsDigit(digits[0]);
  }

  /** A run of digits without a point reads as its value. */
  lemma ParseUnsignedDigits(digits: string)
    requires AllDigits(digits) && |digits| >= 1
    ensures ParseUnsigned(digits) == Some(DigitsValue(digits) as real)
  {
    NoDecimalPoint(digits);
    assert digits[..|digits|] == digits;
  }

  lemma NoDecimalPoint(digits: string)
    requires AllDigits(digits)
    ensures IndexOf(digits, '.') == |digits|
  {
  }

  /** `int(text)` on plain integer notation: an optional sign, then at least
      one digit. */
  function ParseInt(s: string): (r: Option<int>)
    ensures r.Some? <==> ((|s| >= 1 && AllDigits(s)) || (|s| >= 2 && (s[0] == '-' || s[0] == '+') && AllDigits(s[1..])))
  {
    if |s| >= 1 && (s[0] == '-' || s[0] == '+') then
      if |s| >= 2 && AllDigits(s[1..]) then
        Some(if s[0] == '-' then -(DigitsValue(s[1..]) as int) else DigitsValue(s[1..]))
      else None
    else if |s| >= 1 && AllDigits(s) then Some(DigitsValue(s))
    else None
  }

  /** Whatever `str(n)` prints, `int` reads back as `n`. */
  lemma ParseIntOfIntToString(n: int)
    ensures ParseInt(IntToString(n)) == Some(n)
  {
    var s := IntToString(n);
    if n < 0 {
      var digits := NatToString(-n);
      NatToStringRoundTrip(-n);
      assert s == "-" + digits;
      assert s[0] == '-' && s[1..] == digits && |s| >= 2;
      assert AllDigits(s[1..]);
    } else {
      NatToStringRoundTrip(n);
      assert IsDigit(s[0]);
      assert AllDigits(s) && |s| >= 1;
    }
  }

  /** On integer notation `int` and `float` read the same number. */
  lemma ParseIntAgreesWithFloat(s: string)
    requires ParseInt(s).Some?
    ensures ParseFloat(s) == Some(ParseInt(s).value as real)
  {
    if s[0] == '-' || s[0] == '+' {
      ParseUnsignedDigits(s[1..]);
      if s[0] == '-' {
        assert s == "-" + s[1..];
        ParseFloatOfMinus(s[1..], DigitsValue(s[1..]) as real);
      }
    } else {
      ParseFloatOfUnsigned(s);
    }
  }

  function LowerChar(c: char): char {
    if 'A' <= c <= 'Z' then (c as int + 32) as char else c
  }

  /** `str.lower()` on ASCII letters. */
  function Lower(s: string): (r: string)
    ensures |r| == |s|
    ensures forall i :: 0 <= i < |s| ==> r[i] == LowerChar(s[i])
  {
    if s == [] then [] else [LowerChar(s[0])] + Lower(s[1..])
  }

  /** Lower-casing twice changes nothing more. */
  lemma LowerIdempotent(s: string)
    ensures Lower(Lower(s)) == Lower(s)
  {
  }
}

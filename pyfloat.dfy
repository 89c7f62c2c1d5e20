/**
 * Python's `float(text)` for a CSV cell: surrounding whitespace, an optional
 * sign, decimal digits with an optional fraction and an optional exponent.
 * `None` stands for the ValueError Python raises.
 */
module PyFloat {
  import opened Wrappers
  import opened Text

  function Pow10(n: nat): (r: real)
    ensures r >= 1.0
  {
    if n == 0 then 1.0 else 10.0 * Pow10(n - 1)
  }

  /** Index just past the run of ASCII digits that starts at `i`. */
  function DigitRunEnd(s: string, i: nat): (j: nat)
    requires i <= |s|
    ensures i <= j <= |s| && AllDigits(s[i..j]) && (j == |s| || !IsDigit(s[j]))
    decreases |s| - i
  {
    if i < |s| && IsDigit(s[i]) then
      var j := DigitRunEnd(s, i + 1);
      assert s[i..j] == [s[i]] + s[i + 1..j];
      j
    else i
  }

  /** `digits`, `digits.`, `.digits` or `digits.digits`. */
  function ParseMantissa(s: string): (r: Option<real>)
    ensures r.Some? ==> r.value >= 0.0
  {
    var a := DigitRunEnd(s, 0);
    if a == |s| then
      if a == 0 then None else Some(DigitsValue(s) as real)
    else if s[a] != '.' then None
    else
      var b := DigitRunEnd(s, a + 1);
      if b != |s| || (a == 0 && b == a + 1) then None
      else Some(DigitsValue(s[..a]) as real + DigitsValue(s[a + 1..]) as real / Pow10(b - a - 1))
  }

  /** An exponent: an optional sign and at least one digit. */
  function ParseExponent(s: string): Option<int> {
    if |s| > 0 && (s[0] == '+' || s[0] == '-') then
      var t := s[1..];
      if t != [] && AllDigits(t) then Some(if s[0] == '-' then -(DigitsValue(t) as int) else DigitsValue(t) as int)
      else None
    else if s != [] && AllDigits(s) then Some(DigitsValue(s) as int)
    else None
  }

  function Scale(m: real, e: int): real {
    if e >= 0 then m * Pow10(e) else m / Pow10(-e)
  }

  function ExponentMark(s: string, i: nat): (j: nat)
    requires i <= |s|
    ensures i <= j <= |s| && (j < |s| ==> s[j] == 'e' || s[j] == 'E')
    decreases |s| - i
  {
    if i == |s| || s[i] == 'e' || s[i] == 'E' then i else ExponentMark(s, i + 1)
  }

  function ParseUnsigned(s: string): (r: Option<real>)
    ensures r.Some? ==> r.value >= 0.0
  {
    var k := ExponentMark(s, 0);
    if k == |s| then ParseMantissa(s)
    else
      match (ParseMantissa(s[..k]), ParseExponent(s[k + 1..]))
      case (Some(m), Some(e)) => Some(Scale(m, e))
      case _ => None
  }

  /** `float(text)`; `None` where Python raises ValueError. */
  function ParseFloat(text: string): (r: Option<real>)
    ensures r.Some? ==> Strip(text) != ""
  {
    var t := Strip(text);
    if |t| > 0 && (t[0] == '+' || t[0] == '-') then
      match ParseUnsigned(t[1..])
      case Some(v) => Some(if t[0] == '-' then -v else v)
      case None => None
    else ParseUnsigned(t)
  }

  /** A plain run of digits parses to its decimal value. */
  lemma ParseDigits(s: string)
    requires s != [] && AllDigits(s)
    ensures ParseFloat(s) == Some(DigitsValue(s) as real)
  {
    assert !IsSpace(s[0]) && !IsSpace(s[|s| - 1]);
    StripTrimmed(s);
    assert ExponentMark(s, 0) == |s| by {
      ExponentMarkDigits(s, 0);
    }
  }

  lemma ExponentMarkDigits(s: string, i: nat)
    requires i <= |s| && AllDigits(s)
    ensures ExponentMark(s, i) == |s|
    decreases |s| - i
  {
    if i < |s| {
      ExponentMarkDigits(s, i + 1);
    }
  }

  lemma ExampleEmpty()
    ensures ParseFloat("") == None && ParseFloat("  ") == None
  {
  }

  lemma ExampleWord()
    ensures ParseFloat("abc") == None
  {
    StripTrimmed("abc");
    assert ExponentMark("abc", 0) == 3;
    assert DigitRunEnd("abc", 0) == 0;
  }

  /** Surrounding whitespace never changes the parse. */
  lemma ParseIgnoresSurroundingSpace(text: string)
    ensures ParseFloat(Strip(text)) == ParseFloat(text)
  {
    StripIdempotent(text);
  }

  lemma ExampleFraction()
    ensures ParseFloat("2.5") == Some(2.5)
  {
    StripTrimmed("2.5");
    assert ExponentMark("2.5", 0) == 3;
    assert DigitRunEnd("2.5", 0) == 1;
    assert DigitRunEnd("2.5", 2) == 3;
    assert "2.5"[..1] == "2" && "2.5"[2..] == "5";
  }

  lemma ExampleNegative()
    ensures ParseFloat("-4") == Some(-4.0)
  {
    StripTrimmed("-4");
    assert "-4"[1..] == "4";
    ParseDigits("4");
  }

  lemma ExampleExponent()
    ensures ParseFloat("1e3") == Some(1000.0)
  {
    StripTrimmed("1e3");
    assert ExponentMark("1e3", 0) == 1;
    assert "1e3"[..1] == "1" && "1e3"[2..] == "3";
    assert DigitRunEnd("1", 0) == 1;
  }
}

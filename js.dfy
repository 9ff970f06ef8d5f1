/** The slice of JavaScript value semantics the forms depend on: `Number(text)`,
    truthiness, and the loose comparison `value <= 0` on a string or a number.
    Numbers are exact decimals: exponents, `Infinity` and rounding to double precision are not represented. */
module Js {
  import opened Text

  /** A JavaScript number: a finite value, or NaN. */
  datatype Number = Finite(value: real) | NaN
  {
    /** `n <= 0`; every comparison with NaN is false. */
    predicate AtMostZero() { Finite? && value <= 0.0 }

    /** `!!n`: zero and NaN are falsy. */
    predicate Truthy() { Finite? && value != 0.0 }
  }

  function Pow10(k: nat): (p: nat)
    ensures p >= 1
  {
    if k == 0 then 1 else 10 * Pow10(k - 1)
  }

  /** The value of decimal text without a sign: digits, or digits with one decimal point
      and at least one digit on some side of it (`"5"`, `"5.25"`, `"5."`, `".5"`); NaN otherwise. */
  function Unsigned(t: string): (n: Number)
    ensures n.Finite? ==> n.value >= 0.0
  {
    if t != "" && AllDigits(t) then Finite(DigitsValue(t) as real)
    else
      var parts := Split(t, '.');
      if |parts| == 2 && parts[0] + parts[1] != "" && AllDigits(parts[0]) && AllDigits(parts[1]) then
        Finite(DigitsValue(parts[0]) as real + DigitsValue(parts[1]) as real / Pow10(|parts[1]|) as real)
      else NaN
  }

  /** `Number(s)` on decimal text: surrounding whitespace is ignored, blank text is 0, and
      an optional minus sign negates the unsigned decimal that follows it. */
  function ToNumber(s: string): (n: Number)
    ensures Blank(s) ==> n == Finite(0.0)
  {
    TrimEmptyIffBlank(s);
    var t := Trim(s);
    if t == "" then Finite(0.0)
    else if t[0] == '-' then
      match Unsigned(t[1..])
      case Finite(v) => Finite(0.0 - v)
      case NaN => NaN
    else Unsigned(t)
  }

  /** Converting a printed integer back with `Number` gives the integer. */
  lemma ToNumberOfPrinted(i: int)
    ensures ToNumber(IntToString(i)) == Finite(i as real)
  {
    var s := IntToString(i);
    TrimUntouched(s);
    assert Trim(s) == s;
    if i < 0 {
      var d := Decimal(-i);
      assert s[1..] == d;
      DecimalRoundTrip(-i);
      assert Unsigned(d) == Finite((-i) as real);
    } else {
      DecimalRoundTrip(i);
      assert Unsigned(s) == Finite(i as real);
    }
  }

  /** A price typed with cents reads as that decimal. */
  lemma PriceWithCents()
    ensures ToNumber("12.5") == Finite(12.5)
  {
    TrimUntouched("12.5");
    SplitJoin(["12", "5"], '.');
    assert Join(["12", "5"], '.') == "12.5";
    assert "12"[..1] == "1";
  }

  /** A negative fraction without a leading zero is below zero. */
  lemma NegativeFraction()
    ensures ToNumber("-.5") == Finite(-0.5)
  {
    TrimUntouched("-.5");
    assert "-.5"[1..] == ".5";
    SplitJoin(["", "5"], '.');
    assert Join(["", "5"], '.') == ".5";
  }

  /** Two decimal points are not a number. */
  lemma TwoPoints()
    ensures ToNumber("1.2.3") == NaN
  {
    TrimUntouched("1.2.3");
    SplitJoin(["1", "2", "3"], '.');
    assert Join(["1", "2", "3"], '.') == "1.2.3";
  }

  /** A point with no digit is not a number. */
  lemma PointAlone()
    ensures ToNumber(".") == NaN
  {
    TrimUntouched(".");
    SplitJoin(["", ""], '.');
    assert Join(["", ""], '.') == ".";
  }

  /** A form value: a string as typed, or a number from the initial state or a conversion. */
  datatype Value = Str(s: string) | Num(n: Number)
  {
    /** Truthiness: the empty string, 0 and NaN are falsy. */
    predicate Truthy() { if Str? then s != "" else n.Truthy() }

    /** The number the value stands for in an arithmetic comparison. */
    function ToNumeric(): Number { if Str? then ToNumber(s) else n }
  }

  /** `!v || v <= 0` fails, i.e. the value passes a "greater than 0" check written that way. */
  predicate PassesPositiveCheck(v: Value) { v.Truthy() && !v.ToNumeric().AtMostZero() }

  /** The check passes exactly for positive numbers and for non-empty text that is not a number. */
  lemma PositiveCheckMeaning(v: Value)
    ensures PassesPositiveCheck(v) <==>
              (v.ToNumeric().Finite? && v.ToNumeric().value > 0.0) || (v.Str? && v.ToNumeric().NaN?)
  {
    if v.Str? && v.s == "" {
      assert Blank(v.s);
    }
  }
}

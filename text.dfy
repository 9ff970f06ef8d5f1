/** Text helpers the pages rely on: decimal rendering of integers (template
    literals, `String(n)`), `String.prototype.trim`, `Array.prototype.join`
    and its inverse `String.prototype.split` on a one-character separator. */
module Text {

  predicate IsDigit(c: char) { '0' <= c <= '9' }

  predicate AllDigits(s: string) { forall i :: 0 <= i < |s| ==> IsDigit(s[i]) }

  function DigitChar(d: nat): (c: char)
    requires d < 10
    ensures IsDigit(c)
  {
    ('0' as int + d) as char
  }

  function DigitValue(c: char): (d: nat)
    requires IsDigit(c)
    ensures d < 10
  {
    c as int - '0' as int
  }

  /** The decimal digits of `n`, most significant first, as JavaScript prints a non-negative integer. */
  function Decimal(n: nat): (s: string)
    ensures 1 <= |s| && AllDigits(s)
  {
    if n < 10 then [DigitChar(n)] else Decimal(n / 10) + [DigitChar(n % 10)]
  }

  /** The value of a string of decimal digits (the empty string reads as 0). */
  function DigitsValue(s: string): nat
    requires AllDigits(s)
  {
    if |s| == 0 then 0 else DigitsValue(s[..|s| - 1]) * 10 + DigitValue(s[|s| - 1])
  }

  /** Reading back what Decimal printed gives the number again. */
  lemma {:induction false} DecimalRoundTrip(n: nat)
    ensures DigitsValue(Decimal(n)) == n
  {
    if n >= 10 {
      var s := Decimal(n);
      assert s[..|s| - 1] == Decimal(n / 10);
      DecimalRoundTrip(n / 10);
    }
  }

  /** How JavaScript prints an integer-valued number. */
  function IntToString(i: int): (s: string)
    ensures 1 <= |s| && IsDigit(s[|s| - 1])
    ensures s[0] == '-' <==> i < 0
    ensures i >= 0 ==> AllDigits(s)
    ensures i < 0 ==> AllDigits(s[1..])
  {
    if i < 0 then "-" + Decimal(-i) else Decimal(i)
  }

  /** `s.length` in JavaScript: UTF-16 code units, so a character outside the Basic
      Multilingual Plane (a surrogate pair) counts twice. */
  function Utf16Length(s: string): (n: nat)
    ensures |s| <= n <= 2 * |s|
  {
    if s == [] then 0 else (if s[0] as int >= 0x10000 then 2 else 1) + Utf16Length(s[1..])
  }

  /** Text made of Basic Multilingual Plane characters has one code unit per character. */
  lemma {:induction false} Utf16LengthOfBmp(s: string)
    requires forall i :: 0 <= i < |s| ==> s[i] as int < 0x10000
    ensures Utf16Length(s) == |s|
  {
    if s != [] {
      Utf16LengthOfBmp(s[1..]);
    }
  }

  /** The whitespace `trim` removes; only the ASCII part of JavaScript's set is modelled. */
  predicate IsSpace(c: char) { c == ' ' || c == '\t' || c == '\n' || c == '\r' }

  predicate Blank(s: string) { forall i :: 0 <= i < |s| ==> IsSpace(s[i]) }

  /** `s.trimStart()`: drops leading whitespace. */
  function TrimStart(s: string): (t: string)
    ensures |t| <= |s|
  {
    if |s| > 0 && IsSpace(s[0]) then TrimStart(s[1..]) else s
  }

  /** `s.trimEnd()`: drops trailing whitespace. */
  function TrimEnd(s: string): (t: string)
    ensures |t| <= |s|
  {
    if |s| > 0 && IsSpace(s[|s| - 1]) then TrimEnd(s[..|s| - 1]) else s
  }

  /** `s.trim()`. */
  function Trim(s: string): (t: string)
    ensures |t| <= |s|
  {
    TrimEnd(TrimStart(s))
  }

  /** What trimStart keeps is a suffix, and everything it dropped is whitespace. */
  lemma {:induction false} TrimStartDropsSpaces(s: string)
    ensures var t := TrimStart(s);
            && t == s[|s| - |t|..]
            && (forall i :: 0 <= i < |s| - |t| ==> IsSpace(s[i]))
            && (t != "" ==> !IsSpace(t[0]))
  {
    if |s| > 0 && IsSpace(s[0]) {
      TrimStartDropsSpaces(s[1..]);
      var t := TrimStart(s);
      forall i | 0 < i < |s| - |t| ensures IsSpace(s[i]) {
        assert s[i] == s[1..][i - 1];
      }
    }
  }

  /** What trimEnd keeps is a prefix, and everything it dropped is whitespace. */
  lemma {:induction false} TrimEndDropsSpaces(s: string)
    ensures var t := TrimEnd(s);
            && t == s[..|t|]
            && (forall i :: |t| <= i < |s| ==> IsSpace(s[i]))
            && (t != "" ==> !IsSpace(t[|t| - 1]))
  {
    if |s| > 0 && IsSpace(s[|s| - 1]) {
      TrimEndDropsSpaces(s[..|s| - 1]);
      var t := TrimEnd(s);
      forall i | |t| <= i < |s| - 1 ensures IsSpace(s[i]) {
        assert s[i] == s[..|s| - 1][i];
      }
    }
  }

  /** `s.trim()` is empty exactly when `s` is all whitespace; otherwise it neither starts
      nor ends with whitespace. */
  lemma TrimEmptyIffBlank(s: string)
    ensures Trim(s) == "" <==> Blank(s)
    ensures Trim(s) != "" ==> !IsSpace(Trim(s)[0]) && !IsSpace(Trim(s)[|Trim(s)| - 1])
  {
    var u := TrimStart(s);
    var t := TrimEnd(u);
    TrimStartDropsSpaces(s);
    TrimEndDropsSpaces(u);
    var d := |s| - |u|;
    if t == "" {
      assert u == "";
      assert forall i :: 0 <= i < |s| ==> IsSpace(s[i]);
    } else {
      assert u[0] == t[0];
      assert s[d] == u[0];
      assert !Blank(s);
    }
  }

  /** A string that neither starts nor ends with whitespace is its own trim. */
  lemma TrimUntouched(s: string)
    requires s != "" && !IsSpace(s[0]) && !IsSpace(s[|s| - 1])
    ensures Trim(s) == s
  {
  }

  /** `parts.join(sep)` for a one-character separator. */
  function Join(parts: seq<string>, sep: char): string
  {
    if |parts| == 0 then "" else if |parts| == 1 then parts[0] else parts[0] + [sep] + Join(parts[1..], sep)
  }

  /** `s.split(sep)` for a one-character separator: the pieces between separators, at least one. */
  function Split(s: string, sep: char): (parts: seq<string>)
    ensures |parts| >= 1
  {
    if |s| == 0 then [""]
    else if s[0] == sep then [""] + Split(s[1..], sep)
    else
      var rest := Split(s[1..], sep);
      [[s[0]] + rest[0]] + rest[1..]
  }

  lemma {:induction false} SplitWithoutSeparator(a: string, sep: char)
    requires sep !in a
    ensures Split(a, sep) == [a]
  {
    if |a| > 0 {
      assert sep !in a[1..] by { assert forall i :: 0 <= i < |a| - 1 ==> a[1..][i] == a[i + 1]; }
      SplitWithoutSeparator(a[1..], sep);
      assert [a[0]] + a[1..] == a;
    }
  }

  lemma {:induction false} SplitAtFirstSeparator(a: string, b: string, sep: char)
    requires sep !in a
    ensures Split(a + [sep] + b, sep) == [a] + Split(b, sep)
  {
    var s := a + [sep] + b;
    if |a| == 0 {
      assert s[0] == sep && s[1..] == b;
    } else {
      assert sep !in a[1..] by { assert forall i :: 0 <= i < |a| - 1 ==> a[1..][i] == a[i + 1]; }
      assert s[0] == a[0] && s[0] != sep;
      assert s[1..] == a[1..] + [sep] + b;
      SplitAtFirstSeparator(a[1..], b, sep);
      assert [a[0]] + a[1..] == a;
    }
  }

  /** Splitting a join gives back the parts, provided no part contains the separator. */
  lemma {:induction false} SplitJoin(parts: seq<string>, sep: char)
    requires |parts| >= 1
    requires forall i :: 0 <= i < |parts| ==> sep !in parts[i]
    ensures Split(Join(parts, sep), sep) == parts
  {
    if |parts| == 1 {
      SplitWithoutSeparator(parts[0], sep);
    } else {
      SplitJoin(parts[1..], sep);
      SplitAtFirstSeparator(parts[0], Join(parts[1..], sep), sep);
      assert [parts[0]] + parts[1..] == parts;
    }
  }
}

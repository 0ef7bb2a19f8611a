/**
 * The string operations the agent relies on: Python's `str.strip()`,
 * `str.isdigit` filtering followed by `int(...)`, `str(int)`, `str.lower()`
 * and the `in` substring test.
 */
module Text {

  /** Python's `str.isspace` (and so the set `str.strip()` removes): the
      characters of Unicode bidirectional class WS, B or S, or category Zs. */
  predicate IsSpace(c: char) {
    ('\t' <= c <= '\r') || ('\U{1c}' <= c <= ' ') || c == '\U{85}' || c == '\U{a0}'
    || c == '\U{1680}' || ('\U{2000}' <= c <= '\U{200a}') || c == '\U{2028}'
    || c == '\U{2029}' || c == '\U{202f}' || c == '\U{205f}' || c == '\U{3000}'
  }

  predicate AllSpace(s: string) {
    forall i :: 0 <= i < |s| ==> IsSpace(s[i])
  }

  /** Drops leading whitespace. */
  function TrimStart(s: string): string {
    if s != [] && IsSpace(s[0]) then TrimStart(s[1..]) else s
  }

  /** Drops trailing whitespace. */
  function TrimEnd(s: string): string {
    if s != [] && IsSpace(s[|s| - 1]) then TrimEnd(s[..|s| - 1]) else s
  }

  /** Python's `s.strip()`. */
  function Strip(s: string): string {
    TrimEnd(TrimStart(s))
  }

  /** `TrimStart` keeps a suffix of `s`, drops only whitespace, and stops at
      the first character that is not whitespace. */
  lemma {:induction false} TrimStartShape(s: string)
    ensures |TrimStart(s)| <= |s| && TrimStart(s) == s[|s| - |TrimStart(s)|..]
    ensures AllSpace(s[..|s| - |TrimStart(s)|])
    ensures TrimStart(s) == [] || !IsSpace(TrimStart(s)[0])
  {
    if s != [] && IsSpace(s[0]) {
      TrimStartShape(s[1..]);
      var k := |s| - |TrimStart(s)|;
      assert s[..k] == [s[0]] + s[1..][..k - 1];
    }
  }

  /** `TrimEnd` keeps a prefix of `s`, drops only whitespace, and stops at
      the last character that is not whitespace. */
  lemma {:induction false} TrimEndShape(s: string)
    ensures |TrimEnd(s)| <= |s| && TrimEnd(s) == s[..|TrimEnd(s)|]
    ensures AllSpace(s[|TrimEnd(s)|..])
    ensures TrimEnd(s) == [] || !IsSpace(TrimEnd(s)[|TrimEnd(s)| - 1])
  {
    if s != [] && IsSpace(s[|s| - 1]) {
      var init := s[..|s| - 1];
      TrimEndShape(init);
      var k := |TrimEnd(s)|;
      assert s[k..] == init[k..] + [s[|s| - 1]];
    }
  }

  /** What `strip()` keeps is one slice `s[i..j]`, with only whitespace on
      either side of it and no whitespace at either of its ends. */
  lemma StripIsSlice(s: string) returns (i: nat, j: nat)
    ensures i <= j <= |s| && Strip(s) == s[i..j]
    ensures AllSpace(s[..i]) && AllSpace(s[j..])
    ensures Strip(s) == [] || (!IsSpace(Strip(s)[0]) && !IsSpace(Strip(s)[|Strip(s)| - 1]))
  {
    var t := TrimStart(s);
    TrimStartShape(s);
    TrimEndShape(t);
    var r := TrimEnd(t);
    i, j := |s| - |t|, |s| - |t| + |r|;
    assert s[j..] == t[|r|..];
    if r != [] {
      assert r[0] == t[0];
    }
  }

  /** Stripping twice changes nothing more than stripping once. */
  lemma StripIdempotent(s: string)
    ensures Strip(Strip(s)) == Strip(s)
  {
    var r := Strip(s);
    var _, _ := StripIsSlice(s);
    if r != [] {
      assert TrimStart(r) == r;
      assert TrimEnd(r) == r;
    }
  }

  // ---------------------------------------------------------------- digits

  predicate IsDigit(c: char) {
    '0' <= c <= '9'
  }

  predicate AllDigits(s: string) {
    forall i :: 0 <= i < |s| ==> IsDigit(s[i])
  }

  /** `"".join(filter(str.isdigit, s))`: the digit characters of `s`, in order. */
  function Digits(s: string): (r: string)
    ensures AllDigits(r)
    ensures |r| <= |s|
  {
    if s == [] then []
    else (if IsDigit(s[0]) then [s[0]] else []) + Digits(s[1..])
  }

  /** The filter distributes over concatenation: digits are kept in their order. */
  lemma {:induction false} DigitsAppend(a: string, b: string)
    ensures Digits(a + b) == Digits(a) + Digits(b)
  {
    if a == [] {
      assert a + b == b;
    } else {
      var head := if IsDigit(a[0]) then [a[0]] else [];
      assert (a + b)[0] == a[0] && (a + b)[1..] == a[1..] + b;
      assert Digits(a + b) == head + Digits(a[1..] + b);
      DigitsAppend(a[1..], b);
      assert Digits(a + b) == head + (Digits(a[1..]) + Digits(b));
    }
  }

  /** A string made only of digits passes the filter unchanged. */
  lemma {:induction false} DigitsOfDigitString(s: string)
    requires AllDigits(s)
    ensures Digits(s) == s
  {
    if s != [] {
      DigitsOfDigitString(s[1..]);
    }
  }

  /** A string holding no digit filters to the empty string. */
  lemma {:induction false} DigitsOfDigitless(s: string)
    requires forall i :: 0 <= i < |s| ==> !IsDigit(s[i])
    ensures Digits(s) == []
  {
    if s != [] {
      DigitsOfDigitless(s[1..]);
    }
  }

  /** Filtering a digit string written among non-digit text gives it back. */
  lemma DigitsAmongNonDigits(before: string, ds: string, after: string)
    requires forall i :: 0 <= i < |before| ==> !IsDigit(before[i])
    requires AllDigits(ds)
    requires forall i :: 0 <= i < |after| ==> !IsDigit(after[i])
    ensures Digits(before + ds + after) == ds
  {
    DigitsAppend(before + ds, after);
    DigitsAppend(before, ds);
    DigitsOfDigitless(before);
    DigitsOfDigitless(after);
    DigitsOfDigitString(ds);
  }

  /** Whitespace never holds a digit, so stripping first does not change the digits. */
  lemma DigitsOfStrip(s: string)
    ensures Digits(Strip(s)) == Digits(s)
  {
    var i, j := StripIsSlice(s);
    assert s == s[..i] + s[i..j] + s[j..];
    DigitsAppend(s[..i] + s[i..j], s[j..]);
    DigitsAppend(s[..i], s[i..j]);
    SpaceIsNotDigit(s[..i]);
    SpaceIsNotDigit(s[j..]);
    DigitsOfDigitless(s[..i]);
    DigitsOfDigitless(s[j..]);
  }

  lemma SpaceIsNotDigit(s: string)
    requires AllSpace(s)
    ensures forall i :: 0 <= i < |s| ==> !IsDigit(s[i])
  {
  }

  function DigitValue(c: char): (d: nat)
    requires IsDigit(c)
    ensures d < 10
  {
    c as int - '0' as int
  }

  function DigitChar(d: nat): (c: char)
    requires d < 10
    ensures IsDigit(c) && DigitValue(c) == d
  {
    ('0' as int + d) as char
  }

  /** Python's `int(ds)` for a string of ASCII digits: the decimal value,
      most significant digit first. The empty string gives 0 here, where
      `int("")` raises; `ParseEstimate` handles that case before reading. */
  function DecimalValue(ds: string): nat
    requires AllDigits(ds)
  {
    if ds == [] then 0
    else DecimalValue(ds[..|ds| - 1]) * 10 + DigitValue(ds[|ds| - 1])
  }

  /** Python's `str(n)` for a natural number: decimal digits, no leading zero. */
  function NatToDecimal(n: nat): (s: string)
    ensures s != [] && AllDigits(s)
    ensures |s| > 1 ==> s[0] != '0'
  {
    (if n < 10 then [] else NatToDecimal(n / 10)) + [DigitChar(n % 10)]
  }

  /** Python's `str(i)` for any integer: a minus sign before the magnitude when negative. */
  function IntToDecimal(i: int): (s: string)
    ensures s != []
    ensures i < 0 <==> s[0] == '-'
  {
    if i < 0 then "-" + NatToDecimal(-i) else NatToDecimal(i)
  }

  /** Reading back a rendered number gives the number: `int(str(n)) == n`. */
  lemma {:induction false} DecimalValueOfNatToDecimal(n: nat)
    ensures DecimalValue(NatToDecimal(n)) == n
  {
    var s := NatToDecimal(n);
    assert s[..|s| - 1] == if n < 10 then [] else NatToDecimal(n / 10);
    if n >= 10 {
      DecimalValueOfNatToDecimal(n / 10);
    }
  }

  /** Different natural numbers are written differently. */
  lemma NatToDecimalInjective(m: nat, n: nat)
    ensures NatToDecimal(m) == NatToDecimal(n) ==> m == n
  {
    DecimalValueOfNatToDecimal(m);
    DecimalValueOfNatToDecimal(n);
  }

  /** Different integers are written differently. */
  lemma IntToDecimalInjective(a: int, b: int)
    ensures IntToDecimal(a) == IntToDecimal(b) ==> a == b
  {
    if IntToDecimal(a) == IntToDecimal(b) {
      assert (a < 0) == (b < 0);
      if a < 0 {
        var na, nb := NatToDecimal(-a), NatToDecimal(-b);
        assert na == ("-" + na)[1..] && nb == ("-" + nb)[1..];
        NatToDecimalInjective(-a, -b);
      } else {
        NatToDecimalInjective(a, b);
      }
    }
  }


  /** Rendering inverts reading on digit strings without a leading zero:
      `str(int(ds)) == ds`. */
  lemma {:induction false} NatToDecimalOfDecimalValue(ds: string)
    requires ds != [] && AllDigits(ds)
    requires |ds| > 1 ==> ds[0] != '0'
    ensures NatToDecimal(DecimalValue(ds)) == ds
  {
    var init := ds[..|ds| - 1];
    var n := DecimalValue(ds);
    if init == [] {
      assert |ds| == 1 && DecimalValue(init) == 0;
    } else {
      assert init[0] == ds[0];
      NatToDecimalOfDecimalValue(init);
      DecimalValuePositive(init);
      DivModTen(DecimalValue(init), DigitValue(ds[|ds| - 1]));
    }
  }

  lemma DivModTen(a: nat, d: nat)
    requires d < 10
    ensures (a * 10 + d) / 10 == a && (a * 10 + d) % 10 == d
  {
  }

  /** A digit string that does not start with '0' has a positive value. */
  lemma {:induction false} DecimalValuePositive(ds: string)
    requires ds != [] && AllDigits(ds) && ds[0] != '0'
    ensures DecimalValue(ds) > 0
  {
    if |ds| > 1 {
      DecimalValuePositive(ds[..|ds| - 1]);
    }
  }

  // ------------------------------------------------------ case and substrings

  /** Python's `str.lower()` on one character, for the ASCII letters. */
  function LowerChar(c: char): char {
    if 'A' <= c <= 'Z' then (c as int - 'A' as int + 'a' as int) as char else c
  }

  /** `s.lower()`: each character lowered, length unchanged. */
  function Lower(s: string): (r: string)
    ensures |r| == |s|
    ensures forall i :: 0 <= i < |s| ==> r[i] == LowerChar(s[i])
  {
    seq(|s|, i requires 0 <= i < |s| => LowerChar(s[i]))
  }

  /** Lowering works character by character, so it distributes over concatenation. */
  lemma LowerAppend(a: string, b: string)
    ensures Lower(a + b) == Lower(a) + Lower(b)
  {
    assert forall i :: 0 <= i < |a + b| ==> Lower(a + b)[i] == (Lower(a) + Lower(b))[i];
  }

  /** Lowering an already lowered text changes nothing. */
  lemma LowerIdempotent(s: string)
    ensures Lower(Lower(s)) == Lower(s)
  {
    assert forall i :: 0 <= i < |s| ==> Lower(Lower(s))[i] == Lower(s)[i];
  }

  /** `pattern` occurs in `s` starting at index `i`. */
  predicate OccursAt(s: string, pattern: string, i: nat) {
    i + |pattern| <= |s| && s[i..i + |pattern|] == pattern
  }
}

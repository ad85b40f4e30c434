/**
 * The two decimal conversions the portal relies on, as Go's standard library
 * performs them on a 64-bit platform:
 *  - `strconv.Atoi`, which turns the `plan_id` form value into a plan id
 *    (the portal drops the error and keeps the returned number);
 *  - `fmt.Sprintf("%d", n)` for a non-negative `n`, which turns a random draw
 *    into a fresh session id.
 * `Atoi` is `ParseInt(s, 10, 0)`: an optional sign, then the digit loop of
 * `ParseUint(s, 10, 64)`, then clamping to the signed 64-bit range.
 */
module Numeric {

  const MaxInt64: int := 0x7FFF_FFFF_FFFF_FFFF
  const MinInt64: int := -0x8000_0000_0000_0000
  const MaxUint64: int := 0xFFFF_FFFF_FFFF_FFFF
  /** In ParseUint's base-10 loop, an accumulated value n >= Cutoff overflows when multiplied by 10. */
  const Cutoff: int := MaxUint64 / 10 + 1

  predicate IsDigit(c: char) {
    '0' <= c <= '9'
  }

  function DigitValue(c: char): (d: nat)
    requires IsDigit(c)
    ensures d <= 9
  {
    c as int - '0' as int
  }

  function DigitChar(d: nat): (c: char)
    requires d <= 9
    ensures IsDigit(c) && DigitValue(c) == d
  {
    ('0' as int + d) as char
  }

  predicate AllDigits(s: string) {
    forall i :: 0 <= i < |s| ==> IsDigit(s[i])
  }

  /** The number denoted by a string of decimal digits, most significant first. */
  function Value(s: string): nat
    requires AllDigits(s)
    decreases |s|
  {
    if s == [] then 0 else Value(s[..|s| - 1]) * 10 + DigitValue(s[|s| - 1])
  }

  function Pow10(k: nat): (p: nat)
    ensures p >= 1
  {
    if k == 0 then 1 else 10 * Pow10(k - 1)
  }

  /** The text Atoi accepts without error: an optional sign followed by at least one digit. */
  predicate WellFormed(s: string) {
    if |s| > 0 && (s[0] == '+' || s[0] == '-') then |s| > 1 && AllDigits(s[1..])
    else |s| > 0 && AllDigits(s)
  }

  /** The mathematical value of well-formed text, before any range check. */
  function SignedValue(s: string): int
    requires WellFormed(s)
  {
    if s[0] == '-' then 0 - Value(s[1..])
    else if s[0] == '+' then Value(s[1..])
    else Value(s)
  }

  /** The closest signed 64-bit integer. */
  function Clamp64(v: int): int {
    if v > MaxInt64 then MaxInt64 else if v < MinInt64 then MinInt64 else v
  }

  datatype UintScan = Parsed(n: nat) | SyntaxError | RangeError

  /**
   * The digit loop of ParseUint(s, 10, 64), resumed at position i with n
   * accumulated so far. Overflow is reported as soon as it happens, before
   * any later character is looked at.
   */
  function ScanUint(s: string, i: nat, n: nat): UintScan
    requires i <= |s|
    decreases |s| - i
  {
    if i == |s| then Parsed(n)
    else if !IsDigit(s[i]) then SyntaxError
    else if n >= Cutoff then RangeError
    else if n * 10 + DigitValue(s[i]) > MaxUint64 then RangeError
    else ScanUint(s, i + 1, n * 10 + DigitValue(s[i]))
  }

  function ParseUint(s: string): UintScan {
    if s == [] then SyntaxError else ScanUint(s, 0, 0)
  }

  /**
   * strconv.Atoi: a syntax error gives 0; a range error gives the bound on
   * the side of the sign (ParseUint hands back its maximum, which ParseInt
   * then clamps).
   */
  function Atoi(s: string): (r: int)
    ensures MinInt64 <= r <= MaxInt64
  {
    if s == [] then 0
    else
      var neg := s[0] == '-';
      var body := if s[0] == '+' || s[0] == '-' then s[1..] else s;
      var scan := ParseUint(body);
      if scan.SyntaxError? then 0
      else
        var un := if scan.RangeError? then MaxUint64 else scan.n;
        if !neg && un > MaxInt64 then MaxInt64
        else if neg && un > -MinInt64 then MinInt64
        else if neg then -un
        else un
  }

  /** fmt.Sprintf("%d", n) for n >= 0: the shortest decimal rendering of n. */
  function FormatDecimal(n: nat): (s: string)
    ensures |s| > 0 && AllDigits(s)
    ensures Value(s) == n
    ensures s[0] == '0' ==> s == "0"
  {
    if n < 10 then [DigitChar(n)]
    else
      var t := FormatDecimal(n / 10);
      var s := t + [DigitChar(n % 10)];
      assert s[..|s| - 1] == t;
      s
  }

  lemma {:induction false} ValuePrefixBound(s: string, k: nat)
    requires AllDigits(s) && k <= |s|
    ensures AllDigits(s[..k]) && Value(s[..k]) <= Value(s)
  {
    if k < |s| {
      var t := s[..|s| - 1];
      assert t[..k] == s[..k];
      ValuePrefixBound(t, k);
    } else {
      assert s[..k] == s;
    }
  }

  lemma {:induction false} Pow10Monotone(i: nat, j: nat)
    requires i <= j
    ensures Pow10(i) <= Pow10(j)
  {
    if i < j {
      Pow10Monotone(i, j - 1);
    }
  }

  /** On digits alone, the scan computes Value, or reports overflow exactly when Value exceeds 64 bits. */
  lemma {:induction false} ScanOfDigits(s: string, i: nat)
    requires AllDigits(s) && i <= |s|
    requires AllDigits(s[..i]) && Value(s[..i]) <= MaxUint64
    ensures ScanUint(s, i, Value(s[..i])) == if Value(s) <= MaxUint64 then Parsed(Value(s)) else RangeError
    decreases |s| - i
  {
    var n := Value(s[..i]);
    if i == |s| {
      assert s[..i] == s;
    } else {
      var next := s[..i + 1];
      assert next[..i] == s[..i];
      assert Value(next) == n * 10 + DigitValue(s[i]);
      ValuePrefixBound(s, i + 1);
      if n >= Cutoff {
        assert Value(s) > MaxUint64;
      } else if n * 10 + DigitValue(s[i]) > MaxUint64 {
        assert Value(s) > MaxUint64;
      } else {
        ScanOfDigits(s, i + 1);
      }
    }
  }

  /** A scan that parses has seen digits only. */
  lemma {:induction false} ScanParsedDigits(s: string, i: nat, n: nat)
    requires i <= |s|
    requires ScanUint(s, i, n).Parsed?
    ensures forall j :: i <= j < |s| ==> IsDigit(s[j])
    decreases |s| - i
  {
    if i < |s| {
      ScanParsedDigits(s, i + 1, n * 10 + DigitValue(s[i]));
    }
  }

  lemma Pow10Of19()
    ensures Pow10(19) == 10_000_000_000_000_000_000
  {
    assert Pow10(1) == 10;
    assert Pow10(2) == 100;
    assert Pow10(3) == 1000;
    assert Pow10(4) == 10000;
    assert Pow10(5) == 100000;
    assert Pow10(6) == 1000000;
    assert Pow10(7) == 10000000;
    assert Pow10(8) == 100000000;
    assert Pow10(9) == 1000000000;
    assert Pow10(10) == 10000000000;
    assert Pow10(11) == 100000000000;
    assert Pow10(12) == 1000000000000;
    assert Pow10(13) == 10000000000000;
    assert Pow10(14) == 100000000000000;
    assert Pow10(15) == 1000000000000000;
    assert Pow10(16) == 10000000000000000;
    assert Pow10(17) == 100000000000000000;
    assert Pow10(18) == 1000000000000000000;
    assert Pow10(19) == 10000000000000000000;
  }

  /** Nineteen characters or fewer can never overflow the scan. */
  lemma {:induction false} ScanShortNoOverflow(s: string, i: nat, n: nat)
    requires i <= |s| <= 19
    requires n < Pow10(i)
    ensures !ScanUint(s, i, n).RangeError?
    decreases |s| - i
  {
    if i < |s| && IsDigit(s[i]) {
      Pow10Monotone(i + 1, 19);
      Pow10Of19();
      ScanShortNoOverflow(s, i + 1, n * 10 + DigitValue(s[i]));
    }
  }

  /** Well-formed text parses to its value, clamped to 64 bits. */
  lemma AtoiWellFormed(s: string)
    requires WellFormed(s)
    ensures Atoi(s) == Clamp64(SignedValue(s))
  {
    var body := if s[0] == '+' || s[0] == '-' then s[1..] else s;
    assert body[..0] == [];
    ScanOfDigits(body, 0);
  }

  /** Malformed text never yields a number other than 0 or one of the two bounds. */
  lemma AtoiMalformed(s: string)
    requires !WellFormed(s)
    ensures Atoi(s) == 0 || Atoi(s) == MinInt64 || Atoi(s) == MaxInt64
  {
    if s != [] {
      var body := if s[0] == '+' || s[0] == '-' then s[1..] else s;
      if body != [] && ParseUint(body).Parsed? {
        ScanParsedDigits(body, 0, 0);
        assert WellFormed(s);
      }
    }
  }

  /**
   * Malformed text of at most nineteen characters parses to 0: any eighteen
   * digits stay below the cutoff, so a nineteenth can still be taken, and
   * nineteen digits stay below 2^64; the digit loop therefore never reports
   * a range error before it meets the syntax error.
   */
  lemma AtoiShortMalformed(s: string)
    requires !WellFormed(s) && |s| <= 19
    ensures Atoi(s) == 0
  {
    if s != [] {
      var body := if s[0] == '+' || s[0] == '-' then s[1..] else s;
      if body != [] {
        ScanShortNoOverflow(body, 0, 0);
        if ParseUint(body).Parsed? {
          ScanParsedDigits(body, 0, 0);
          assert WellFormed(s);
        }
      }
    }
  }

  /** A session id rendered from a 63-bit draw parses back to that draw. */
  lemma AtoiFormatRoundTrip(n: nat)
    requires n <= MaxInt64
    ensures Atoi(FormatDecimal(n)) == n
  {
    var s := FormatDecimal(n);
    assert WellFormed(s);
    AtoiWellFormed(s);
  }
}

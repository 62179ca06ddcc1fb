/** Go's `strconv.Atoi` on a 64-bit platform: `ParseInt(s, 10, 0)` with its
    digit loop, its 64-bit range check and the value it returns beside an
    error (0 for bad syntax, the clamped bound for an out-of-range input). */
module Strconv {
  import opened Wrappers
  import opened Errors

  const MaxUint64: int := 18446744073709551615
  const MaxInt64: int := 9223372036854775807
  const MinInt64: int := -9223372036854775808

  /** `maxUint64/10 + 1`: at or above it, one more digit overflows. */
  const Cutoff: int := MaxUint64 / 10 + 1

  predicate IsDigit(c: char)
  {
    '0' <= c <= '9'
  }

  predicate AllDigits(s: string)
  {
    forall i :: 0 <= i < |s| ==> IsDigit(s[i])
  }

  function DigitValue(c: char): int
    requires IsDigit(c)
  {
    c as int - '0' as int
  }

  /** The decimal value of the digits `s`, read left to right after `acc`. */
  function Fold(acc: int, s: string): int
    requires AllDigits(s)
    decreases |s|
  {
    if s == [] then acc else Fold(10 * acc + DigitValue(s[0]), s[1..])
  }

  /** `s` without its leading sign, if it has one. */
  function Unsigned(s: string): string
  {
    if s != [] && (s[0] == '+' || s[0] == '-') then s[1..] else s
  }

  /** An optional sign followed by one or more decimal digits. */
  predicate IsDecimal(s: string)
  {
    Unsigned(s) != [] && AllDigits(Unsigned(s))
  }

  /** The integer an `IsDecimal` string denotes. */
  function DecimalValue(s: string): int
    requires IsDecimal(s)
  {
    var n := Fold(0, Unsigned(s));
    if s[0] == '-' then -n else n
  }

  datatype Scan = Scanned(n: int) | BadSyntax | Overflow

  /** The digit loop of `ParseUint(s, 10, 64)`, with `n` read so far. */
  function ScanUint(s: string, n: int): Scan
  {
    if s == [] then Scanned(n)
    else if !IsDigit(s[0]) then BadSyntax
    else if n >= Cutoff then Overflow
    else
      var n1 := n * 10 + DigitValue(s[0]);
      if n1 > MaxUint64 then Overflow else ScanUint(s[1..], n1)
  }

  /** `strconv.Atoi(s)`: the value and the error it returns. */
  function Atoi(s: string): (r: (int, Option<Error>))
    ensures r.1 == None <==> IsDecimal(s) && MinInt64 <= DecimalValue(s) <= MaxInt64
    ensures r.1 == None ==> r.0 == DecimalValue(s)
    ensures r.1.Some? ==> r.1 == Some(ErrSyntax(s)) || r.1 == Some(ErrRange(s))
    ensures r.1 == Some(ErrSyntax(s)) ==> r.0 == 0 && !IsDecimal(s)
    ensures r.1 == Some(ErrRange(s)) ==> r.0 == MaxInt64 || r.0 == MinInt64
    ensures IsDecimal(s) && !(MinInt64 <= DecimalValue(s) <= MaxInt64) ==>
              r == (if DecimalValue(s) > 0 then MaxInt64 else MinInt64, Some(ErrRange(s)))
  {
    var neg := s != [] && s[0] == '-';
    var scan := if Unsigned(s) == [] then BadSyntax else ScanUint(Unsigned(s), 0);
    assert IsDecimal(s) ==> Fold(0, Unsigned(s)) >= 0 &&
                            scan == if Fold(0, Unsigned(s)) > MaxUint64 then Overflow
                                    else Scanned(Fold(0, Unsigned(s))) by {
      if IsDecimal(s) { ScanDecimal(Unsigned(s), 0); FoldAtLeast(0, Unsigned(s)); }
    }
    assert !AllDigits(Unsigned(s)) ==> !scan.Scanned? by {
      if !AllDigits(Unsigned(s)) && Unsigned(s) != [] { ScanStopsAtNonDigit(Unsigned(s), 0); }
    }
    if scan.BadSyntax? then (0, Some(ErrSyntax(s)))
    else
      var un := if scan.Overflow? then MaxUint64 else scan.n;
      if !neg && un > MaxInt64 then (MaxInt64, Some(ErrRange(s)))
      else if neg && un > -MinInt64 then (MinInt64, Some(ErrRange(s)))
      else (if neg then -un else un, None)
  }

  /** Reading more digits never lowers the value. */
  lemma {:induction false} FoldAtLeast(acc: int, s: string)
    requires acc >= 0 && AllDigits(s)
    ensures Fold(acc, s) >= acc
    ensures s != [] ==> Fold(acc, s) >= 10 * acc + DigitValue(s[0])
    decreases |s|
  {
    if s != [] {
      FoldAtLeast(10 * acc + DigitValue(s[0]), s[1..]);
    }
  }

  /** On digits only, the loop yields the decimal value, or overflow exactly
      when that value does not fit 64 unsigned bits. */
  lemma {:induction false} ScanDecimal(s: string, n: int)
    requires AllDigits(s) && 0 <= n <= MaxUint64
    ensures ScanUint(s, n) == if Fold(n, s) > MaxUint64 then Overflow else Scanned(Fold(n, s))
  {
    if s != [] {
      FoldAtLeast(n, s);
      var n1 := n * 10 + DigitValue(s[0]);
      if n < Cutoff && n1 <= MaxUint64 {
        ScanDecimal(s[1..], n1);
      }
    }
  }

  /** A character that is not a digit stops the loop with an error. */
  lemma {:induction false} ScanStopsAtNonDigit(s: string, n: int)
    requires !AllDigits(s)
    ensures !ScanUint(s, n).Scanned?
  {
    if IsDigit(s[0]) {
      assert !AllDigits(s[1..]) by {
        var i :| 0 <= i < |s| && !IsDigit(s[i]);
        assert s[1..][i - 1] == s[i];
      }
      ScanStopsAtNonDigit(s[1..], n * 10 + DigitValue(s[0]));
    }
  }

  function Pow10(k: nat): (p: int)
    ensures p >= 1
  {
    if k == 0 then 1 else 10 * Pow10(k - 1)
  }

  lemma {:induction false} Pow10Monotone(k: nat, m: nat)
    requires k <= m
    ensures Pow10(k) <= Pow10(m)
    decreases m - k
  {
    if k < m {
      Pow10Monotone(k, m - 1);
    }
  }

  /** With room for `|s|` more digits after `n`, the loop cannot overflow. */
  lemma {:induction false} ScanShortNoOverflow(s: string, n: int)
    requires 0 <= n && n * Pow10(|s|) + Pow10(|s|) - 1 <= MaxUint64
    ensures !ScanUint(s, n).Overflow?
    decreases |s|
  {
    if s != [] && IsDigit(s[0]) {
      var p := Pow10(|s| - 1);
      assert Pow10(|s|) == 10 * p;
      assert (n * 10 + 10) * (p - 1) >= 0;
      assert n * 10 + 9 <= MaxUint64;
      var n1 := n * 10 + DigitValue(s[0]);
      assert n1 * p <= (n * 10 + 9) * p;
      assert n1 * p + p - 1 <= n * Pow10(|s|) + Pow10(|s|) - 1;
      ScanShortNoOverflow(s[1..], n1);
    }
  }

  /** A string of at most 19 characters that is not a decimal integer is a
      syntax error: 19 digits cannot overflow before the bad character. */
  lemma ShortNonDecimalIsSyntax(s: string)
    requires !IsDecimal(s) && |s| <= 19
    ensures Atoi(s) == (0, Some(ErrSyntax(s)))
  {
    var u := Unsigned(s);
    if u != [] {
      assert Pow10(1) == 10;
      assert Pow10(2) == 100;
      assert Pow10(3) == 1000;
      assert Pow10(4) == 10000;
      assert Pow10(5) == 100000;
      assert Pow10(6) == 1000000;
      assert Pow10(7) == 10000000;
      assert Pow10(8) == 100000000;
      assert Pow10(9) == 1000000000;
      assert Pow10(10) == 10000000000;
      assert Pow10(11) == 100000000000;
      assert Pow10(12) == 1000000000000;
      assert Pow10(13) == 10000000000000;
      assert Pow10(14) == 100000000000000;
      assert Pow10(15) == 1000000000000000;
      assert Pow10(16) == 10000000000000000;
      assert Pow10(17) == 100000000000000000;
      assert Pow10(18) == 1000000000000000000;
      assert Pow10(19) == 10000000000000000000;
      Pow10Monotone(|u|, 19);
      ScanShortNoOverflow(u, 0);
      ScanStopsAtNonDigit(u, 0);
    }
  }

  /** `strconv.Itoa(n)`: the decimal form Go prints. */
  function Itoa(n: int): string
  {
    if n < 0 then "-" + Digits(-n) else Digits(n)
  }

  function Digits(n: nat): string
  {
    if n < 10 then [DigitChar(n)] else Digits(n / 10) + [DigitChar(n % 10)]
  }

  function DigitChar(d: nat): (c: char)
    requires d < 10
    ensures IsDigit(c) && DigitValue(c) == d
  {
    ('0' as int + d) as char
  }

  lemma {:induction false} FoldSnoc(acc: int, s: string, c: char)
    requires AllDigits(s) && IsDigit(c)
    ensures AllDigits(s + [c])
    ensures Fold(acc, s + [c]) == 10 * Fold(acc, s) + DigitValue(c)
    decreases |s|
  {
    if s != [] {
      assert (s + [c])[1..] == s[1..] + [c];
      FoldSnoc(10 * acc + DigitValue(s[0]), s[1..], c);
    }
  }

  lemma {:induction false} DigitsValue(n: nat)
    ensures Digits(n) != [] && AllDigits(Digits(n))
    ensures Fold(0, Digits(n)) == n
  {
    if n >= 10 {
      DigitsValue(n / 10);
      FoldSnoc(0, Digits(n / 10), DigitChar(n % 10));
    }
  }

  /** Every 64-bit integer, printed in decimal, parses back to itself. */
  lemma AtoiItoa(n: int)
    requires MinInt64 <= n <= MaxInt64
    ensures Atoi(Itoa(n)) == (n, None)
  {
    if n < 0 {
      DigitsValue(-n);
      assert Unsigned(Itoa(n)) == Digits(-n);
    } else {
      DigitsValue(n);
      assert Unsigned(Itoa(n)) == Digits(n);
    }
  }
}

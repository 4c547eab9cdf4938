/**
 * The three conversions of Go's strconv package that main.go relies on:
 * ParseInt(s, 0, 64) for thread, post, user and time ids, Atoi for the
 * page count, and Itoa for page numbers in links. Every caller in main.go
 * drops the error result, so only the integer each call returns is modelled:
 * a syntax error reads as 0 and a range error as the nearest int64 bound.
 * Go works on the bytes of the string; here a string is a sequence of
 * characters, which agrees on ASCII input.
 */
module Strconv {
  const MaxInt64: int := 0x7fff_ffff_ffff_ffff
  const MinInt64: int := -0x8000_0000_0000_0000
  const MaxUint64: int := 0xffff_ffff_ffff_ffff

  predicate IsInt64(n: int) {
    MinInt64 <= n <= MaxInt64
  }

  /** Folds an ASCII upper-case letter to lower case (Go's `lower`). */
  function Lower(c: char): char {
    if 'A' <= c <= 'Z' then (c as int + 32) as char else c
  }

  /** Value of a digit in bases up to 36; 36 (never a valid digit) for anything else. */
  function DigitVal(c: char): (d: nat)
    ensures d <= 36
    ensures d < 10 <==> '0' <= c <= '9'
  {
    if '0' <= c <= '9' then c as int - '0' as int
    else if 'a' <= Lower(c) <= 'z' then Lower(c) as int - 'a' as int + 10
    else 36
  }

  /** What the digit loop of ParseUint ends with. */
  datatype Scan = Digits(n: nat, underscores: bool) | BadDigit | Overflow

  /**
   * The digit loop of ParseUint, left to right: `_` is skipped (and noted)
   * when the base was inferred, a character that is not a digit of the base
   * is a syntax error, and a value beyond the uint64 range stops the loop
   * at once with a range error.
   */
  function ScanDigits(s: string, base: nat, base0: bool, n: nat, us: bool): (r: Scan)
    requires 2 <= base <= 36
    requires n <= MaxUint64
    decreases |s|
  {
    if s == [] then Digits(n, us)
    else if s[0] == '_' && base0 then ScanDigits(s[1..], base, base0, n, true)
    else if DigitVal(s[0]) >= base then BadDigit
    else
      var next := Shift(n, base, DigitVal(s[0]));
      if next > MaxUint64 then Overflow
      else ScanDigits(s[1..], base, base0, next, us)
  }

  /** The digit loop never accepts a value beyond the uint64 range. */
  lemma {:induction false} ScanDigitsBound(s: string, base: nat, base0: bool, n: nat, us: bool)
    requires 2 <= base <= 36
    requires n <= MaxUint64
    ensures ScanDigits(s, base, base0, n, us).Digits? ==> n <= ScanDigits(s, base, base0, n, us).n <= MaxUint64
    decreases |s|
  {
    if s == [] {
    } else if s[0] == '_' && base0 {
      ScanDigitsBound(s[1..], base, base0, n, true);
    } else if DigitVal(s[0]) < base {
      var next := Shift(n, base, DigitVal(s[0]));
      ShiftGrows(n, base, DigitVal(s[0]));
      if next <= MaxUint64 {
        ScanDigitsBound(s[1..], base, base0, next, us);
      }
    }
  }

  lemma ShiftGrows(n: nat, base: nat, d: nat)
    requires base >= 1
    ensures Shift(n, base, d) >= n
  {
    assert n * base >= n * 1;
  }

  /** The value after one more digit d in the given base. */
  function Shift(n: nat, base: nat, d: nat): nat {
    n * base + d
  }

  /**
   * Base inference of ParseUint for base 0: `0b`, `0o`, `0x` (either case,
   * only when a digit may follow) select 2, 8 and 16, any other leading `0`
   * selects 8 and is dropped, and everything else is decimal.
   */
  function BasePrefix(s: string): (r: (nat, string))
    requires s != []
    ensures 2 <= r.0 <= 36
    ensures |r.1| <= |s|
    ensures r.1 == s[|s| - |r.1|..]
    ensures r.0 == 10 <==> s[0] != '0'
    ensures s[0] != '0' ==> r.1 == s
  {
    if s[0] == '0' then
      if |s| >= 3 && Lower(s[1]) == 'b' then (2, s[2..])
      else if |s| >= 3 && Lower(s[1]) == 'o' then (8, s[2..])
      else if |s| >= 3 && Lower(s[1]) == 'x' then (16, s[2..])
      else (8, s[1..])
    else (10, s)
  }

  /**
   * Go's underscoreOK: an underscore may only stand between two digits, or
   * between a base prefix and a digit. `saw` is the class of the previous
   * character: '^' start, '0' digit or prefix, '_' underscore, '!' other.
   */
  function SeparatorsOK(s: string, saw: char, hex: bool): bool
    decreases |s|
  {
    if s == [] then saw != '_'
    else if '0' <= s[0] <= '9' || (hex && 'a' <= Lower(s[0]) <= 'f') then SeparatorsOK(s[1..], '0', hex)
    else if s[0] == '_' then saw == '0' && SeparatorsOK(s[1..], '_', hex)
    else saw != '_' && SeparatorsOK(s[1..], '!', hex)
  }

  function UnderscoreOK(s: string): bool {
    var t := if |s| >= 1 && (s[0] == '-' || s[0] == '+') then s[1..] else s;
    if |t| >= 2 && t[0] == '0' && (Lower(t[1]) == 'b' || Lower(t[1]) == 'o' || Lower(t[1]) == 'x') then
      SeparatorsOK(t[2..], '0', Lower(t[1]) == 'x')
    else
      SeparatorsOK(t, '^', false)
  }

  datatype UintResult = UintOk(n: nat) | SyntaxError | RangeError

  /** strconv.ParseUint(s, base, 64) for base 0 (inferred) or an explicit base. */
  function ParseUint(s: string, base: nat): (r: UintResult)
    requires base == 0 || 2 <= base <= 36
    ensures s == [] ==> r == SyntaxError
    ensures r.UintOk? ==> r.n <= MaxUint64
  {
    if s == [] then SyntaxError
    else
      var p := if base == 0 then BasePrefix(s) else (base, s);
      ScanDigitsBound(p.1, p.0, base == 0, 0, false);
      match ScanDigits(p.1, p.0, base == 0, 0, false)
      case BadDigit => SyntaxError
      case Overflow => RangeError
      case Digits(n, us) => if us && !UnderscoreOK(s) then SyntaxError else UintOk(n)
  }

  /** The value strconv.ParseInt(s, base, 64) returns, its error dropped (see SignedValue). */
  function ParseInt(s: string, base: nat): (r: int)
    requires base == 0 || 2 <= base <= 36
    ensures IsInt64(r)
    ensures s == [] ==> r == 0
    decreases |s|, 1
  {
    SignedValue(s, base)
  }

  /**
   * The work of ParseInt: an optional sign, then ParseUint; 0 on a syntax
   * error, and the int64 bound on the side of the sign when the magnitude
   * is out of range. A leading '+' before a character from '0' up (so not
   * a second sign) is dropped without effect; ParseIntPlus shows the same
   * for any unsigned rest.
   */
  function SignedValue(s: string, base: nat): (r: int)
    requires base == 0 || 2 <= base <= 36
    ensures IsInt64(r)
    ensures s == [] ==> r == 0
    decreases |s|, 0
  {
    if s == [] then 0
    else if s[0] == '+' && |s| >= 2 && '0' <= s[1] then ParseInt(s[1..], base)
    else
      var neg := s[0] == '-';
      var u := if s[0] == '+' || s[0] == '-' then s[1..] else s;
      match ParseUint(u, base)
      case SyntaxError => 0
      case RangeError => if neg then MinInt64 else MaxInt64
      case UintOk(un) =>
        if !neg && un > MaxInt64 then MaxInt64
        else if neg && un > -MinInt64 then MinInt64
        else if neg then -(un as int)
        else un
  }

  /** A leading '+' changes nothing when the rest has no sign of its own. */
  lemma ParseIntPlus(t: string, base: nat)
    requires base == 0 || 2 <= base <= 36
    requires t == [] || (t[0] != '+' && t[0] != '-')
    ensures ParseInt("+" + t, base) == ParseInt(t, base)
  {
    var s := "+" + t;
    assert s[1..] == t;
    if t == [] {
      assert ParseUint([], base) == SyntaxError;
    }
  }

  /** A string that starts with neither a sign nor a decimal digit is a syntax error, which the callers read as 0. */
  lemma ParseIntNotANumber(s: string, base: nat)
    requires base == 0 || base == 10
    requires s != [] && DigitVal(s[0]) >= 10 && s[0] !in "+-_"
    ensures ParseInt(s, base) == 0
  {
    assert ParseInt(s, base) == SignedValue(s, base);
    var p := if base == 0 then BasePrefix(s) else (base, s);
    assert p == (10, s);
    assert ScanDigits(s, 10, base == 0, 0, false) == BadDigit;
  }

  /** What follows an optional leading sign. */
  function Unsigned(s: string): (u: string)
    ensures |u| <= |s|
  {
    if s != [] && s[0] in "+-" then s[1..] else s
  }

  /**
   * Any syntax error reads as 0: whenever ParseUint rejects what follows an
   * optional sign, the value the callers keep is 0.
   */
  lemma ParseIntSyntaxError(s: string, base: nat)
    requires base == 0 || 2 <= base <= 36
    requires ParseUint(Unsigned(s), base) == SyntaxError
    ensures ParseInt(s, base) == 0
  {
    assert ParseInt(s, base) == SignedValue(s, base);
    if s == [] {
    } else if s[0] == '+' && |s| >= 2 && '0' <= s[1] {
      var u := s[1..];
      assert Unsigned(s) == u && Unsigned(u) == u;
      assert ParseInt(u, base) == SignedValue(u, base);
    } else {
      var u := if s[0] == '+' || s[0] == '-' then s[1..] else s;
      assert Unsigned(s) == u;
      assert SignedValue(s, base) == 0;
    }
  }


  /** ParseUint rejects a trailing letter in base 0. */
  lemma ParseUintTrailingLetter()
    ensures ParseUint("12x", 0) == SyntaxError
  {
    assert BasePrefix("12x") == (10, "12x");
    assert ScanDigits("x", 10, true, 12, false) == BadDigit;
    assert ScanDigits("2x", 10, true, 1, false) == BadDigit;
  }

  /** ParseUint rejects a doubled underscore in base 0. */
  lemma ParseUintDoubledUnderscore()
    ensures ParseUint("1__2", 0) == SyntaxError
  {
    assert BasePrefix("1__2") == (10, "1__2");
    assert ScanDigits("2", 10, true, 1, true) == Digits(12, true);
    assert ScanDigits("__2", 10, true, 1, false) == Digits(12, true);
    assert !SeparatorsOK("_2", '_', false);
    assert !UnderscoreOK("1__2");
  }

  /** ParseUint rejects a base prefix without digits in base 0. */
  lemma ParseUintBarePrefix()
    ensures ParseUint("0x", 0) == SyntaxError
  {
    assert BasePrefix("0x") == (8, "x");
    assert ScanDigits("x", 8, true, 0, false) == BadDigit;
  }

  /** strconv.Atoi on a 64-bit platform: a decimal ParseInt, error dropped. */
  function Atoi(s: string): (r: int)
    ensures IsInt64(r)
  {
    ParseInt(s, 10)
  }

  function DigitChar(d: nat): (c: char)
    requires d < 10
    ensures '0' <= c <= '9' && DigitVal(c) == d
    ensures c == '0' <==> d == 0
  {
    ('0' as int + d) as char
  }

  /** Decimal digits of n, most significant first, without leading zeros. */
  function NatDigits(n: nat): (s: string)
    ensures |s| >= 1
    ensures '0' <= s[0] <= '9'
    ensures n >= 1 ==> s[0] != '0'
    ensures n == 0 ==> s == "0"
    decreases n
  {
    if n < 10 then [DigitChar(n)]
    else
      var s := NatDigits(n / 10) + [DigitChar(n % 10)];
      assert s[0] == NatDigits(n / 10)[0];
      s
  }

  /** strconv.Itoa: decimal, with a leading '-' for negative numbers. */
  function Itoa(n: int): (s: string)
    ensures |s| >= 1
    ensures s[0] == '-' <==> n < 0
  {
    if n < 0 then "-" + NatDigits(-n) else NatDigits(n)
  }

  /** Itoa writes only digits and a leading minus sign. */
  lemma {:induction false} NatDigitsAreDigits(n: nat)
    ensures forall i :: 0 <= i < |NatDigits(n)| ==> '0' <= NatDigits(n)[i] <= '9'
    decreases n
  {
    if n >= 10 {
      NatDigitsAreDigits(n / 10);
    }
  }

  lemma ItoaChars(n: int)
    ensures forall i :: 0 <= i < |Itoa(n)| ==> Itoa(n)[i] == '-' || '0' <= Itoa(n)[i] <= '9'
  {
    NatDigitsAreDigits(if n < 0 then -n else n);
  }

  /** Appending one more digit to a scan that succeeded shifts it into the value. */
  lemma {:induction false} ScanAppendDigit(s: string, c: char, base: nat, base0: bool, n: nat, us: bool)
    requires 2 <= base <= 36 && n <= MaxUint64
    requires ScanDigits(s, base, base0, n, us).Digits?
    requires DigitVal(c) < base && c != '_'
    requires Shift(ScanDigits(s, base, base0, n, us).n, base, DigitVal(c)) <= MaxUint64
    ensures ScanDigits(s + [c], base, base0, n, us)
         == Digits(Shift(ScanDigits(s, base, base0, n, us).n, base, DigitVal(c)), ScanDigits(s, base, base0, n, us).underscores)
    decreases |s|
  {
    if s == [] {
      assert [c][1..] == [];
    } else {
      assert (s + [c])[0] == s[0];
      assert (s + [c])[1..] == s[1..] + [c];
      if s[0] == '_' && base0 {
        ScanAppendDigit(s[1..], c, base, base0, n, true);
      } else {
        ScanAppendDigit(s[1..], c, base, base0, Shift(n, base, DigitVal(s[0])), us);
      }
    }
  }

  /** The digit loop reads back exactly the number NatDigits wrote. */
  lemma {:induction false} ScanNatDigits(n: nat, base0: bool)
    requires n <= MaxUint64
    ensures ScanDigits(NatDigits(n), 10, base0, 0, false) == Digits(n, false)
    decreases n
  {
    if n < 10 {
      assert NatDigits(n)[1..] == [];
    } else {
      ScanNatDigits(n / 10, base0);
      ScanAppendDigit(NatDigits(n / 10), DigitChar(n % 10), 10, base0, 0, false);
      assert Shift(n / 10, 10, n % 10) == n;
    }
  }

  /** ParseUint reads back the magnitude NatDigits printed, in base 0 or 10. */
  lemma ParseUintNatDigits(m: nat, base: nat)
    requires m <= MaxUint64
    requires base == 0 || base == 10
    ensures ParseUint(NatDigits(m), base) == UintOk(m)
  {
    var digits := NatDigits(m);
    ScanNatDigits(m, base == 0);
    if base == 0 && m == 0 {
      assert BasePrefix(digits) == (8, []);
      assert ScanDigits([], 8, true, 0, false) == Digits(0, false);
    } else if base == 0 {
      assert BasePrefix(digits) == (10, digits);
    }
  }

  /** ParseInt reads back a non-negative int64 printed in decimal. */
  lemma ParseIntNatDigits(m: nat, base: nat)
    requires m <= MaxInt64
    requires base == 0 || base == 10
    ensures ParseInt(NatDigits(m), base) == m
  {
    var s := NatDigits(m);
    ParseUintNatDigits(m, base);
    assert ParseInt(s, base) == SignedValue(s, base);
  }

  /** ParseInt reads back a negative int64 printed in decimal after a '-'. */
  lemma ParseIntMinusNatDigits(m: nat, base: nat)
    requires m <= -MinInt64
    requires base == 0 || base == 10
    ensures ParseInt("-" + NatDigits(m), base) == -(m as int)
  {
    var s := "-" + NatDigits(m);
    ParseUintNatDigits(m, base);
    assert s[1..] == NatDigits(m);
    assert ParseInt(s, base) == SignedValue(s, base);
  }

  /** Round trip: ParseInt, in base 0 or base 10, reads back any int64 that Itoa printed. */
  lemma ParseIntItoa(n: int, base: nat)
    requires IsInt64(n)
    requires base == 0 || base == 10
    ensures ParseInt(Itoa(n), base) == n
  {
    if n < 0 {
      ParseIntMinusNatDigits(-n, base);
    } else {
      ParseIntNatDigits(n, base);
    }
  }

  /** Distinct int64 values print differently. */
  lemma ItoaInjective(n: int, m: int)
    requires IsInt64(n) && IsInt64(m)
    requires Itoa(n) == Itoa(m)
    ensures n == m
  {
    ParseIntItoa(n, 10);
    ParseIntItoa(m, 10);
  }
}

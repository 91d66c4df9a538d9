/** strconv.Atoi on a 64-bit platform (ParseInt in base 10, bit size 64),
    and its inverse for printing integers. */
module Strconv {

  const MAX_UINT64: int := 0xFFFF_FFFF_FFFF_FFFF
  const MAX_INT64: int := 0x7FFF_FFFF_FFFF_FFFF
  const MIN_INT64: int := -0x8000_0000_0000_0000

  predicate IsDigit(c: char)
  {
    '0' <= c <= '9'
  }

  function DigitValue(c: char): int
    requires IsDigit(c)
  {
    c as int - '0' as int
  }

  function DigitChar(d: int): char
    requires 0 <= d < 10
  {
    ('0' as int + d) as char
  }

  /** State of ParseUint's left-to-right scan: the value so far, or the error
      that stopped it. */
  datatype Scan = Value(n: nat) | SyntaxError | RangeError

  /** The scan after reading all of s: a non-digit stops it with a syntax
      error, a value beyond 2^64-1 stops it with a range error, whichever
      comes first. */
  function ScanDigits(s: string): (r: Scan)
    ensures r.Value? ==> r.n <= MAX_UINT64
    decreases |s|
  {
    if s == [] then Value(0)
    else
      match ScanDigits(s[..|s| - 1])
      case SyntaxError => SyntaxError
      case RangeError => RangeError
      case Value(n) =>
        var c := s[|s| - 1];
        if !IsDigit(c) then SyntaxError
        else if n * 10 + DigitValue(c) > MAX_UINT64 then RangeError
        else Value(n * 10 + DigitValue(c))
  }

  /** strconv.ParseUint(s, 10, 64): the empty string is a syntax error. */
  function ParseUint(s: string): Scan
  {
    if s == [] then SyntaxError else ScanDigits(s)
  }

  /** The text ParseInt hands to ParseUint: s without its sign. */
  function Unsigned(s: string): string
  {
    if s != [] && (s[0] == '+' || s[0] == '-') then s[1..] else s
  }

  predicate Negative(s: string)
  {
    s != [] && s[0] == '-'
  }

  predicate AllDigits(d: string)
  {
    forall i :: 0 <= i < |d| ==> IsDigit(d[i])
  }

  /** An optional sign followed by one or more decimal digits. */
  predicate WellFormed(s: string)
  {
    Unsigned(s) != [] && AllDigits(Unsigned(s))
  }

  /** The number a digit string denotes, however large. */
  function DigitsValue(d: string): nat
    requires AllDigits(d)
    decreases |d|
  {
    if d == [] then 0 else DigitsValue(d[..|d| - 1]) * 10 + DigitValue(d[|d| - 1])
  }

  /** The number a well-formed text denotes, however large. */
  function Written(s: string): int
    requires WellFormed(s)
  {
    var v: int := DigitsValue(Unsigned(s));
    if Negative(s) then -v else v
  }

  /** The nearest 64-bit integer. */
  function ClampInt64(n: int): int
  {
    if n > MAX_INT64 then MAX_INT64 else if n < MIN_INT64 then MIN_INT64 else n
  }

  function Pow10(n: nat): nat
  {
    if n == 0 then 1 else 10 * Pow10(n - 1)
  }

  /** ParseInt stops with a syntax error before the value can overflow:
      nothing follows the sign, or the digits before the first non-digit
      after it denote at most 2^64-1. */
  predicate SyntaxErrorFirst(s: string)
  {
    var u := Unsigned(s);
    u == [] || exists i :: && 0 <= i < |u| && !IsDigit(u[i])
                           && AllDigits(u[..i]) && DigitsValue(u[..i]) <= MAX_UINT64
  }

  /** strconv.Atoi(s) with its error dropped, as the dispatcher reads the
      retry budget: 0 on a syntax error, the nearest 64-bit bound on a range
      error. */
  function Atoi(s: string): (n: int)
    ensures MIN_INT64 <= n <= MAX_INT64
    ensures s == [] ==> n == 0
  {
    if s == [] then 0
    else
      match ParseUint(Unsigned(s))
      case SyntaxError => 0
      case RangeError => if Negative(s) then MIN_INT64 else MAX_INT64
      case Value(n) =>
        var u: int := n;
        if !Negative(s) && u > MAX_INT64 then MAX_INT64
        else if Negative(s) && u > -MIN_INT64 then MIN_INT64
        else if Negative(s) then -u else u
  }

  /** Decimal digits of n, most significant first, without leading zeros. */
  function Decimal(n: nat): (r: string)
    ensures r != [] && forall i :: 0 <= i < |r| ==> IsDigit(r[i])
    decreases n
  {
    if n < 10 then [DigitChar(n)] else Decimal(n / 10) + [DigitChar(n % 10)]
  }

  /** strconv.Itoa, also what fmt.Sprint prints for an int. */
  function Itoa(n: int): string
  {
    if n < 0 then "-" + Decimal(-n) else Decimal(n)
  }

  lemma {:induction false} ScanDecimal(n: nat)
    requires n <= MAX_UINT64
    ensures ScanDigits(Decimal(n)) == Value(n)
    decreases n
  {
    var s := Decimal(n);
    if n < 10 {
      assert s[..|s| - 1] == [];
    } else {
      assert s[..|s| - 1] == Decimal(n / 10);
      ScanDecimal(n / 10);
    }
  }

  /** Reading back a printed 64-bit integer gives the integer. */
  lemma AtoiItoa(n: int)
    requires MIN_INT64 <= n <= MAX_INT64
    ensures Atoi(Itoa(n)) == n
  {
    var s := Itoa(n);
    if n < 0 {
      assert s[1..] == Decimal(-n);
      assert Negative(s) && Unsigned(s) == Decimal(-n);
      ScanDecimal(-n);
      assert ParseUint(Unsigned(s)) == Value(-n);
    } else {
      assert IsDigit(s[0]);
      assert !Negative(s) && Unsigned(s) == Decimal(n);
      ScanDecimal(n);
      assert ParseUint(Unsigned(s)) == Value(n);
    }
  }

  /** A digit string scans to its value, or to a range error exactly when
      that value exceeds 2^64-1. */
  lemma {:induction false} ScanAllDigits(d: string)
    requires AllDigits(d)
    ensures ScanDigits(d) == if DigitsValue(d) <= MAX_UINT64 then Value(DigitsValue(d)) else RangeError
    decreases |d|
  {
    if d != [] {
      var p := d[..|d| - 1];
      assert AllDigits(p);
      ScanAllDigits(p);
    }
  }

  lemma {:induction false} DigitsBound(d: string)
    requires AllDigits(d)
    ensures DigitsValue(d) < Pow10(|d|)
    decreases |d|
  {
    if d != [] {
      var p := d[..|d| - 1];
      assert AllDigits(p);
      DigitsBound(p);
    }
  }

  lemma {:induction false} Pow10Monotone(m: nat, n: nat)
    requires m <= n
    ensures Pow10(m) <= Pow10(n)
    decreases n
  {
    if m < n {
      Pow10Monotone(m, n - 1);
    }
  }

  lemma Pow10Nineteen()
    ensures Pow10(19) == 10_000_000_000_000_000_000
  {
    assert Pow10(10) == 10_000_000_000;
  }

  /** Once the scan has stopped with an error, the rest of the text is not
      read. */
  lemma {:induction false} ScanErrorPersists(s: string, j: nat)
    requires j <= |s| && !ScanDigits(s[..j]).Value?
    ensures ScanDigits(s) == ScanDigits(s[..j])
    decreases |s|
  {
    if j < |s| {
      var p := s[..|s| - 1];
      assert p[..j] == s[..j];
      ScanErrorPersists(p, j);
    } else {
      assert s[..j] == s;
    }
  }

  /** The first non-digit of a text that has one. */
  lemma {:induction false} FirstNonDigit(d: string) returns (i: nat)
    requires !AllDigits(d)
    ensures i < |d| && !IsDigit(d[i]) && AllDigits(d[..i])
    decreases |d|
  {
    var p := d[..|d| - 1];
    if !AllDigits(p) {
      i := FirstNonDigit(p);
      assert d[..i] == p[..i];
    } else {
      i := |d| - 1;
    }
  }

  /** A well-formed text reads as the 64-bit integer nearest to the number
      it denotes: exactly when it fits, the bound it exceeds otherwise. */
  lemma AtoiWellFormed(s: string)
    requires WellFormed(s)
    ensures Atoi(s) == ClampInt64(Written(s))
  {
    ScanAllDigits(Unsigned(s));
  }

  /** A text whose syntax error comes before any overflow reads as 0, such
      as "3 ", "2x", "1.5", "1e3", "+", "" or twenty-one zeros and a space. */
  lemma AtoiMalformed(s: string)
    requires SyntaxErrorFirst(s)
    ensures Atoi(s) == 0
  {
    var u := Unsigned(s);
    if u != [] {
      var i :| && 0 <= i < |u| && !IsDigit(u[i])
               && AllDigits(u[..i]) && DigitsValue(u[..i]) <= MAX_UINT64;
      ScanAllDigits(u[..i]);
      assert u[..i + 1][..i] == u[..i];
      ScanErrorPersists(u, i + 1);
    }
  }

  lemma {:induction false} ZerosValue(d: string)
    requires forall i :: 0 <= i < |d| ==> d[i] == '0'
    ensures AllDigits(d) && DigitsValue(d) == 0
    decreases |d|
  {
    if d != [] {
      ZerosValue(d[..|d| - 1]);
    }
  }

  /** A long text is 0 too when its digits before the first non-digit do
      not overflow. */
  lemma LongLeadingZerosReadZero()
    ensures Atoi("000000000000000000000 ") == 0
  {
    var s := "000000000000000000000 ";
    ZerosValue(s[..21]);
    assert !IsDigit(s[21]);
    AtoiMalformed(s);
  }

  /** Every malformed text of at most 20 characters has its syntax error
      first: at most 19 digits precede its first non-digit. */
  lemma ShortMalformedSyntaxErrorFirst(s: string)
    requires !WellFormed(s) && |s| <= 20
    ensures SyntaxErrorFirst(s)
  {
    var u := Unsigned(s);
    if u != [] {
      var i := FirstNonDigit(u);
      DigitsBound(u[..i]);
      Pow10Monotone(i, 19);
      Pow10Nineteen();
    }
  }

  /** The three readings cover every text: it is well formed, or its syntax
      error comes first, or a well-formed prefix overflows first. */
  lemma AtoiCases(s: string)
    ensures || WellFormed(s) || SyntaxErrorFirst(s)
            || exists j :: 0 <= j <= |s| && WellFormed(s[..j]) && DigitsValue(Unsigned(s[..j])) > MAX_UINT64
  {
    var u := Unsigned(s);
    if !WellFormed(s) && !SyntaxErrorFirst(s) {
      var i := FirstNonDigit(u);
      var j := if u == s then i else i + 1;
      assert Unsigned(s[..j]) == u[..i];
    }
  }

  /** A well-formed prefix that already exceeds 2^64-1 clamps the reading to
      the bound of its sign, whatever follows it: ParseUint stops at the
      range error and never reaches a later non-digit. */
  lemma AtoiOverflowFirst(s: string, j: nat)
    requires j <= |s| && WellFormed(s[..j]) && DigitsValue(Unsigned(s[..j])) > MAX_UINT64
    ensures Atoi(s) == if Negative(s) then MIN_INT64 else MAX_INT64
  {
    var u := Unsigned(s);
    var k := if s[0] == '+' || s[0] == '-' then j - 1 else j;
    assert u[..k] == Unsigned(s[..j]);
    ScanAllDigits(u[..k]);
    ScanErrorPersists(u, k);
  }
}

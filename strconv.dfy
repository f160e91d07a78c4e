/**
 * Decimal integer parsing as Go's strconv.ParseUint(s, 10, 64) and
 * strconv.ParseInt(s, 10, 64) perform it. The core parses environment
 * values, the enqueue response header and the `delay` query parameter with
 * them, and in one place (the `delay` parameter) uses the value Go returns
 * alongside an error, so both the value and the error kind are modelled.
 * FormatUint / FormatInt are the inverse used to state the round trip.
 */
module Strconv {
  const MaxUint64: nat := 0xFFFF_FFFF_FFFF_FFFF
  const MaxInt64: int := 0x7FFF_FFFF_FFFF_FFFF
  const MinInt64: int := -0x8000_0000_0000_0000
  /** The smallest n with n * 10 > MaxUint64, as ParseUint computes it. */
  const Cutoff: nat := MaxUint64 / 10 + 1

  datatype NumError = NoError | ErrSyntax | ErrRange

  /** Go's pair (value, err). */
  datatype Parsed = Parsed(value: int, err: NumError)

  predicate IsDigit(c: char) { '0' <= c <= '9' }

  predicate AllDigits(s: string) { forall i :: 0 <= i < |s| ==> IsDigit(s[i]) }

  function DigitValue(c: char): (d: nat)
    requires IsDigit(c)
    ensures d < 10
  {
    c as int - '0' as int
  }

  function Digit(d: nat): (c: char)
    requires d < 10
    ensures IsDigit(c) && DigitValue(c) == d
  {
    ('0' as int + d) as char
  }

  /**
   * The digit loop of ParseUint: scans left to right from the accumulated
   * value n; the first non-digit is a syntax error (value 0), the first
   * digit that would pass MaxUint64 is a range error (value MaxUint64).
   */
  function ScanUint(s: string, n: nat): (r: Parsed)
    requires n <= MaxUint64
    ensures 0 <= r.value <= MaxUint64
    ensures r.err == NoError ==> AllDigits(s) && n <= r.value
    ensures r.err == ErrSyntax ==> r.value == 0
    ensures r.err == ErrRange ==> r.value == MaxUint64
    decreases |s|
  {
    if s == [] then Parsed(n, NoError)
    else if !IsDigit(s[0]) then Parsed(0, ErrSyntax)
    else if n >= Cutoff then Parsed(MaxUint64, ErrRange)
    else if n * 10 + DigitValue(s[0]) > MaxUint64 then Parsed(MaxUint64, ErrRange)
    else
      var r := ScanUint(s[1..], n * 10 + DigitValue(s[0]));
      assert s == [s[0]] + s[1..];
      r
  }

  /** strconv.ParseUint(s, 10, 64): no sign is accepted, the empty string is a syntax error. */
  function ParseUint(s: string): (r: Parsed)
    ensures 0 <= r.value <= MaxUint64
    ensures r.err == NoError ==> s != [] && AllDigits(s)
    ensures r.err == ErrSyntax ==> r.value == 0
    ensures r.err == ErrRange ==> r.value == MaxUint64
  {
    if s == [] then Parsed(0, ErrSyntax) else ScanUint(s, 0)
  }

  /**
   * strconv.ParseInt(s, 10, 64): an optional '+' or '-', then ParseUint of the
   * rest; a magnitude outside the int64 range is a range error whose value is
   * the bound on the sign's side. A sign alone is a syntax error.
   */
  function ParseInt(s: string): (r: Parsed)
    ensures MinInt64 <= r.value <= MaxInt64
    ensures r.err == ErrSyntax ==> r.value == 0
    ensures r.err == ErrRange ==> s != [] && r.value == (if s[0] == '-' then MinInt64 else MaxInt64)
    ensures r.err == NoError ==>
      && s != []
      && var digits := if s[0] == '+' || s[0] == '-' then s[1..] else s;
         digits != [] && AllDigits(digits)
  {
    if s == [] then Parsed(0, ErrSyntax)
    else
      var neg := s[0] == '-';
      var digits := if s[0] == '+' || s[0] == '-' then s[1..] else s;
      var u := ParseUint(digits);
      if u.err == ErrSyntax then Parsed(0, ErrSyntax)
      else if !neg && u.value >= -MinInt64 then Parsed(MaxInt64, ErrRange)
      else if neg && u.value > -MinInt64 then Parsed(MinInt64, ErrRange)
      else Parsed(if neg then -u.value else u.value, NoError)
  }

  /** Decimal rendering of a natural number, most significant digit first. */
  function FormatUint(n: nat): (s: string)
    ensures s != [] && AllDigits(s)
    decreases n
  {
    if n < 10 then [Digit(n)]
    else FormatUint(n / 10) + [Digit(n % 10)]
  }

  /** Decimal rendering of an integer, with a leading '-' when negative. */
  function FormatInt(v: int): (s: string)
    ensures s != []
  {
    if v < 0 then "-" + FormatUint(-v) else FormatUint(v)
  }

  /** Scanning a concatenation scans the prefix, then continues from its value. */
  lemma {:induction false} ScanAppend(a: string, b: string, n: nat)
    requires n <= MaxUint64
    ensures ScanUint(a + b, n) ==
      (var r := ScanUint(a, n); if r.err == NoError then ScanUint(b, r.value) else r)
    decreases |a|
  {
    if a == [] {
      assert a + b == b;
    } else {
      assert (a + b)[0] == a[0];
      assert (a + b)[1..] == a[1..] + b;
      if IsDigit(a[0]) && n < Cutoff && n * 10 + DigitValue(a[0]) <= MaxUint64 {
        ScanAppend(a[1..], b, n * 10 + DigitValue(a[0]));
      }
    }
  }

  lemma {:induction false} ScanFormat(n: nat)
    requires n <= MaxUint64
    ensures ScanUint(FormatUint(n), 0) == Parsed(n, NoError)
    decreases n
  {
    if n < 10 {
      assert ScanUint([Digit(n)][1..], n) == Parsed(n, NoError);
    } else {
      ScanFormat(n / 10);
      ScanAppend(FormatUint(n / 10), [Digit(n % 10)], 0);
      assert n / 10 < Cutoff;
      assert [Digit(n % 10)][1..] == [];
    }
  }

  /** The number a string of decimal digits denotes, most significant digit first. */
  ghost function DecimalValue(s: string): (v: nat)
    requires AllDigits(s)
    decreases |s|
  {
    if s == [] then 0 else DecimalValue(s[..|s| - 1]) * 10 + DigitValue(s[|s| - 1])
  }

  /** The digit loop without the overflow check: each digit shifts `n` one place left. */
  ghost function Accumulate(s: string, n: nat): (v: nat)
    requires AllDigits(s)
    ensures n <= v
    decreases |s|
  {
    if s == [] then n else Accumulate(s[1..], n * 10 + DigitValue(s[0]))
  }

  lemma {:induction false} AccumulateAppend(a: string, b: string, n: nat)
    requires AllDigits(a) && AllDigits(b)
    ensures AllDigits(a + b)
    ensures Accumulate(a + b, n) == Accumulate(b, Accumulate(a, n))
    decreases |a|
  {
    assert forall i :: 0 <= i < |a + b| ==> (a + b)[i] == if i < |a| then a[i] else b[i - |a|];
    if a != [] {
      assert (a + b)[1..] == a[1..] + b;
      AccumulateAppend(a[1..], b, n * 10 + DigitValue(a[0]));
    } else {
      assert a + b == b;
    }
  }

  /** Accumulating from 0 gives the decimal value. */
  lemma {:induction false} AccumulateDecimal(s: string)
    requires AllDigits(s)
    ensures Accumulate(s, 0) == DecimalValue(s)
    decreases |s|
  {
    if s != [] {
      var init, last := s[..|s| - 1], [s[|s| - 1]];
      assert s == init + last;
      AccumulateDecimal(init);
      AccumulateAppend(init, last, 0);
    }
  }

  /** On digits the scan succeeds with the accumulated value when it fits, and is a range error otherwise. */
  lemma {:induction false} ScanDigits(s: string, n: nat)
    requires AllDigits(s) && n <= MaxUint64
    ensures ScanUint(s, n) ==
      if Accumulate(s, n) <= MaxUint64 then Parsed(Accumulate(s, n), NoError) else Parsed(MaxUint64, ErrRange)
    decreases |s|
  {
    if s != [] {
      var next := n * 10 + DigitValue(s[0]);
      assert Accumulate(s, n) == Accumulate(s[1..], next);
      if n < Cutoff && next <= MaxUint64 {
        ScanDigits(s[1..], next);
      }
    }
  }

  /**
   * ParseUint on a non-empty digit string: the decimal value when it is at
   * most MaxUint64, a range error carrying MaxUint64 otherwise.
   */
  lemma ParseUintDecimal(s: string)
    requires s != [] && AllDigits(s)
    ensures ParseUint(s) ==
      if DecimalValue(s) <= MaxUint64 then Parsed(DecimalValue(s), NoError) else Parsed(MaxUint64, ErrRange)
  {
    ScanDigits(s, 0);
    AccumulateDecimal(s);
  }

  /**
   * ParseInt on an optional sign followed by a non-empty digit string: the
   * signed decimal value when it lies in the int64 range, otherwise a range
   * error carrying the bound on the side of the sign.
   */
  lemma ParseIntDecimal(s: string)
    requires s != []
    requires var digits := if s[0] == '+' || s[0] == '-' then s[1..] else s;
      digits != [] && AllDigits(digits)
    ensures var digits := if s[0] == '+' || s[0] == '-' then s[1..] else s;
      var v: int := if s[0] == '-' then -(DecimalValue(digits) as int) else DecimalValue(digits);
      ParseInt(s) ==
        if MinInt64 <= v <= MaxInt64 then Parsed(v, NoError)
        else Parsed(if s[0] == '-' then MinInt64 else MaxInt64, ErrRange)
  {
    ParseUintDecimal(if s[0] == '+' || s[0] == '-' then s[1..] else s);
  }

  /** ParseUint reads back every uint64 that FormatUint writes. */
  lemma ParseFormatUint(n: nat)
    requires n <= MaxUint64
    ensures ParseUint(FormatUint(n)) == Parsed(n, NoError)
  {
    ScanFormat(n);
  }

  /** ParseInt reads back every int64 that FormatInt writes. */
  lemma ParseFormatInt(v: int)
    requires MinInt64 <= v <= MaxInt64
    ensures ParseInt(FormatInt(v)) == Parsed(v, NoError)
  {
    var s := FormatInt(v);
    if v < 0 {
      ParseFormatUint(-v);
      assert s[1..] == FormatUint(-v);
    } else {
      ParseFormatUint(v);
      assert IsDigit(s[0]);
    }
  }
}

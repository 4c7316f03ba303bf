/**
 Signed decimal numerals: what strconv.FormatInt and fmt's %d write, and what
 strconv.ParseInt(s, 10, 64) accepts. A Go string is a Dafny string whose
 characters stand for bytes.
 */
module Decimal {
  import opened Wrappers

  const MIN_INT64: int := -0x8000_0000_0000_0000
  const MAX_INT64: int := 0x7FFF_FFFF_FFFF_FFFF

  predicate IsInt64(x: int) {
    MIN_INT64 <= x <= MAX_INT64
  }

  /** Two's complement wrap-around of a 64-bit signed operation. */
  function Wrap64(x: int): (w: int)
    ensures IsInt64(w)
    ensures (w - x) % 0x1_0000_0000_0000_0000 == 0
    ensures IsInt64(x) ==> w == x
  {
    (x + 0x8000_0000_0000_0000) % 0x1_0000_0000_0000_0000 - 0x8000_0000_0000_0000
  }

  predicate IsDigit(c: char) {
    '0' <= c <= '9'
  }

  predicate AllDigits(s: string) {
    forall i :: 0 <= i < |s| ==> IsDigit(s[i])
  }

  function DigitOf(d: nat): (c: char)
    requires d < 10
  {
    (d + 48) as char
  }

  function OfNat(n: nat): (s: string)
    ensures s != [] && AllDigits(s)
  {
    if n < 10 then [DigitOf(n)] else OfNat(n / 10) + [DigitOf(n % 10)]
  }

  function OfInt(i: int): (s: string) {
    if i < 0 then "-" + OfNat(-i) else OfNat(i)
  }

  /** The value of a run of digits, most significant first. */
  function ValueOf(s: string): (n: nat)
    requires AllDigits(s)
  {
    if s == [] then 0
    else ValueOf(s[..|s| - 1]) * 10 + (s[|s| - 1] as int - 48)
  }

  /** strconv.ParseInt(s, 10, 64): an optional sign, then at least one digit, within 64 bits. */
  function ParseInt64(s: string): (r: Option<int>)
    ensures r.Some? ==> IsInt64(r.value)
  {
    var signed := s != [] && (s[0] == '-' || s[0] == '+');
    var digits := if signed then s[1..] else s;
    if digits == [] || !AllDigits(digits) then None
    else
      var magnitude: int := ValueOf(digits);
      var value: int := if signed && s[0] == '-' then -magnitude else magnitude;
      if IsInt64(value) then Some(value) else None
  }

  lemma {:induction false} ValueOfNat(n: nat)
    ensures ValueOf(OfNat(n)) == n
  {
    if n >= 10 {
      ValueOfNat(n / 10);
      var s := OfNat(n);
      assert s[..|s| - 1] == OfNat(n / 10);
    }
  }

  lemma OfNatInjective(a: nat, b: nat)
    requires OfNat(a) == OfNat(b)
    ensures a == b
  {
    ValueOfNat(a);
    ValueOfNat(b);
  }

  /** Writing then reading a 64-bit integer gives it back; nothing outside 64 bits is read back. */
  lemma ParseInt64RoundTrip(i: int)
    ensures ParseInt64(OfInt(i)) == if IsInt64(i) then Some(i) else None
  {
    var magnitude := if i < 0 then -i else i;
    ValueOfNat(magnitude);
    var s := OfInt(i);
    if i < 0 {
      assert s[1..] == OfNat(magnitude);
    } else {
      assert IsDigit(s[0]);
    }
  }

  /** A plus sign and leading zeros are read. */
  lemma ParseInt64IsLenient(n: nat, zeros: nat)
    ensures var digits, value: int := Zeros(zeros) + OfNat(n), n;
            && AllDigits(digits)
            && ParseInt64(digits) == ParseInt64("+" + digits) == (if IsInt64(value) then Some(value) else None)
            && ParseInt64("-" + digits) == if IsInt64(-value) then Some(-value) else None
  {
    ZerosDoNotCount(zeros, OfNat(n));
    ValueOfNat(n);
    SignedIs(Zeros(zeros) + OfNat(n));
    hide ParseInt64;
    hide ValueOf;
    hide OfNat;
  }

  /** A run of digits, with or without a sign. */
  lemma SignedIs(digits: string)
    requires digits != "" && AllDigits(digits)
    ensures var value: int := ValueOf(digits);
            && ParseInt64(digits) == ParseInt64("+" + digits) == (if IsInt64(value) then Some(value) else None)
            && ParseInt64("-" + digits) == if IsInt64(-value) then Some(-value) else None
  {
    assert IsDigit(digits[0]);
    assert ("+" + digits)[1..] == digits && ("-" + digits)[1..] == digits;
    hide ValueOf;
  }

  /** An empty text, a lone sign, and any character but a digit after the sign are refused. */
  lemma MalformedIsRefused(s: string, at: nat)
    ensures ParseInt64("").None? && ParseInt64("+").None? && ParseInt64("-").None?
    ensures at < |s| && !IsDigit(s[at]) && (at == 0 ==> s[0] !in {'+', '-'}) ==> ParseInt64(s).None?
  {
    if at < |s| && !IsDigit(s[at]) && (at == 0 ==> s[0] !in {'+', '-'}) {
      assert at > 0 ==> s[1..][at - 1] == s[at];
    }
    hide ValueOf;
  }

  function Zeros(n: nat): (s: string)
    ensures |s| == n && AllDigits(s)
  {
    seq(n, i => '0')
  }

  lemma {:induction false} ZerosDoNotCount(zeros: nat, s: string)
    requires AllDigits(s)
    ensures AllDigits(Zeros(zeros) + s) && ValueOf(Zeros(zeros) + s) == ValueOf(s)
    decreases |s|, zeros
  {
    var all := Zeros(zeros) + s;
    assert AllDigits(all);
    if s != "" {
      assert all[..|all| - 1] == Zeros(zeros) + s[..|s| - 1];
      ZerosDoNotCount(zeros, s[..|s| - 1]);
    } else if zeros > 0 {
      assert all[..|all| - 1] == Zeros(zeros - 1) + "";
      ZerosDoNotCount(zeros - 1, "");
    } else {
      assert all == "";
    }
  }
}

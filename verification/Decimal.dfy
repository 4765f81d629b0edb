/** Decimal text of integers: what `%d`, `%010d`, `strconv.Itoa` write and what
    a reader (or `strconv.Atoi`) makes of it. */
module Decimal {
  import opened Wrappers

  predicate IsDigit(c: char) { '0' <= c <= '9' }

  predicate AllDigits(s: string) { forall i :: 0 <= i < |s| ==> IsDigit(s[i]) }

  function DigitChar(d: nat): (c: char)
    requires d < 10
    ensures IsDigit(c) && DigitValue(c) == d
  {
    '0' + d as char
  }

  function DigitValue(c: char): (d: nat)
    requires IsDigit(c)
    ensures d < 10 && '0' + d as char == c
  {
    c as int - '0' as int
  }

  /** `%d` of a non-negative integer. */
  function Digits(n: nat): (s: string)
    ensures |s| > 0 && AllDigits(s)
  {
    if n < 10 then [DigitChar(n)] else Digits(n / 10) + [DigitChar(n % 10)]
  }

  /** The number a digit string denotes; the empty string denotes 0. */
  function Value(s: string): nat
    requires AllDigits(s)
  {
    if s == "" then 0 else 10 * Value(s[..|s| - 1]) + DigitValue(s[|s| - 1])
  }

  lemma {:induction false} ValueOfDigits(n: nat)
    ensures Value(Digits(n)) == n
  {
    if n >= 10 {
      ValueOfDigits(n / 10);
      assert Digits(n)[..|Digits(n)| - 1] == Digits(n / 10);
    }
  }

  function Pow10(k: nat): (p: nat)
    ensures p > 0
  {
    if k == 0 then 1 else 10 * Pow10(k - 1)
  }

  lemma {:induction false} DigitsLength(n: nat, k: nat)
    requires k > 0
    ensures |Digits(n)| <= k <==> n < Pow10(k)
  {
    if k == 1 {
      assert Pow10(1) == 10 * Pow10(0) == 10;
    } else {
      assert Pow10(k) == 10 * Pow10(k - 1);
      if n < 10 {
        assert n < 10 * Pow10(k - 1);
      } else {
        DigitsLength(n / 10, k - 1);
      }
    }
  }

  function Zeros(k: nat): (s: string)
    ensures |s| == k && AllDigits(s)
  {
    seq(k, i => '0')
  }

  /** `%0<width>d`: zero padded on the left, never truncated. */
  function Padded(n: nat, width: nat): (s: string)
    ensures AllDigits(s) && |s| >= width
    ensures |s| == if |Digits(n)| <= width then width else |Digits(n)|
  {
    if |Digits(n)| <= width then Zeros(width - |Digits(n)|) + Digits(n) else Digits(n)
  }

  lemma {:induction false} ValueOfZeros(k: nat, s: string)
    requires AllDigits(s)
    ensures Value(Zeros(k) + s) == Value(s)
    decreases k + |s|
  {
    var t := Zeros(k) + s;
    if s == "" {
      if k > 0 {
        ValueOfZeros(k - 1, "");
        assert t[..|t| - 1] == Zeros(k - 1) + "";
        assert DigitValue('0') == 0;
      }
    } else {
      ValueOfZeros(k, s[..|s| - 1]);
      assert t[..|t| - 1] == Zeros(k) + s[..|s| - 1];
    }
  }

  lemma {:induction false} ValueOfPadded(n: nat, width: nat)
    ensures Value(Padded(n, width)) == n
  {
    ValueOfDigits(n);
    if |Digits(n)| <= width { ValueOfZeros(width - |Digits(n)|, Digits(n)); }
  }

  /** How many leading characters of `s` are digits. */
  function DigitSpan(s: string): (k: nat)
    ensures k <= |s| && AllDigits(s[..k]) && (k < |s| ==> !IsDigit(s[k]))
  {
    if s == "" || !IsDigit(s[0]) then 0
    else
      var k := 1 + DigitSpan(s[1..]);
      assert s[..k] == [s[0]] + s[1..][..k - 1];
      k
  }

  /** Reads the longest run of digits at the front, if there is one. */
  function ReadNat(s: string): Option<(nat, string)> {
    var k := DigitSpan(s);
    if k == 0 then None else Some((Value(s[..k]), s[k..]))
  }

  lemma SpanUnique(digits: string, rest: string)
    requires AllDigits(digits) && (rest == "" || !IsDigit(rest[0]))
    ensures DigitSpan(digits + rest) == |digits|
  {
    var s := digits + rest;
    assert forall i :: 0 <= i < |digits| ==> IsDigit(s[i]);
    assert rest != "" ==> s[|digits|] == rest[0];
    assert forall i :: 0 <= i < DigitSpan(s) ==> IsDigit(s[..DigitSpan(s)][i]) && s[..DigitSpan(s)][i] == s[i];
  }

  lemma ReadDigits(n: nat, rest: string)
    requires rest == "" || !IsDigit(rest[0])
    ensures ReadNat(Digits(n) + rest) == Some((n, rest))
  {
    SpanUnique(Digits(n), rest);
    ValueOfDigits(n);
    assert (Digits(n) + rest)[..|Digits(n)|] == Digits(n);
    assert (Digits(n) + rest)[|Digits(n)|..] == rest;
  }

  // ----- signed 64-bit integers: strconv.Itoa and strconv.Atoi -----

  const MIN_INT64: int := -0x8000_0000_0000_0000
  const MAX_INT64: int := 0x7FFF_FFFF_FFFF_FFFF

  function Itoa(n: int): string {
    if n < 0 then "-" + Digits(-n) else Digits(n)
  }

  function Clamp(n: int): int {
    if n < MIN_INT64 then MIN_INT64 else if n > MAX_INT64 then MAX_INT64 else n
  }

  /** Digits with an optional sign, of any size. */
  function ParseSigned(s: string): Option<int> {
    var negative := s != "" && s[0] == '-';
    var digits := if s != "" && (s[0] == '-' || s[0] == '+') then s[1..] else s;
    if digits == "" || !AllDigits(digits) then None
    else Some(if negative then -(Value(digits) as int) else Value(digits))
  }

  /** The value of `strconv.Atoi` when its error is ignored: 0 for a syntax
      error, the nearest representable value for a range error. */
  function Atoi(s: string): int {
    match ParseSigned(s) case Some(n) => Clamp(n) case None => 0
  }

  /** `strconv.Atoi`, with its error. */
  function ParseInt(s: string): Option<int> {
    match ParseSigned(s) case Some(n) => (if n == Clamp(n) then Some(n) else None) case None => None
  }

  /** No digits but the necessary ones are written. */
  lemma {:induction false} DigitsHaveNoIdleZero(n: nat)
    ensures if n < 10 then |Digits(n)| == 1 else |Digits(n)| > 1 && Digits(n)[0] != '0'
  {
    if n >= 10 {
      DigitsHaveNoIdleZero(n / 10);
      assert Digits(n)[0] == Digits(n / 10)[0];
      if n / 10 < 10 { assert DigitValue(DigitChar(n / 10)) == n / 10 > 0; }
    }
  }

  lemma ParseSignedOfItoa(n: int)
    ensures ParseSigned(Itoa(n)) == Some(n)
  {
    if n < 0 {
      ValueOfDigits(-n);
      assert Itoa(n)[1..] == Digits(-n);
    } else {
      ValueOfDigits(n);
      assert IsDigit(Digits(n)[0]);
    }
  }

  /** `strconv.Atoi` undoes `strconv.Itoa` on every 64-bit integer, and reports an
      error on the text of every other. */
  lemma ParseIntOfItoa(n: int)
    ensures ParseInt(Itoa(n)) == if MIN_INT64 <= n <= MAX_INT64 then Some(n) else None
  {
    hide ParseSigned, Itoa;
    ParseSignedOfItoa(n);
  }

  /** And it accepts only what begins with a digit or a sign, and goes on in digits. */
  lemma ParseIntNeedsDigits(s: string, i: nat)
    requires i < |s| && !IsDigit(s[i]) && (i > 0 || |s| == 1 || (s[0] != '-' && s[0] != '+'))
    ensures ParseInt(s) == None
  {
    if s[0] == '-' || s[0] == '+' {
      assert i > 0 ==> s[1..][i - 1] == s[i];
    }
  }

  lemma AtoiOfItoa(n: int)
    ensures Atoi(Itoa(n)) == Clamp(n)
  {
    hide ParseSigned, Itoa;
    ParseSignedOfItoa(n);
  }
}

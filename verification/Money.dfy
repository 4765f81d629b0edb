/** Amounts of money as the service computes and prints them. Amounts are real
    numbers here: binary rounding of float64 is left aside, decimal rounding to
    cents is not. */
module Money {
  import opened Wrappers
  import opened Decimal

  /** `math.Round`: nearest integer, halves away from zero. */
  function RoundHalfAway(x: real): int {
    if x >= 0.0 then (x + 0.5).Floor else -((0.5 - x).Floor)
  }

  /** The rounding of `%.2f`: nearest integer, halves to even. */
  function RoundHalfEven(x: real): (n: int)
    ensures x >= 0.0 ==> n >= 0
  {
    var f := x.Floor;
    var d := x - f as real;
    if d < 0.5 || (d == 0.5 && f % 2 == 0) then f else f + 1
  }

  function Cents(n: int): real { n as real / 100.0 }

  /** Whether the amount is a whole number of cents. */
  predicate IsCents(x: real) { (x * 100.0).Floor as real == x * 100.0 }

  // ----- fees -----

  function CalculateFee(amount: real, percent: real): real {
    var raw := amount * percent / 100.0;
    RoundHalfAway(raw * 100.0) as real / 100.0
  }

  lemma FeeIsRounded(amount: real, percent: real)
    ensures CalculateFee(amount, percent) == Cents(RoundHalfAway(amount * percent))
  {
    assert amount * percent / 100.0 * 100.0 == amount * percent;
  }

  lemma FeeIsWholeCents(amount: real, percent: real)
    ensures IsCents(CalculateFee(amount, percent))
  {
    var n := RoundHalfAway(amount * percent / 100.0 * 100.0);
    assert n as real / 100.0 * 100.0 == n as real;
  }

  /** The fee is the whole-cent amount nearest to the exact percentage: no other
      number of cents is closer. */
  lemma FeeIsNearest(amount: real, percent: real, n: int)
    ensures var exact := amount * percent / 100.0;
            && -0.005 <= CalculateFee(amount, percent) - exact <= 0.005
            && Distance(CalculateFee(amount, percent), exact) <= Distance(Cents(n), exact)
  {
    FeeIsRounded(amount, percent);
    var x := amount * percent;
    var r := RoundHalfAway(x);
    assert -0.5 <= r as real - x <= 0.5;
    if n < r { assert n as real <= r as real - 1.0; }
    if n > r { assert n as real >= r as real + 1.0; }
  }

  /** Half a cent is rounded away from zero. */
  lemma FeeTiesGoAwayFromZero(amount: real, percent: real)
    ensures var exact, fee := amount * percent / 100.0, CalculateFee(amount, percent);
            Distance(fee, exact) == 0.005 ==> if exact >= 0.0 then fee == exact + 0.005 else fee == exact - 0.005
  {
    FeeIsRounded(amount, percent);
    var x := amount * percent;
    var r := RoundHalfAway(x);
    assert Distance(r as real, x) == 0.5 ==> if x >= 0.0 then r as real == x + 0.5 else r as real == x - 0.5;
  }

  function Distance(x: real, y: real): real { if x < y then y - x else x - y }

  lemma RoundMonotone(x: real, y: real)
    requires x <= y
    ensures RoundHalfAway(x) <= RoundHalfAway(y)
  { }

  lemma ProductMonotone(a: real, b: real, p: real, q: real)
    requires 0.0 <= a <= b && 0.0 <= p <= q
    ensures a * p <= b * q
  {
    assert a * p <= b * p;
    assert b * p <= b * q;
  }

  lemma FeeMonotone(a: real, b: real, p: real, q: real)
    requires 0.0 <= a <= b && 0.0 <= p <= q
    ensures 0.0 <= CalculateFee(a, p) <= CalculateFee(b, q)
  {
    FeeIsRounded(a, p);
    FeeIsRounded(b, q);
    ProductMonotone(a, b, p, q);
    ProductMonotone(0.0, a, 0.0, p);
    RoundMonotone(a * p, b * q);
    RoundMonotone(0.0, a * p);
  }

  /** The part of the amount below one cent is less than half a cent. */
  predicate FeeSafe(amount: real) {
    amount * 100.0 - (amount * 100.0).Floor as real < 0.5
  }

  lemma RoundsDownIff(x: real)
    requires x >= 0.0
    ensures RoundHalfAway(x) as real <= x <==> x - x.Floor as real < 0.5
  {
    var f := x.Floor;
    if x - f as real < 0.5 {
      assert (x + 0.5).Floor == f;
    } else {
      assert (x + 0.5).Floor == f + 1;
    }
  }

  lemma FullFeeWithinIff(amount: real)
    requires amount >= 0.0
    ensures CalculateFee(amount, 100.0) <= amount <==> FeeSafe(amount)
  {
    FeeIsRounded(amount, 100.0);
    RoundsDownIff(amount * 100.0);
  }

  /** No percentage up to 100 makes the fee exceed the amount, exactly when the
      amount has less than half a cent beyond whole cents. (Half a cent at 100 %
      rounds to a fee of one cent.) */
  lemma FeeNeverExceedsAmountIff(amount: real)
    requires amount >= 0.0
    ensures (forall p: real :: 0.0 <= p <= 100.0 ==> CalculateFee(amount, p) <= amount) <==> FeeSafe(amount)
  {
    hide CalculateFee, FeeSafe;
    FullFeeWithinIff(amount);
    forall p: real | 0.0 <= p <= 100.0
      ensures CalculateFee(amount, p) <= CalculateFee(amount, 100.0)
    {
      FeeMonotone(amount, amount, p, 100.0);
    }
  }

  lemma WholeCentsAreFeeSafe(amount: real)
    requires IsCents(amount)
    ensures FeeSafe(amount)
  { }

  lemma FeeWithinAmount(amount: real, p: real)
    requires amount >= 0.0 && FeeSafe(amount) && 0.0 <= p <= 100.0
    ensures 0.0 <= CalculateFee(amount, p) <= amount
  {
    FeeNeverExceedsAmountIff(amount);
    FeeMonotone(amount, amount, p, p);
  }

  /** Splitting a payment changes the total fee by at most one cent. */
  lemma FeeOfSplit(a: real, b: real, p: real)
    ensures -0.01 <= CalculateFee(a + b, p) - (CalculateFee(a, p) + CalculateFee(b, p)) <= 0.01
  {
    FeeIsRounded(a, p);
    FeeIsRounded(b, p);
    FeeIsRounded(a + b, p);
    assert (a + b) * p == a * p + b * p;
    RoundOfSum(a * p, b * p);
  }

  lemma RoundOfSum(x: real, y: real)
    ensures -1 <= RoundHalfAway(x + y) - (RoundHalfAway(x) + RoundHalfAway(y)) <= 1
  { }

  // ----- text -----

  /** Hundredths with two decimals. */
  function CentsText(n: nat): string {
    Digits(n / 100) + "." + [DigitChar(n / 10 % 10), DigitChar(n % 10)]
  }

  /** `%.2f`. */
  function FormatAmount(x: real): string {
    if x < 0.0 then "-" + CentsText(RoundHalfEven(-x * 100.0)) else CentsText(RoundHalfEven(x * 100.0))
  }

  /** Unsigned decimal text: digits, or digits, a point and digits. */
  function ParseUnsigned(s: string): Option<real> {
    var k := DigitSpan(s);
    if k == 0 then None
    else if k == |s| then Some(Value(s) as real)
    else if s[k] != '.' || !AllDigits(s[k + 1..]) then None
    else Some(Value(s[..k]) as real + Value(s[k + 1..]) as real / Pow10(|s| - k - 1) as real)
  }

  /** `strconv.ParseFloat` on plain decimal text with an optional sign. */
  function ParseAmount(s: string): Option<real> {
    if s != "" && s[0] == '-' then
      var r := ParseUnsigned(s[1..]);
      if r == None then None else Some(-r.value)
    else if s != "" && s[0] == '+' then ParseUnsigned(s[1..])
    else ParseUnsigned(s)
  }

  /** The amount to the nearest cent, as printed. */
  function Rounded(x: real): real {
    if x < 0.0 then -Cents(RoundHalfEven(-x * 100.0)) else Cents(RoundHalfEven(x * 100.0))
  }

  lemma ParseCentsText(n: nat)
    ensures ParseUnsigned(CentsText(n)) == Some(Cents(n)) && IsDigit(CentsText(n)[0])
  {
    var whole, fraction := Digits(n / 100), [DigitChar(n / 10 % 10), DigitChar(n % 10)];
    var s := whole + ("." + fraction);
    assert CentsText(n) == s;
    SpanUnique(whole, "." + fraction);
    ValueOfDigits(n / 100);
    ValueOfTwoDigits(n / 10 % 10, n % 10);
    assert s[..|whole|] == whole && s[|whole| + 1..] == fraction;
    assert Pow10(2) == 10 * Pow10(1) == 10 * (10 * Pow10(0)) == 100;
    SplitInTens(n);
    hide Digits, Value, Pow10, Cents;
    assert DigitSpan(s) == |whole| && |s| - |whole| - 1 == 2;
    assert AllDigits(fraction) && s[|whole|] == '.';
    assert (n / 100) as real + Value(fraction) as real / Pow10(2) as real == Cents(n);
  }

  lemma ValueOfTwoDigits(a: nat, b: nat)
    requires a < 10 && b < 10
    ensures Value([DigitChar(a), DigitChar(b)]) == 10 * a + b
  {
    var fraction := [DigitChar(a), DigitChar(b)];
    assert fraction[..1] == [DigitChar(a)] && fraction[..1][..0] == "";
    assert Value(fraction[..1]) == a;
  }

  lemma SplitInTens(n: nat)
    ensures n == 100 * (n / 100) + 10 * (n / 10 % 10) + n % 10
    ensures (n / 100) as real + (10 * (n / 10 % 10) + n % 10) as real / 100.0 == Cents(n)
  { }

  /** Parsing what was printed gives the amount to the nearest cent, for every
      amount; it gives back the amount itself exactly when that is whole cents. */
  lemma ParseOfFormat(x: real)
    ensures ParseAmount(FormatAmount(x)) == Some(Rounded(x))
    ensures Rounded(x) == x <==> IsCents(x)
  {
    if x < 0.0 {
      var n := RoundHalfEven(-x * 100.0);
      ParseCentsText(n);
      assert FormatAmount(x)[1..] == CentsText(n);
    } else {
      ParseCentsText(RoundHalfEven(x * 100.0));
    }
    RoundedIff(x);
  }

  /** What is printed is the nearest number of cents, and of two equally near ones the
      even one. */
  lemma PrintedIsNearest(x: real)
    ensures -0.005 <= Rounded(x) - x <= 0.005
    ensures (Rounded(x) - x == 0.005 || Rounded(x) - x == -0.005) ==> (Rounded(x) * 100.0).Floor % 2 == 0
  {
    var y := if x < 0.0 then -x * 100.0 else x * 100.0;
    var n := RoundHalfEven(y);
    assert -0.5 <= n as real - y <= 0.5;
    assert n as real - y == 0.5 || n as real - y == -0.5 ==> n % 2 == 0;
    assert Rounded(x) * 100.0 == (if x < 0.0 then -n else n) as real;
    assert (Rounded(x) * 100.0).Floor == if x < 0.0 then -n else n;
  }

  /** Always a digit at least, the point and two decimals, without idle zeros in
      front; the sign is there for negative amounts only. */
  lemma PrintedWithTwoDecimals(x: real)
    ensures var text := FormatAmount(x);
            var digits := if x < 0.0 then text[1..] else text;
            && |text| >= 4 && (x < 0.0 <==> text[0] == '-') && |digits| >= 4
            && digits[|digits| - 3] == '.' && AllDigits(digits[..|digits| - 3]) && AllDigits(digits[|digits| - 2..])
            && (|digits| > 4 ==> digits[0] != '0')
  {
    var n := RoundHalfEven(if x < 0.0 then -x * 100.0 else x * 100.0);
    var text, digits := FormatAmount(x), CentsText(n);
    assert x < 0.0 ==> text[1..] == digits;
    assert digits[..|digits| - 3] == Digits(n / 100);
    assert digits[|digits| - 2..] == [DigitChar(n / 10 % 10), DigitChar(n % 10)];
    DigitsHaveNoIdleZero(n / 100);
    assert IsDigit(Digits(n / 100)[0]) && digits[0] == Digits(n / 100)[0];
  }

  lemma RoundsToItselfIff(y: real)
    ensures RoundHalfEven(y) as real == y <==> y.Floor as real == y
  { }

  lemma WholeEitherSign(y: real)
    ensures (-y).Floor as real == -y <==> y.Floor as real == y
  {
    if y.Floor as real == y { assert -y == (-y.Floor) as real; }
    if (-y).Floor as real == -y { assert y == (-(-y).Floor) as real; }
  }

  lemma RoundedIff(x: real)
    ensures Rounded(x) == x <==> IsCents(x)
  {
    hide RoundHalfEven;
    RoundsToItselfIff(x * 100.0);
    RoundsToItselfIff(-x * 100.0);
    WholeEitherSign(x * 100.0);
    assert -(x * 100.0) == -x * 100.0;
  }

  lemma RoundedIsWholeCents(x: real)
    ensures IsCents(Rounded(x)) && (x >= 0.0 ==> FormatAmount(Rounded(x)) == FormatAmount(x))
  {
    hide RoundHalfEven;
    var n := if x < 0.0 then -RoundHalfEven(-x * 100.0) else RoundHalfEven(x * 100.0);
    assert Rounded(x) * 100.0 == n as real;
    assert (n as real).Floor == n;
    RoundsToItselfIff(n as real);
  }
}

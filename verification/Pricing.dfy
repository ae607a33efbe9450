/** Price printing (shared/utils/pricing.utils.ts). Prices are exact rationals `num / den` of a cent. */
module Pricing {

  /** `n` is an integer nearest to `num / den`; at a tie both neighbours qualify. */
  ghost predicate Nearest(n: int, num: int, den: int) {
    -den <= 2 * (n * den - num) <= den
  }

  /** The integer that toFixed picks (section 21.1.3.3 of ECMA-262): a nearest one, the larger at a tie. */
  function Round(num: nat, den: nat): nat
    requires den > 0
  {
    if 2 * (num % den) < den then num / den else num / den + 1
  }

  lemma Division(num: nat, den: nat)
    requires den > 0
    ensures num == num / den * den + num % den
  {
  }

  lemma Products(m: int, n: int, den: nat)
    ensures (n + 1) * den == n * den + den
    ensures m > n ==> m * den >= n * den + den
  {
    if m > n {
      assert m * den - n * den == (m - n) * den;
      assert (m - n) * den >= den;
    }
  }

  /** toFixed's choice is a nearest integer, and the largest of them. */
  lemma RoundNearest(num: nat, den: nat, m: int)
    requires den > 0
    ensures Nearest(Round(num, den), num, den)
    ensures Nearest(m, num, den) ==> m <= Round(num, den)
  {
    var q, n := num / den, Round(num, den);
    Division(num, den);
    Products(m, q, den);
    Products(m, n, den);
  }

  function Digit(d: nat): char
    requires d < 10
  {
    (d + '0' as int) as char
  }

  function Decimal(n: nat): (s: string)
    ensures |s| > 0
  {
    if n < 10 then [Digit(n)] else Decimal(n / 10) + [Digit(n % 10)]
  }

  function Zeros(k: nat): string { seq(k, i => '0') }

  /** The digits of a number with a decimal point before the last two, padded to at least one digit in front of it. */
  function WithPoint(n: nat): string {
    var m := Decimal(n);
    var padded := if |m| <= 2 then Zeros(3 - |m|) + m else m;
    padded[..|padded| - 2] + "." + padded[|padded| - 2..]
  }

  /** `(num / den).toFixed(2)` */
  function ToFixed2(num: nat, den: nat): string
    requires den > 0
  {
    WithPoint(Round(100 * num, den))
  }

  /** The price `num / den` cents in dollars with two decimals. */
  function FormatPrice(num: nat, den: nat): string
    requires den > 0
  {
    ToFixed2(num, 100 * den)
  }

  /** What a yearly price costs per month, in cents, as a fraction. */
  function GetMonthlyEquivalent(yearlyPriceInCents: nat): (nat, nat) {
    (yearlyPriceInCents, 12)
  }

  /** The number that a string of digits denotes. */
  ghost function ReadDigits(s: string): int {
    if s == "" then 0 else 10 * ReadDigits(s[..|s| - 1]) + (s[|s| - 1] as int - '0' as int)
  }

  /** The number of cents that a price in dollars with two decimals denotes. */
  ghost function ReadCents(s: string): int
    requires |s| >= 3
  {
    100 * ReadDigits(s[..|s| - 3]) + ReadDigits(s[|s| - 2..])
  }

  lemma {:induction false} ReadDecimal(n: nat)
    ensures ReadDigits(Decimal(n)) == n
  {
    if n < 10 {
    } else {
      ReadDecimal(n / 10);
      assert Decimal(n)[..|Decimal(n)| - 1] == Decimal(n / 10);
    }
  }

  lemma {:induction false} ReadPadded(k: nat, s: string)
    ensures ReadDigits(Zeros(k) + s) == ReadDigits(s)
  {
    if s == "" && k == 0 {
    } else if s == "" {
      ReadPadded(k - 1, "");
      assert (Zeros(k) + "")[..k - 1] == Zeros(k - 1) + "";
    } else {
      ReadPadded(k, s[..|s| - 1]);
      assert (Zeros(k) + s)[..k + |s| - 1] == Zeros(k) + s[..|s| - 1];
    }
  }

  lemma ReadSplit(s: string)
    requires |s| >= 3
    ensures ReadDigits(s) == 100 * ReadDigits(s[..|s| - 2]) + ReadDigits(s[|s| - 2..])
  {
    var t := s[|s| - 2..];
    assert s[..|s| - 1][..|s| - 2] == s[..|s| - 2];
    assert t[..1][..0] == "";
    assert ReadDigits(t[..1]) == t[0] as int - '0' as int;
  }

  lemma ReadWithPoint(n: nat)
    ensures |WithPoint(n)| >= 4 && WithPoint(n)[|WithPoint(n)| - 3] == '.'
    ensures ReadCents(WithPoint(n)) == n
  {
    var m := Decimal(n);
    var padded := if |m| <= 2 then Zeros(3 - |m|) + m else m;
    var s := WithPoint(n);
    assert s[..|s| - 3] == padded[..|padded| - 2];
    assert s[|s| - 2..] == padded[|padded| - 2..];
    ReadSplit(padded);
    ReadDecimal(n);
    if |m| <= 2 {
      ReadPadded(3 - |m|, m);
    }
  }

  ghost predicate IsDigits(s: string) { forall i :: 0 <= i < |s| ==> '0' <= s[i] <= '9' }

  lemma {:induction false} DecimalDigits(n: nat)
    ensures IsDigits(Decimal(n))
    ensures Decimal(n)[0] == '0' <==> n == 0
    ensures n == 0 ==> Decimal(n) == "0"
  {
    if n < 10 {
    } else {
      DecimalDigits(n / 10);
    }
  }

  /** Every price is printed in one way only: digits with a point before the last two, and a leading zero in front of
      the point only as the one digit there. */
  lemma PrintedPlainly(num: nat, den: nat)
    requires den > 0
    ensures var s := FormatPrice(num, den);
            && |s| >= 4 && s[|s| - 3] == '.' && IsDigits(s[..|s| - 3]) && IsDigits(s[|s| - 2..])
            && (s[0] == '0' ==> |s| == 4)
  {
    var n := Round(100 * num, 100 * den);
    var m := Decimal(n);
    var padded := if |m| <= 2 then Zeros(3 - |m|) + m else m;
    var s := WithPoint(n);
    DecimalDigits(n);
    assert IsDigits(padded);
    assert s[..|s| - 3] == padded[..|padded| - 2] && s[|s| - 2..] == padded[|padded| - 2..];
  }

  /** A whole number of cents is printed exactly. */
  lemma FormatPriceRoundTrip(cents: nat)
    ensures |FormatPrice(cents, 1)| >= 4 && FormatPrice(cents, 1)[|FormatPrice(cents, 1)| - 3] == '.'
    ensures ReadCents(FormatPrice(cents, 1)) == cents
  {
    ReadWithPoint(Round(100 * cents, 100));
  }

  predicate Within(x: int, bound: int) { -bound < x < bound }

  /** `n` is an integer nearest to `num / den`, which is less than half of `1 / k` away from `target / k`. */
  lemma NearTarget(n: int, num: int, den: int, target: int, k: int)
    requires den > 0 && k > 0 && Nearest(n, num, den) && Within(2 * (k * num - target * den), den)
    ensures Within(2 * (k * n - target), k + 1)
  {
    var d, e, x := 2 * (n * den - num), 2 * (k * num - target * den), 2 * (k * n - target);
    assert x * den == k * d + e by { Distance(n, num, den, target, k); }
    Scaled(k, -den, d);
    Scaled(k, d, den);
    assert k * -den == -(k * den);
    assert (k + 1) * den == k * den + den && -(k + 1) * den == -(k * den) - den;
    Unscaled(den, x, k + 1);
    Unscaled(den, -(k + 1), x);
  }

  lemma Distance(n: int, num: int, den: int, target: int, k: int)
    ensures 2 * (k * n - target) * den == k * (2 * (n * den - num)) + 2 * (k * num - target * den)
  {
    calc {
      k * (2 * (n * den - num)) + 2 * (k * num - target * den);
      2 * (k * (n * den) - k * num) + 2 * (k * num - target * den);
      2 * (k * (n * den)) - 2 * (target * den);
      { assert k * (n * den) == (k * n) * den; }
      2 * ((k * n - target) * den);
      2 * (k * n - target) * den;
    }
  }

  lemma Scaled(k: int, a: int, b: int)
    requires k > 0 && a <= b
    ensures k * a <= k * b
  {
    assert k * b - k * a == k * (b - a);
  }

  lemma Unscaled(den: int, a: int, b: int)
    requires den > 0 && a * den < b * den
    ensures a < b
  {
    if a >= b {
      Scaled(den, b, a);
    }
  }

  /** Every price less than half a cent from a whole number of cents is printed as that number: rounding errors of that
      size, as in a division of doubles, do not show. */
  lemma FormatPriceNear(num: nat, den: nat, cents: nat)
    requires den > 0 && Within(2 * (num - cents * den), den)
    ensures FormatPrice(num, den) == FormatPrice(cents, 1)
    ensures ReadCents(FormatPrice(num, den)) == cents
  {
    var n := Round(100 * num, 100 * den);
    RoundNearest(100 * num, 100 * den, 0);
    assert Nearest(n, num, den) by { Hundredth(n, num, den); }
    NearTarget(n, num, den, cents, 1);
    assert n == cents;
    assert Round(100 * cents, 100) == cents;
    ReadWithPoint(cents);
  }

  lemma Hundredth(n: int, num: nat, den: nat)
    ensures Nearest(n, 100 * num, 100 * den) ==> Nearest(n, num, den)
  {
    assert n * (100 * den) == 100 * (n * den);
  }

  /** However the division by twelve and the rounding go astray, by less than a twenty-fourth of a cent, and whichever
      way a tie is printed: twelve printed monthly prices make up the yearly price to within 6 cents, and exactly when
      the yearly price is a multiple of twelve cents. */
  lemma MonthlyEquivalentNear(yearly: nat, num: nat, den: nat, printed: nat)
    requires den > 0 && Within(2 * (12 * num - yearly * den), den)
    requires WithPoint(printed) == FormatPrice(num, den) || Nearest(printed, num, den)
    ensures -6 <= 12 * ReadCents(WithPoint(printed)) - yearly <= 6
    ensures 12 * ReadCents(WithPoint(printed)) == yearly <==> yearly % 12 == 0
  {
    ReadWithPoint(printed);
    var n := Round(100 * num, 100 * den);
    ReadWithPoint(n);
    RoundNearest(100 * num, 100 * den, 0);
    Hundredth(n, num, den);
    assert Nearest(printed, num, den);
    NearTarget(printed, num, den, yearly, 12);
    Multiple(printed, yearly);
  }

  lemma Multiple(n: int, yearly: int)
    requires Within(2 * (12 * n - yearly), 13)
    ensures -6 <= 12 * n - yearly <= 6
    ensures 12 * n == yearly <==> yearly % 12 == 0
  {
  }

  /** The same for the exact monthly equivalent. */
  lemma MonthlyEquivalentWithinSixCents(yearly: nat, printed: nat)
    requires WithPoint(printed) == FormatPrice(GetMonthlyEquivalent(yearly).0, GetMonthlyEquivalent(yearly).1)
             || Nearest(printed, yearly, 12)
    ensures -6 <= 12 * ReadCents(WithPoint(printed)) - yearly <= 6
    ensures 12 * ReadCents(WithPoint(printed)) == yearly <==> yearly % 12 == 0
  {
    MonthlyEquivalentNear(yearly, yearly, 12, printed);
  }
}

/** The integer arithmetic of the game odds service: a win percentage rounded
    half away from zero, Euclid's greatest common divisor, the odds ratio reduced
    to lowest terms, and the "a : b" text the service displays. */
module Odds {

  /** Percentage reported for a pair with no data at all (no wins, no losses). */
  const DefaultPercentage: nat := 50

  /** The text shown when there is not enough data to compare two teams. */
  const DefaultOdds: string := "1 : 1"

  /** An odds ratio, blue team first, purple team second. */
  datatype Ratio = Ratio(blue: nat, purple: nat)

  // ---------------------------------------------------------------------------
  // Arithmetic helpers
  // ---------------------------------------------------------------------------

  lemma MulMonotone(a: int, b: int, k: int)
    requires a <= b && k >= 0
    ensures a * k <= b * k
  {
    assert b * k - a * k == (b - a) * k;
  }

  lemma MulStrict(a: int, b: int, k: int)
    requires a < b && k > 0
    ensures a * k < b * k
  {
    assert b * k - a * k == (b - a) * k;
  }

  /** Cancelling a positive factor from a strict inequality. */
  lemma MulCancelStrict(a: int, b: int, k: int)
    requires k > 0 && a * k < b * k
    ensures a < b
  {
    if a >= b {
      MulMonotone(b, a, k);
    }
  }

  lemma CancelFactor(x: int, y: int, k: int)
    requires k > 0 && x * k == y * k
    ensures x == y
  {
    if x < y {
      MulStrict(x, y, k);
    } else if y < x {
      MulStrict(y, x, k);
    }
  }

  /** Euclidean division of a multiple of `d` by `d` is exact. */
  lemma MultipleDiv(d: nat, m: nat)
    requires d > 0
    ensures (d * m) % d == 0 && (d * m) / d == m
  {
    var q, r := (d * m) / d, (d * m) % d;
    assert d * m == d * q + r && 0 <= r < d;
    assert d * (m - q) == r;
    if m - q >= 1 {
      MulMonotone(1, m - q, d);
    } else if m - q <= -1 {
      MulMonotone(m - q, -1, d);
    }
  }

  // ---------------------------------------------------------------------------
  // Win percentage
  // ---------------------------------------------------------------------------

  /** `r` is 100 * num / den rounded to the nearest integer, a half rounded up
      (away from zero: every quantity here is non-negative). */
  ghost predicate RoundsTo(num: nat, den: nat, r: int)
  {
    (2 * r - 1) * den <= 200 * num < (2 * r + 1) * den
  }

  /** The rounded win percentage of `i1` wins against `i2` losses, or 50 when
      there are neither; the exact rational is rounded half away from zero, as
      `round` does in the source's language. */
  function Percentage(i1: nat, i2: nat): (r: nat)
    ensures r <= 100
    ensures i1 == 0 && i2 == 0 ==> r == DefaultPercentage
  {
    if i1 == 0 && i2 == 0 then DefaultPercentage
    else
      var n := i1 + i2;
      var q := (200 * i1 + n) / (2 * n);
      assert q <= 100 by {
        assert 2 * n * q <= 200 * i1 + n;
        assert 2 * n * q < 2 * n * 101 by {
          MulMonotone(i1, n, 200);
        }
        MulCancelStrict(q, 101, 2 * n);
      }
      q
  }

  /** With any data at all, the percentage is 100 * i1 / (i1 + i2) rounded to
      the nearest integer, a half rounded up. */
  lemma PercentageRounds(i1: nat, i2: nat)
    requires i1 + i2 > 0
    ensures RoundsTo(i1, i1 + i2, Percentage(i1, i2))
  {
    var n := i1 + i2;
    var q := (200 * i1 + n) / (2 * n);
    assert 2 * n * q <= 200 * i1 + n < 2 * n * q + 2 * n;
    assert (2 * q - 1) * n == 2 * n * q - n;
    assert (2 * q + 1) * n == 2 * n * q + n;
  }

  /** The percentage of `i1` against `i2` is `r` exactly when `r` is the rounded
      value of 100 * i1 / (i1 + i2). */
  lemma PercentageIs(i1: nat, i2: nat, r: int)
    requires i1 + i2 > 0 && RoundsTo(i1, i1 + i2, r)
    ensures Percentage(i1, i2) == r
  {
    PercentageRounds(i1, i2);
    RoundsToUnique(i1, i1 + i2, Percentage(i1, i2), r);
  }

  lemma RoundsToAtMostOneOf(num: nat, den: nat, lo: int, hi: int)
    requires den > 0 && lo < hi
    ensures !(RoundsTo(num, den, lo) && RoundsTo(num, den, hi))
  {
    MulMonotone(2 * lo + 1, 2 * hi - 1, den);
  }

  /** Rounding has one answer: a percentage is determined by its rounding bounds. */
  lemma RoundsToUnique(num: nat, den: nat, r1: int, r2: int)
    requires den > 0 && RoundsTo(num, den, r1) && RoundsTo(num, den, r2)
    ensures r1 == r2
  {
    if r1 < r2 {
      RoundsToAtMostOneOf(num, den, r1, r2);
    } else if r2 < r1 {
      RoundsToAtMostOneOf(num, den, r2, r1);
    }
  }

  /** The rounding bounds are monotonic in the wins for fixed losses. */
  lemma RoundingMonotonic(i1: nat, j1: nat, i2: nat, r1: int, r2: int)
    requires i1 <= j1 && i1 + i2 > 0
    requires RoundsTo(i1, i1 + i2, r1) && RoundsTo(j1, j1 + i2, r2)
    ensures r1 <= r2
  {
    var n1, n2 := i1 + i2, j1 + i2;
    var lo, hi := 2 * r1 - 1, 2 * r2 + 1;
    // i1 / n1 <= j1 / n2, cross-multiplied
    MulMonotone(i1, j1, i2);
    assert i1 * n2 == i1 * j1 + i1 * i2;
    assert j1 * n1 == j1 * i1 + j1 * i2;
    // lo * n1 * n2 <= 200 * i1 * n2 <= 200 * j1 * n1 < hi * n2 * n1
    MulMonotone(lo * n1, 200 * i1, n2);
    MulStrict(200 * j1, hi * n2, n1);
    assert (lo * n1) * n2 == lo * (n1 * n2);
    assert (hi * n2) * n1 == hi * (n1 * n2);
    MulCancelStrict(lo, hi, n1 * n2);
  }

  /** For a fixed number of losses, more wins never give a lower percentage. */
  lemma PercentageMonotonic(i1: nat, j1: nat, i2: nat)
    requires i1 <= j1
    ensures Percentage(i1, i2) <= Percentage(j1, i2)
  {
    if i1 == j1 {
    } else if i1 == 0 && i2 == 0 {
      // the default 50 against j1 > 0 wins and no losses, which round to 100
      PercentageIs(j1, 0, 100);
    } else {
      PercentageRounds(i1, i2);
      PercentageRounds(j1, i2);
      RoundingMonotonic(i1, j1, i2, Percentage(i1, i2), Percentage(j1, i2));
    }
  }

  /** Two values rounded from complementary fractions x / n and y / n add up to
      100 or 101. */
  lemma RoundedPairSum(x: nat, y: nat, r1: int, r2: int)
    requires x + y > 0 && RoundsTo(x, x + y, r1) && RoundsTo(y, x + y, r2)
    ensures 100 <= r1 + r2 <= 101
  {
    var n, s := x + y, r1 + r2;
    assert (2 * s - 2) * n == (2 * r1 - 1) * n + (2 * r2 - 1) * n;
    assert (2 * s + 2) * n == (2 * r1 + 1) * n + (2 * r2 + 1) * n;
    MulCancelStrict(200, 2 * s + 2, n);
    MulCancelStrict(2 * s - 2, 201, n);
  }

  /** The two percentages of a pair against each other add up to 100, or to 101
      when both land on an exact half and are both rounded up. */
  lemma PercentagePairSum(x: nat, y: nat)
    requires x + y > 0
    ensures 100 <= Percentage(x, y) + Percentage(y, x) <= 101
  {
    PercentageRounds(x, y);
    PercentageRounds(y, x);
    RoundedPairSum(x, y, Percentage(x, y), Percentage(y, x));
  }

  /** Equal counts on both sides give exactly 50. */
  lemma PercentageOfEqualPair(p: nat)
    ensures Percentage(p, p) == 50
  {
    if p > 0 {
      assert RoundsTo(p, 2 * p, 50) by {
        assert (2 * 50 - 1) * (2 * p) == 198 * p;
        assert (2 * 50 + 1) * (2 * p) == 202 * p;
      }
      PercentageIs(p, p, 50);
    }
  }

  // ---------------------------------------------------------------------------
  // Greatest common divisor
  // ---------------------------------------------------------------------------

  /** `d` is a positive divisor of `n`. */
  predicate Divides(d: nat, n: nat)
  {
    d > 0 && n % d == 0
  }

  /** Euclid's algorithm, as the gcd helper the service imports computes it:
      the result is 0 exactly when both arguments are 0. */
  function Gcd(a: nat, b: nat): (g: nat)
    ensures g == 0 <==> a == 0 && b == 0
    decreases b
  {
    if b == 0 then a else Gcd(b, a % b)
  }

  lemma DividesSum(d: nat, x: nat, y: nat, k: nat)
    requires Divides(d, x) && Divides(d, y)
    ensures Divides(d, k * x + y)
  {
    var p, q := x / d, y / d;
    assert x == d * p && y == d * q;
    assert k * x + y == d * (k * p + q);
    MultipleDiv(d, k * p + q);
  }

  lemma DividesDifference(d: nat, x: nat, y: nat, k: nat)
    requires Divides(d, x) && Divides(d, y) && x - k * y >= 0
    ensures Divides(d, x - k * y)
  {
    var p, q := x / d, y / d;
    assert x == d * p && y == d * q;
    assert x - k * y == d * (p - k * q);
    if p - k * q < 0 {
      MulStrict(p - k * q, 0, d);
    }
    MultipleDiv(d, p - k * q);
  }

  /** A positive multiple of `d` is at least `d`. */
  lemma DivisorIsSmaller(d: nat, n: nat)
    requires Divides(d, n) && n > 0
    ensures d <= n
  {
    var q := n / d;
    assert n == d * q;
    MulMonotone(1, q, d);
  }

  /** A common divisor of `b` and `a % b` divides `a`. */
  lemma DividesDividend(d: nat, a: nat, b: nat)
    requires b > 0 && Divides(d, b) && Divides(d, a % b)
    ensures Divides(d, a)
  {
    DividesSum(d, b, a % b, a / b);
    assert (a / b) * b + a % b == a;
  }

  /** The gcd divides both arguments, and is positive unless both are 0. */
  lemma {:induction false} GcdDividesBoth(a: nat, b: nat)
    ensures Gcd(a, b) == 0 <==> a == 0 && b == 0
    ensures Gcd(a, b) > 0 ==> Divides(Gcd(a, b), a) && Divides(Gcd(a, b), b)
    decreases b
  {
    if b == 0 {
      if a > 0 {
        MultipleDiv(a, 1);
      }
    } else {
      GcdDividesBoth(b, a % b);
      DividesDividend(Gcd(b, a % b), a, b);
    }
  }

  /** Every common divisor of `a` and `b` divides their gcd. */
  lemma {:induction false} GcdGreatest(a: nat, b: nat, d: nat)
    requires Divides(d, a) && Divides(d, b)
    ensures Divides(d, Gcd(a, b))
    decreases b
  {
    if b > 0 {
      assert a % b == a - (a / b) * b;
      DividesDifference(d, a, b, a / b);
      GcdGreatest(b, a % b, d);
    }
  }

  /** Two positive numbers that divide each other are equal. */
  lemma MutualDivisors(x: nat, y: nat)
    requires Divides(x, y) && Divides(y, x)
    ensures x == y
  {
    DivisorIsSmaller(x, y);
    DivisorIsSmaller(y, x);
  }

  /** The order of the arguments does not matter. */
  lemma GcdCommutes(a: nat, b: nat)
    ensures Gcd(a, b) == Gcd(b, a)
  {
    GcdDividesBoth(a, b);
    GcdDividesBoth(b, a);
    if a > 0 || b > 0 {
      GcdGreatest(a, b, Gcd(b, a));
      GcdGreatest(b, a, Gcd(a, b));
      MutualDivisors(Gcd(a, b), Gcd(b, a));
    }
  }

  /** Dividing by a divisor is exact, and the quotient of a positive number is positive. */
  lemma ExactQuotient(d: nat, n: nat)
    requires Divides(d, n)
    ensures n == d * (n / d) && (n / d) * d == n
    ensures n > 0 ==> n / d > 0
  {
  }

  /** Scaling a divisor and its multiple by the same positive factor. */
  lemma ScaledDivisor(g: nat, h: nat, x: nat)
    requires g > 0 && Divides(h, x)
    ensures Divides(g * h, g * x)
  {
    var u := x / h;
    assert x == h * u;
    assert g * x == (g * h) * u;
    MultipleDiv(g * h, u);
  }

  /** Dividing a pair that is not all zeros by its gcd is exact and leaves a
      coprime pair. */
  lemma ReducedPairIsCoprime(a: nat, b: nat)
    requires a > 0 || b > 0
    ensures Gcd(a, b) > 0
    ensures (a / Gcd(a, b)) * Gcd(a, b) == a && (b / Gcd(a, b)) * Gcd(a, b) == b
    ensures Gcd(a / Gcd(a, b), b / Gcd(a, b)) == 1
  {
    var g := Gcd(a, b);
    GcdDividesBoth(a, b);
    ExactQuotient(g, a);
    ExactQuotient(g, b);
    var x, y := a / g, b / g;
    var h := Gcd(x, y);
    GcdDividesBoth(x, y);
    assert Divides(g * h, g) by {
      ScaledDivisor(g, h, x);
      ScaledDivisor(g, h, y);
      GcdGreatest(a, b, g * h);
    }
    assert h <= 1 by {
      DivisorIsSmaller(g * h, g);
      if h > 1 {
        MulStrict(1, h, g);
      }
    }
  }

  // ---------------------------------------------------------------------------
  // Odds
  // ---------------------------------------------------------------------------

  /** Dividing by a positive number never increases a count. */
  lemma QuotientAtMost(n: nat, d: nat)
    requires d > 0
    ensures 0 <= n / d <= n
  {
    assert n == d * (n / d) + n % d;
    MulMonotone(1, d, n / d);
  }

  /** A team's "chance": its win percentage taken as a percentage against the
      other team's win percentage. */
  function Chance(ownWins: nat, ownLosses: nat, otherWins: nat, otherLosses: nat): (r: nat)
    ensures r <= 100
  {
    Percentage(Percentage(ownWins, ownLosses), Percentage(otherWins, otherLosses))
  }

  /** The two chances of a match are never both 0: two zero percentages compare
      as 50 each, and otherwise the two chances add up to at least 100. */
  lemma ChancesNotBothZero(bw: nat, bl: nat, pw: nat, pl: nat)
    ensures Chance(bw, bl, pw, pl) > 0 || Chance(pw, pl, bw, bl) > 0
  {
    var bp, pp := Percentage(bw, bl), Percentage(pw, pl);
    if bp + pp > 0 {
      PercentagePairSum(bp, pp);
    }
  }

  /** The odds ratio of blue against purple: the two chances divided by their
      gcd, a gcd of 0 being replaced by 1. */
  function ReducedOdds(bw: nat, bl: nat, pw: nat, pl: nat): (r: Ratio)
    ensures r.blue <= Chance(bw, bl, pw, pl) && r.purple <= Chance(pw, pl, bw, bl)
  {
    var bc := Chance(bw, bl, pw, pl);
    var pc := Chance(pw, pl, bw, bl);
    var g := Gcd(bc, pc);
    var divisor := if g == 0 then 1 else g;
    QuotientAtMost(bc, divisor);
    QuotientAtMost(pc, divisor);
    Ratio(bc / divisor, pc / divisor)
  }

  /** With known chances and a known positive gcd, the odds are the chances
      divided by that gcd. */
  lemma ReducedOddsDivides(bw: nat, bl: nat, pw: nat, pl: nat, bc: nat, pc: nat, g: nat)
    requires Chance(bw, bl, pw, pl) == bc && Chance(pw, pl, bw, bl) == pc
    requires g > 0 && Gcd(bc, pc) == g
    ensures ReducedOdds(bw, bl, pw, pl) == Ratio(bc / g, pc / g)
  {
  }

  /** The odds are the two chances' ratio in lowest terms, and the divisor is
      never 0: it is the chances' gcd, which is positive. */
  lemma ReducedOddsInLowestTerms(bw: nat, bl: nat, pw: nat, pl: nat)
    ensures var bc, pc := Chance(bw, bl, pw, pl), Chance(pw, pl, bw, bl);
      var r := ReducedOdds(bw, bl, pw, pl);
      && Gcd(bc, pc) > 0
      && r.blue * Gcd(bc, pc) == bc
      && r.purple * Gcd(bc, pc) == pc
      && Gcd(r.blue, r.purple) == 1
  {
    ChancesNotBothZero(bw, bl, pw, pl);
    ReducedPairIsCoprime(Chance(bw, bl, pw, pl), Chance(pw, pl, bw, bl));
  }

  /** Exchanging the two teams exchanges the two sides of the ratio. */
  lemma ReducedOddsSwap(bw: nat, bl: nat, pw: nat, pl: nat)
    ensures ReducedOdds(pw, pl, bw, bl) == Ratio(ReducedOdds(bw, bl, pw, pl).purple, ReducedOdds(bw, bl, pw, pl).blue)
  {
    GcdCommutes(Chance(bw, bl, pw, pl), Chance(pw, pl, bw, bl));
  }

  /** Two teams with the same win percentage are even: 1 : 1. */
  lemma EqualPercentagesAreEven(bw: nat, bl: nat, pw: nat, pl: nat)
    ensures Percentage(bw, bl) == Percentage(pw, pl) ==> ReducedOdds(bw, bl, pw, pl) == Ratio(1, 1)
  {
    if Percentage(bw, bl) == Percentage(pw, pl) {
      PercentageOfEqualPair(Percentage(bw, bl));
      assert Gcd(50, 50) == 50;
    }
  }

  // ---------------------------------------------------------------------------
  // Text form
  // ---------------------------------------------------------------------------

  function DigitChar(d: nat): (c: char)
    requires d < 10
    ensures '0' <= c <= '9' && c as int - '0' as int == d
  {
    (d + '0' as int) as char
  }

  /** The decimal numeral of `n`, as `%i` prints a whole number: digits only,
      with no leading zero. */
  function Decimal(n: nat): (s: string)
    ensures |s| >= 1 && forall i :: 0 <= i < |s| ==> '0' <= s[i] <= '9'
    ensures n > 0 ==> s[0] != '0'
    decreases n
  {
    if n < 10 then [DigitChar(n)] else Decimal(n / 10) + [DigitChar(n % 10)]
  }

  /** The value of a string of decimal digits. */
  function DecimalValue(s: string): nat
    requires forall i :: 0 <= i < |s| ==> '0' <= s[i] <= '9'
  {
    if s == [] then 0
    else DecimalValue(s[..|s| - 1]) * 10 + (s[|s| - 1] as int - '0' as int)
  }

  /** Reading a printed numeral back gives the number: the text loses nothing. */
  lemma {:induction false} DecimalRoundTrip(n: nat)
    ensures DecimalValue(Decimal(n)) == n
    decreases n
  {
    if n >= 10 {
      DecimalRoundTrip(n / 10);
      var s := Decimal(n);
      assert s[..|s| - 1] == Decimal(n / 10);
    }
  }

  /** The displayed form "a : b" of a ratio. */
  function Show(r: Ratio): (s: string)
    ensures |s| == |Decimal(r.blue)| + 3 + |Decimal(r.purple)|
    ensures s[|Decimal(r.blue)|..|Decimal(r.blue)| + 3] == " : "
  {
    Decimal(r.blue) + " : " + Decimal(r.purple)
  }

  /** A numeral followed by a space cannot be a proper prefix of another numeral. */
  lemma NumeralEndsAtSpace(a1: string, rest1: string, a2: string, rest2: string)
    requires forall i :: 0 <= i < |a2| ==> '0' <= a2[i] <= '9'
    requires rest1 != [] && rest1[0] == ' '
    requires a1 + rest1 == a2 + rest2
    ensures |a2| <= |a1|
  {
    var s := a2 + rest2;
    assert |a1| < |s| && s[|a1|] == ' ';
    assert forall i :: 0 <= i < |a2| ==> s[i] == a2[i];
  }

  /** The text, bracketed as the blue numeral followed by the rest. */
  lemma ShowParts(r: Ratio)
    ensures Show(r) == Decimal(r.blue) + (" : " + Decimal(r.purple))
  {
    var a, b := Decimal(r.blue), Decimal(r.purple);
    assert (a + " : ") + b == a + (" : " + b);
  }

  /** Two "a : b" texts with digit-only first numerals are equal only when
      both numerals are. */
  lemma NumeralsAgree(a1: string, b1: string, a2: string, b2: string)
    requires forall i :: 0 <= i < |a1| ==> '0' <= a1[i] <= '9'
    requires forall i :: 0 <= i < |a2| ==> '0' <= a2[i] <= '9'
    requires a1 + (" : " + b1) == a2 + (" : " + b2)
    ensures a1 == a2 && b1 == b2
  {
    var s := a1 + (" : " + b1);
    NumeralEndsAtSpace(a1, " : " + b1, a2, " : " + b2);
    NumeralEndsAtSpace(a2, " : " + b2, a1, " : " + b1);
    assert a1 == s[..|a1|] == a2;
    assert b1 == s[|a1| + 3..] == b2;
  }

  /** Different ratios are shown as different texts: the blue numeral ends at
      the first space, and both numerals read back to their numbers. */
  lemma ShowIsInjective(r1: Ratio, r2: Ratio)
    requires Show(r1) == Show(r2)
    ensures r1 == r2
  {
    var a1, b1 := Decimal(r1.blue), Decimal(r1.purple);
    var a2, b2 := Decimal(r2.blue), Decimal(r2.purple);
    ShowParts(r1);
    ShowParts(r2);
    NumeralsAgree(a1, b1, a2, b2);
    DecimalRoundTrip(r1.blue);
    DecimalRoundTrip(r2.blue);
    DecimalRoundTrip(r1.purple);
    DecimalRoundTrip(r2.purple);
  }

  /** The default text is the even ratio. */
  lemma DefaultOddsIsEven()
    ensures Show(Ratio(1, 1)) == DefaultOdds
  {
  }

  /** The odds text for blue against purple. */
  function CalculateGameOdds(bw: nat, bl: nat, pw: nat, pl: nat): (s: string)
    ensures Percentage(bw, bl) == Percentage(pw, pl) ==> s == DefaultOdds
  {
    EqualPercentagesAreEven(bw, bl, pw, pl);
    DefaultOddsIsEven();
    Show(ReducedOdds(bw, bl, pw, pl))
  }

  /** Blue 30/10 wins 75% of its games, purple 10/30 wins 25%. */
  lemma ThreeToOnePercentages()
    ensures Percentage(30, 10) == 75 && Percentage(10, 30) == 25
  {
    PercentageIs(30, 10, 75);
    PercentageIs(10, 30, 25);
  }

  /** 75% against 25% gives blue the chance 75. */
  lemma ThreeToOneBlueChance()
    ensures Chance(30, 10, 10, 30) == 75
  {
    ThreeToOnePercentages();
    PercentageIs(75, 25, 75);
  }

  /** 25% against 75% gives purple the chance 25. */
  lemma ThreeToOnePurpleChance()
    ensures Chance(10, 30, 30, 10) == 25
  {
    ThreeToOnePercentages();
    PercentageIs(25, 75, 25);
  }

  /** The odds text is the printed ratio, whatever the percentages. */
  lemma OddsTextShowsRatio(bw: nat, bl: nat, pw: nat, pl: nat)
    ensures CalculateGameOdds(bw, bl, pw, pl) == Show(ReducedOdds(bw, bl, pw, pl))
  {
  }

  /** Blue 30/10 (75%) against purple 10/30 (25%): the chances 75 and 25 have
      gcd 25, so the odds are 3 : 1. */
  lemma ThreeToOne()
    ensures Gcd(75, 25) == 25
    ensures ReducedOdds(30, 10, 10, 30) == Ratio(3, 1)
    ensures CalculateGameOdds(30, 10, 10, 30) == "3 : 1"
    ensures Percentage(30, 10) == 75 && Percentage(10, 30) == 25
    ensures Chance(30, 10, 10, 30) == 75 && Chance(10, 30, 30, 10) == 25
  {
    ThreeToOnePercentages();
    ThreeToOneBlueChance();
    ThreeToOnePurpleChance();
    ThreeToOneRatio();
  }

  /** The chances 75 and 25 reduce to the ratio 3 : 1. */
  lemma ThreeToOneRatio()
    ensures Gcd(75, 25) == 25
    ensures ReducedOdds(30, 10, 10, 30) == Ratio(3, 1)
    ensures CalculateGameOdds(30, 10, 10, 30) == "3 : 1"
  {
    ThreeToOneBlueChance();
    ThreeToOnePurpleChance();
    assert Gcd(75, 25) == 25;
    ReducedOddsDivides(30, 10, 10, 30, 75, 25, 25);
    OddsTextShowsRatio(30, 10, 10, 30);
    ShowThreeToOne();
  }

  lemma ShowThreeToOne()
    ensures Show(Ratio(3, 1)) == "3 : 1"
  {
  }

  lemma NoWinsBlueChance(bl: nat, pw: nat)
    requires bl > 0 && pw > 0
    ensures Chance(0, bl, pw, 0) == 0
  {
    PercentageIs(pw, 0, 100);
    PercentageIs(0, bl, 0);
    PercentageIs(0, 100, 0);
  }

  lemma NoLossesPurpleChance(bl: nat, pw: nat)
    requires bl > 0 && pw > 0
    ensures Chance(pw, 0, 0, bl) == 100
  {
    PercentageIs(pw, 0, 100);
    PercentageIs(0, bl, 0);
    PercentageIs(100, 0, 100);
  }

  /** A team with no wins against a team with no losses gets 0 : 1: the odds
      are in lowest terms, but one side can be 0. */
  lemma NoWinsAgainstNoLosses(bl: nat, pw: nat)
    requires bl > 0 && pw > 0
    ensures ReducedOdds(0, bl, pw, 0) == Ratio(0, 1)
  {
    NoWinsBlueChance(bl, pw);
    NoLossesPurpleChance(bl, pw);
    assert Gcd(0, 100) == 100;
  }
}

/**
 Sub-period keys, "YYYY-MM" for months and "YYYY" for years, as the text the database
 stores and compares. The invoicing guards take the maximum of such keys as strings and
 turn a key back into a date, so both have to agree with the calendar.
 */
module PeriodKeys {
  import opened Calendar

  datatype Option<+T> = None | Some(value: T)

  /** What a date that could not be parsed reads as: 0001-01-01, the zero time. */
  const ZERO_DAY := 366

  /** Keys have four-digit years. */
  const MAX_YEAR := 9999

  // ---------- decimal text ----------

  function Digit(n: nat): char
    requires n < 10
  {
    '0' + n as char
  }

  function Decimal(n: nat): string {
    if n < 10 then [Digit(n)] else Decimal(n / 10) + [Digit(n % 10)]
  }

  /** `n` in decimal, zero-padded on the left to at least `width` digits. */
  function Padded(n: nat, width: nat): string {
    if width <= 1 then Decimal(n) else Padded(n / 10, width - 1) + [Digit(n % 10)]
  }

  function Pow10(width: nat): (r: nat)
    ensures r > 0
  {
    if width == 0 then 1 else 10 * Pow10(width - 1)
  }

  predicate IsDigit(c: char) {
    '0' <= c <= '9'
  }

  function ParseDecimal(s: string): Option<nat> {
    if s == [] || !IsDigit(s[|s| - 1]) then None
    else
      var low := (s[|s| - 1] - '0') as nat;
      if |s| == 1 then Some(low)
      else
        match ParseDecimal(s[..|s| - 1])
        case None => None
        case Some(high) => Some(10 * high + low)
  }

  lemma {:induction false} ParsePadded(n: nat, width: nat)
    requires 1 <= width && n < Pow10(width)
    ensures |Padded(n, width)| == width
    ensures ParseDecimal(Padded(n, width)) == Some(n)
  {
    if width == 1 {
      assert Pow10(1) == 10 * Pow10(0) == 10;
    } else {
      ParsePadded(n / 10, width - 1);
      assert Padded(n, width)[..width - 1] == Padded(n / 10, width - 1);
    }
  }

  // ---------- string order ----------

  predicate LexLess(a: string, b: string) {
    if a == [] then b != []
    else b != [] && (a[0] < b[0] || (a[0] == b[0] && LexLess(a[1..], b[1..])))
  }

  /** With prefixes of one length, the prefix decides before the suffix does. */
  lemma {:induction false} LexConcat(x: string, y: string, s: string, t: string)
    requires |x| == |y|
    ensures LexLess(x + s, y + t) <==> LexLess(x, y) || (x == y && LexLess(s, t))
  {
    if x == [] {
      assert x + s == s && y + t == t;
    } else {
      assert (x + s)[1..] == x[1..] + s && (y + t)[1..] == y[1..] + t;
      assert x == [x[0]] + x[1..] && y == [y[0]] + y[1..];
      LexConcat(x[1..], y[1..], s, t);
    }
  }

  lemma {:induction false} PaddedOrder(a: nat, b: nat, width: nat)
    requires 1 <= width && a < Pow10(width) && b < Pow10(width)
    ensures LexLess(Padded(a, width), Padded(b, width)) <==> a < b
  {
    hide ParseDecimal;
    if width == 1 {
      assert Pow10(1) == 10 * Pow10(0) == 10;
    } else {
      PaddedOrder(a / 10, b / 10, width - 1);
      ParsePadded(a / 10, width - 1);
      ParsePadded(b / 10, width - 1);
      LexConcat(Padded(a / 10, width - 1), Padded(b / 10, width - 1), [Digit(a % 10)], [Digit(b % 10)]);
    }
  }

  // ---------- keys ----------

  function YearOf(p: BillingPeriod, i: nat): nat {
    if p.Yearly? then i else i / 12
  }

  function PeriodKey(p: BillingPeriod, i: nat): string {
    match p
    case Yearly => Padded(i, 4)
    case Monthly => Padded(i / 12, 4) + "-" + Padded(i % 12 + 1, 2)
  }

  /** The exclusive end of the period a key names; ZERO_DAY when it names none. */
  function PeriodKeyEnd(key: string): nat {
    if |key| == 7 && key[4] == '-' && ParseDecimal(key[..4]).Some? && ParseDecimal(key[5..]).Some?
       && 1 <= ParseDecimal(key[5..]).value <= 12
    then PeriodStart(Monthly, 12 * ParseDecimal(key[..4]).value + ParseDecimal(key[5..]).value)
    else if |key| == 4 && ParseDecimal(key).Some?
    then PeriodStart(Yearly, ParseDecimal(key).value + 1)
    else ZERO_DAY
  }

  lemma Powers()
    ensures Pow10(2) == 100 && Pow10(4) == 10000
  {
    assert Pow10(1) == 10 * Pow10(0);
    assert Pow10(2) == 10 * Pow10(1);
    assert Pow10(3) == 10 * Pow10(2);
  }

  lemma KeyParts(p: BillingPeriod, i: nat)
    requires YearOf(p, i) <= MAX_YEAR
    ensures p.Yearly? ==> |PeriodKey(p, i)| == 4 && ParseDecimal(PeriodKey(p, i)) == Some(i)
    ensures p.Monthly? ==>
      && |PeriodKey(p, i)| == 7 && PeriodKey(p, i)[4] == '-'
      && ParseDecimal(PeriodKey(p, i)[..4]) == Some(i / 12)
      && ParseDecimal(PeriodKey(p, i)[5..]) == Some(i % 12 + 1)
  {
    Powers();
    hide Padded, ParseDecimal, Pow10;
    match p
    case Yearly => ParsePadded(i, 4);
    case Monthly =>
      var year, month := Padded(i / 12, 4), Padded(i % 12 + 1, 2);
      ParsePadded(i / 12, 4);
      ParsePadded(i % 12 + 1, 2);
      var key := PeriodKey(p, i);
      assert key == year + "-" + month;
      assert key[..4] == year && key[5..] == month;
  }

  /** A key leads back to the end of the period it was made for. */
  lemma KeyEndInvertsKey(p: BillingPeriod, i: nat)
    requires YearOf(p, i) <= MAX_YEAR
    ensures PeriodKeyEnd(PeriodKey(p, i)) == PeriodStart(p, i + 1)
  {
    KeyParts(p, i);
    hide PeriodKey, ParseDecimal, PeriodStart;
    assert 12 * (i / 12) + i % 12 == i;
  }

  /** Keys name periods uniquely, in whatever year. */
  lemma KeyInjective(p: BillingPeriod, i: nat, j: nat)
    requires PeriodKey(p, i) == PeriodKey(p, j)
    ensures i == j
  {
    hide Padded;
    match p
    case Yearly => PaddedInjective(i, j);
    case Monthly =>
      Powers();
      ParsePadded(i % 12 + 1, 2);
      ParsePadded(j % 12 + 1, 2);
      var key, n := PeriodKey(p, i), |PeriodKey(p, i)| - 3;
      assert key[..n] == Padded(i / 12, 4) && key[n + 1..] == Padded(i % 12 + 1, 2);
      assert key[..n] == Padded(j / 12, 4) && key[n + 1..] == Padded(j % 12 + 1, 2);
      PaddedInjective(i / 12, j / 12);
      assert 12 * (i / 12) + i % 12 == i && 12 * (j / 12) + j % 12 == j;
  }

  lemma PaddedInjective(x: nat, y: nat)
    requires Padded(x, 4) == Padded(y, 4)
    ensures x == y
  {
    PaddedFits(x, 4);
    PaddedFits(y, 4);
    ParsePadded(x, |Padded(x, 4)|);
    ParsePadded(y, |Padded(x, 4)|);
    hide Padded, ParseDecimal;
  }

  /** String order of keys is calendar order, which is what taking max(period_key) relies on. */
  lemma KeyOrderIsCalendarOrder(p: BillingPeriod, i: nat, j: nat)
    requires YearOf(p, i) <= MAX_YEAR && YearOf(p, j) <= MAX_YEAR
    ensures LexLess(PeriodKey(p, i), PeriodKey(p, j)) <==> i < j
  {
    Powers();
    hide Padded, LexLess, Pow10;
    match p
    case Yearly => PaddedOrder(i, j, 4);
    case Monthly =>
      var yi, yj := Padded(i / 12, 4), Padded(j / 12, 4);
      var mi, mj := Padded(i % 12 + 1, 2), Padded(j % 12 + 1, 2);
      PaddedOrder(i / 12, j / 12, 4);
      PaddedOrder(i % 12 + 1, j % 12 + 1, 2);
      ParsePadded(i / 12, 4);
      ParsePadded(j / 12, 4);
      assert yi + "-" + mi == yi + ("-" + mi) && yj + "-" + mj == yj + ("-" + mj);
      LexConcat(yi, yj, "-" + mi, "-" + mj);
      LexConcat("-", "-", mi, mj);
      LexIrreflexive("-");
      assert 12 * (i / 12) + i % 12 == i && 12 * (j / 12) + j % 12 == j;
  }

  lemma {:induction false} LexIrreflexive(s: string)
    ensures !LexLess(s, s)
  {
    if s != [] { LexIrreflexive(s[1..]); }
  }

  // ---------- how far the bound of four-digit years reaches ----------

  /** The digits a year takes in a key. */
  function Width(y: nat): nat {
    |Padded(y, 4)|
  }

  lemma {:induction false} DecimalIsPadded(n: nat)
    ensures var w := |Decimal(n)|; 1 <= w && n < Pow10(w) && Padded(n, w) == Decimal(n)
    ensures forall k :: 0 <= k < |Decimal(n)| ==> IsDigit(Decimal(n)[k])
  {
    if n < 10 {
      assert Pow10(1) == 10 * Pow10(0) == 10;
    } else {
      DecimalIsPadded(n / 10);
    }
  }

  /** Padding to a width only fixes the number of digits. */
  lemma {:induction false} PaddedFits(n: nat, k: nat)
    requires 1 <= k
    ensures var w := |Padded(n, k)|; k <= w && n < Pow10(w) && Padded(n, w) == Padded(n, k)
    ensures forall d :: 0 <= d < |Padded(n, k)| ==> IsDigit(Padded(n, k)[d])
  {
    if k == 1 {
      DecimalIsPadded(n);
    } else {
      PaddedFits(n / 10, k - 1);
    }
  }

  lemma {:induction false} DecimalShort(n: nat, w: nat)
    requires 1 <= w && n < Pow10(w)
    ensures |Decimal(n)| <= w
  {
    if n >= 10 {
      assert Pow10(1) == 10 * Pow10(0);
      DecimalShort(n / 10, w - 1);
    }
  }

  lemma {:induction false} PaddedShort(n: nat, k: nat, w: nat)
    requires 1 <= k <= w && n < Pow10(w)
    ensures |Padded(n, k)| <= w
  {
    if k == 1 {
      DecimalShort(n, w);
    } else {
      PaddedShort(n / 10, k - 1, w - 1);
    }
  }

  /** Years after 9999 take more than four digits, and later years no fewer. */
  lemma WidthGrows(x: nat, y: nat)
    requires x <= y
    ensures 4 <= Width(x) <= Width(y) && (Width(x) == 4 <==> x <= MAX_YEAR)
  {
    PaddedFits(x, 4);
    PaddedFits(y, 4);
    PaddedShort(x, 4, Width(y));
    Powers();
    if x <= MAX_YEAR { PaddedShort(x, 4, 4); }
  }

  /**
   A key leads back to the end of its period if and only if the year has four digits; the key of a
   later year reads as no date at all.
   */
  lemma KeyEndInvertsIff(p: BillingPeriod, i: nat)
    ensures PeriodKeyEnd(PeriodKey(p, i)) == PeriodStart(p, i + 1) <==> YearOf(p, i) <= MAX_YEAR
    ensures YearOf(p, i) > MAX_YEAR ==> PeriodKeyEnd(PeriodKey(p, i)) == ZERO_DAY
  {
    if YearOf(p, i) <= MAX_YEAR {
      KeyEndInvertsKey(p, i);
    } else {
      LaterYearReadsAsNothing(p, i);
      PeriodStartIncreases(p, 0, i + 1);
      hide PeriodKey, PeriodKeyEnd, PeriodStart;
    }
  }

  lemma LaterYearReadsAsNothing(p: BillingPeriod, i: nat)
    requires YearOf(p, i) > MAX_YEAR
    ensures PeriodKeyEnd(PeriodKey(p, i)) == ZERO_DAY
  {
    var year := Padded(YearOf(p, i), 4);
    WidthGrows(YearOf(p, i), YearOf(p, i));
    PaddedFits(YearOf(p, i), 4);
    PaddedFits(i % 12 + 1, 2);
    hide Padded, ParseDecimal, PeriodStart;
    assert IsDigit(year[4]);
  }

  /** `y` without its last `k` digits. */
  function DropDigits(y: nat, k: nat): nat {
    if k == 0 then y else DropDigits(y / 10, k - 1)
  }

  lemma {:induction false} PaddedPrefix(y: nat, w: nat, u: nat)
    requires 1 <= u <= w && y < Pow10(w)
    ensures |Padded(y, w)| == w && Padded(y, w)[..u] == Padded(DropDigits(y, w - u), u) && DropDigits(y, w - u) < Pow10(u)
    decreases w
  {
    ParsePadded(y, w);
    if u == w {
      assert Padded(y, w)[..u] == Padded(y, w);
    } else {
      PaddedPrefix(y / 10, w - 1, u);
      assert Padded(y, w)[..u] == Padded(y / 10, w - 1)[..u] by {
        ParsePadded(y / 10, w - 1);
      }
    }
  }

  /** The leading digits of `y`, as many as `x` has. */
  function Leading(x: nat, y: nat): nat
    requires x <= y
  {
    WidthGrows(x, y);
    DropDigits(y, Width(y) - Width(x))
  }

  /** The text of `y` begins with its leading digits, and they compare with `x` as numbers. */
  lemma LeadingText(x: nat, y: nat)
    requires x <= y
    ensures Width(x) <= Width(y)
    ensures var front := Padded(y, 4)[..Width(x)];
      && |Padded(x, 4)| == |front|
      && (LexLess(Padded(x, 4), front) <==> x < Leading(x, y))
      && (Padded(x, 4) == front <==> x == Leading(x, y))
  {
    hide LexLess, ParseDecimal;
    WidthGrows(x, y);
    var u, w := Width(x), Width(y);
    PaddedFits(x, 4);
    PaddedFits(y, 4);
    PaddedPrefix(y, w, u);
    PaddedOrder(x, Leading(x, y), u);
    ParsePadded(x, u);
    ParsePadded(Leading(x, y), u);
    hide Padded, Pow10, DropDigits;
  }

  /** With an earlier year first, its leading digits decide, and what follows them only if they are equal. */
  lemma YearsDecide(x: nat, y: nat, s: string, t: string) returns (digits: string)
    requires x <= y
    ensures (forall k :: 0 <= k < |digits| ==> IsDigit(digits[k])) && (digits == [] <==> Width(x) == Width(y))
    ensures LexLess(Padded(x, 4) + s, Padded(y, 4) + t)
      <==> x < Leading(x, y) || (x == Leading(x, y) && LexLess(s, digits + t))
  {
    LeadingText(x, y);
    PaddedFits(y, 4);
    hide Padded, LexLess, Leading, Pow10;
    var a, b := Padded(x, 4), Padded(y, 4);
    digits := b[Width(x)..];
    assert b + t == b[..Width(x)] + (digits + t);
    LexConcat(a, b[..Width(x)], s, digits + t);
  }

  lemma LeadingOfSameWidth(x: nat, y: nat)
    requires x <= y && Width(x) == Width(y)
    ensures Leading(x, y) == y
  {
  }

  /**
   Text order is calendar order for exactly those pairs whose earlier year is not above the leading
   digits of the later one; among them is every pair of years with equally many digits.
   */
  lemma KeyOrderAgreesIff(p: BillingPeriod, i: nat, j: nat)
    requires i < j
    ensures YearOf(p, i) <= YearOf(p, j)
    ensures LexLess(PeriodKey(p, i), PeriodKey(p, j)) <==> YearOf(p, i) <= Leading(YearOf(p, i), YearOf(p, j))
  {
    var x, y := YearOf(p, i), YearOf(p, j);
    assert x <= y;
    if Width(x) == Width(y) { LeadingOfSameWidth(x, y); }
    hide Padded, LexLess, Leading, Width;
    match p
    case Yearly =>
      var digits := YearsDecide(x, y, [], []);
      assert Padded(x, 4) + [] == Padded(x, 4) && Padded(y, 4) + [] == Padded(y, 4);
      NothingIsLess(digits + []);
    case Monthly =>
      var mi, mj := Padded(i % 12 + 1, 2), Padded(j % 12 + 1, 2);
      var digits := YearsDecide(x, y, "-" + mi, "-" + mj);
      assert Padded(x, 4) + "-" + mi == Padded(x, 4) + ("-" + mi);
      assert Padded(y, 4) + "-" + mj == Padded(y, 4) + ("-" + mj);
      MonthsDecide(i, j, digits, mi, mj);
  }

  lemma NothingIsLess(s: string)
    ensures LexLess([], s) <==> s != []
  {
  }

  /** After equal leading digits a dash comes before a further digit; without one, the months decide. */
  lemma MonthsDecide(i: nat, j: nat, digits: string, mi: string, mj: string)
    requires mi == Padded(i % 12 + 1, 2) && mj == Padded(j % 12 + 1, 2)
    requires forall k :: 0 <= k < |digits| ==> IsDigit(digits[k])
    ensures digits != [] ==> LexLess("-" + mi, digits + ("-" + mj))
    ensures digits == [] && i / 12 == j / 12 && i < j ==> LexLess("-" + mi, digits + ("-" + mj))
  {
    hide Padded;
    if digits == [] {
      assert digits + ("-" + mj) == "-" + mj;
      Powers();
      PaddedOrder(i % 12 + 1, j % 12 + 1, 2);
      hide LexLess;
      LexConcat("-", "-", mi, mj);
      LexIrreflexive("-");
      assert 12 * (i / 12) + i % 12 == i && 12 * (j / 12) + j % 12 == j;
    } else {
      assert ("-" + mi)[0] == '-' && (digits + ("-" + mj))[0] == digits[0];
    }
  }

  /** So the bound on years is sharp: every period of the years 1001 to 9999 sorts after all of year 10000. */
  lemma KeysBreakInYear10000(p: BillingPeriod, i: nat, j: nat)
    requires 1000 < YearOf(p, i) <= MAX_YEAR && YearOf(p, j) == 10000
    ensures i < j && !LexLess(PeriodKey(p, i), PeriodKey(p, j))
  {
    assert i < j;
    KeyOrderAgreesIff(p, i, j);
    Powers();
    WidthGrows(YearOf(p, i), 10000);
    WidthGrows(10000, 10000);
    assert Pow10(5) == 10 * Pow10(4);
    PaddedShort(10000, 4, 5);
    assert Pow10(1) == 10 * Pow10(0);
    hide PeriodKey, LexLess, Width;
  }
}

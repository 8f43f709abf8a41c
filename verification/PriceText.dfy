/** The price printer (src/notifier.py, `_price`): ten significant digits, then eight decimals
    rounded down, comma groups, and no needless zeros. */
module PriceText {
  import opened Domain

  /** `Text` or the decimal library's InvalidOperation when the result needs over 28 digits. */
  datatype Printed = Text(text: string) | InvalidOperation

  function Pow10(n: nat): (p: nat)
    ensures p >= 1
  {
    if n == 0 then 1 else 10 * Pow10(n - 1)
  }

  // ---- rounding ----------------------------------------------------------------------------

  /** Nearest integer, ties to even. */
  function HalfEven(x: real): (r: nat)
    requires x >= 0.0
  {
    var rest := x - x.Floor as real;
    if rest < 0.5 || (rest == 0.5 && x.Floor % 2 == 0) then x.Floor else x.Floor + 1
  }

  predicate RoundsUp(x: real) {
    var rest := x - x.Floor as real;
    rest > 0.5 || (rest == 0.5 && x.Floor % 2 == 1)
  }

  /** How far a value is from having ten digits before the point. */
  function Distance(value: real): int
    requires value > 0.0
  {
    if value >= 10_000_000_000.0 then value.Floor
    else if value < 1_000_000_000.0 then (1_000_000_000.0 / value).Floor
    else 0
  }

  /** Power of ten of the last of ten significant digits. */
  function Exponent(value: real): int
    requires value > 0.0
    decreases Distance(value)
  {
    if value >= 10_000_000_000.0 then Exponent(value / 10.0) + 1
    else if value < 1_000_000_000.0 then Smaller(value); Exponent(value * 10.0) - 1
    else 0
  }

  lemma Smaller(value: real)
    requires 0.0 < value < 1_000_000_000.0
    ensures 0 <= (1_000_000_000.0 / (value * 10.0)).Floor < (1_000_000_000.0 / value).Floor
  {
    var x := 1_000_000_000.0 / value;
    assert x * value == 1_000_000_000.0;
    assert x > 1.0;
    assert x / 10.0 == 1_000_000_000.0 / (value * 10.0);
  }

  /** The value divided by the k-th power of ten. */
  function Scaled(value: real, k: int): real
    decreases if k < 0 then -k else k
  {
    if k == 0 then value else if k > 0 then Scaled(value / 10.0, k - 1) else Scaled(value * 10.0, k + 1)
  }

  lemma {:induction false} ScaledDown(value: real, k: int)
    ensures Scaled(value, k + 1) == Scaled(value, k) / 10.0
    decreases if k < 0 then -k else k
  {
    if k > 0 {
      ScaledDown(value / 10.0, k - 1);
    } else if k < 0 {
      ScaledDown(value * 10.0, k + 1);
    }
  }

  lemma {:induction false} ExponentSide(value: real)
    requires value > 0.0
    ensures value >= 1_000_000_000.0 ==> Exponent(value) >= 0
    ensures value < 10_000_000_000.0 ==> Exponent(value) <= 0
    decreases Distance(value)
  {
    if value >= 10_000_000_000.0 {
      ExponentSide(value / 10.0);
    } else if value < 1_000_000_000.0 {
      Smaller(value);
      ExponentSide(value * 10.0);
    }
  }

  /** Dividing by that power leaves ten digits before the point. */
  lemma {:induction false} ScaledExponent(value: real)
    requires value > 0.0
    ensures 1_000_000_000.0 <= Scaled(value, Exponent(value)) < 10_000_000_000.0
    decreases Distance(value)
  {
    if value >= 10_000_000_000.0 {
      ExponentSide(value / 10.0);
      ScaledExponent(value / 10.0);
    } else if value < 1_000_000_000.0 {
      Smaller(value);
      ExponentSide(value * 10.0);
      ScaledExponent(value * 10.0);
    }
  }

  /** The ten digits of `f"{value:.10g}"`; a carry may make them ten and a zero. */
  function Digits10(value: real): (m: nat)
    requires value > 0.0
  {
    ScaledExponent(value);
    HalfEven(Scaled(value, Exponent(value)))
  }

  /** The largest multiple of 1e-8 not above m times the k-th power of ten, in units of 1e-8. */
  function Units(m: nat, k: int): nat {
    if k >= -8 then Product(m, Pow10(k + 8)) else Quotient(m, Pow10(-8 - k))
  }

  function Product(a: nat, b: nat): nat { a * b }

  function Quotient(a: nat, b: nat): nat
    requires b > 0
  {
    a / b
  }

  /** The number that is printed, in units of 1e-8. */
  function Shown(value: real): nat
    requires value > 0.0
  {
    Units(Digits10(value), Exponent(value))
  }

  // ---- text --------------------------------------------------------------------------------

  function Digit(d: nat): char
    requires d < 10
  {
    '0' + d as char
  }

  function Decimal(n: nat): string {
    if n < 10 then [Digit(n)] else Decimal(n / 10) + [Digit(n % 10)]
  }

  /** Exactly `width` digits. */
  function Padded(n: nat, width: nat): (text: string)
    ensures |text| == width
  {
    if width == 0 then "" else Padded(n / 10, width - 1) + [Digit(n % 10)]
  }

  function Group(digits: string): string {
    if |digits| <= 3 then digits else Group(digits[..|digits| - 3]) + "," + digits[|digits| - 3..]
  }

  function RStrip(text: string): string {
    if text != "" && text[|text| - 1] == '0' then RStrip(text[..|text| - 1]) else text
  }

  function LJust(text: string, width: nat): string
    decreases width - |text|
  {
    if |text| >= width then text else LJust(text + "0", width)
  }

  function Fixed(units: nat): string {
    Group(Decimal(units / 100_000_000)) + "." + LJust(RStrip(Padded(units % 100_000_000, 8)), 2)
  }

  const DIGITS_LIMIT: nat := 10_000_000_000_000_000_000_000_000_000

  /** `_price`. */
  function Price(value: Option<real>): Printed {
    if value.None? then Text("-")
    else if value.value <= 0.0 then
      var cents := HalfEven(-value.value * 100.0);
      Text((if value.value < 0.0 then "-" else "") + Group(Decimal(cents / 100)) + "." + Padded(cents % 100, 2))
    else if Shown(value.value) >= DIGITS_LIMIT then InvalidOperation
    else Text(Fixed(Shown(value.value)))
  }

  // ---- reading it back ---------------------------------------------------------------------

  function StripCommas(text: string): string {
    if text == "" then ""
    else StripCommas(text[..|text| - 1]) + if text[|text| - 1] == ',' then "" else [text[|text| - 1]]
  }

  function Numeral(text: string): nat {
    if text == "" then 0
    else Numeral(text[..|text| - 1]) * 10 + if '0' <= text[|text| - 1] <= '9' then (text[|text| - 1] - '0') as nat
      else 0
  }

  /** Position of the first dot. */
  function Dot(text: string): (i: nat)
    ensures i <= |text|
  {
    if text == "" || text[0] == '.' then 0 else 1 + Dot(text[1..])
  }

  /** The number a reader sees, in units of 1e-8. */
  function Read(text: string): Option<nat> {
    var dot := Dot(text);
    if dot == |text| || |text| - dot - 1 > 8 then None else
    var decimals := text[dot + 1..];
    Some(Numeral(StripCommas(text[..dot])) * 100_000_000 + Numeral(decimals) * Pow10(8 - |decimals|))
  }

  ghost predicate AllDigits(text: string) {
    forall i :: 0 <= i < |text| ==> '0' <= text[i] <= '9'
  }

  lemma {:induction false} DecimalReads(n: nat)
    ensures AllDigits(Decimal(n)) && Numeral(Decimal(n)) == n
    ensures Decimal(n) != "" && (if n == 0 then Decimal(n) == "0" else Decimal(n)[0] != '0')
  {
    if n >= 10 {
      DecimalReads(n / 10);
    }
  }

  lemma {:induction false} PaddedReads(n: nat, width: nat)
    requires n < Pow10(width)
    ensures AllDigits(Padded(n, width)) && Numeral(Padded(n, width)) == n
  {
    if width > 0 {
      PaddedReads(n / 10, width - 1);
    }
  }

  lemma {:induction false} StripConcat(a: string, b: string)
    ensures StripCommas(a + b) == StripCommas(a) + StripCommas(b)
  {
    if b == "" {
      assert a + b == a;
    } else {
      assert (a + b)[..|a + b| - 1] == a + b[..|b| - 1];
      StripConcat(a, b[..|b| - 1]);
    }
  }

  lemma {:induction false} StripDigits(text: string)
    requires AllDigits(text)
    ensures StripCommas(text) == text
  {
    if text != "" {
      StripDigits(text[..|text| - 1]);
    }
  }

  /** Removing the commas undoes the grouping. */
  lemma {:induction false} GroupReads(digits: string)
    requires AllDigits(digits)
    ensures StripCommas(Group(digits)) == digits
  {
    if |digits| <= 3 {
      StripDigits(digits);
    } else {
      var front, last := digits[..|digits| - 3], digits[|digits| - 3..];
      GroupReads(front);
      StripLast(Group(front), last);
      StripDigits(last);
      assert digits == front + last;
    }
  }

  lemma StripLast(whole: string, last: string)
    ensures StripCommas(whole + "," + last) == StripCommas(whole) + StripCommas(last)
  {
    StripConcat(whole + ",", last);
    assert (whole + ",")[..|whole|] == whole;
  }

  /** Commas stand exactly before every third digit from the end. */
  ghost predicate Grouped(text: string) {
    && (forall i :: 0 <= i < |text| ==> (text[i] == ',' <==> (|text| - i) % 4 == 0))
    && (forall i :: 0 <= i < |text| && text[i] != ',' ==> '0' <= text[i] <= '9')
  }

  lemma {:induction false} GroupIsGrouped(digits: string)
    requires AllDigits(digits)
    ensures Grouped(Group(digits))
    ensures digits != "" ==> Group(digits) != "" && Group(digits)[0] == digits[0]
    ensures |digits| <= 3 ==> Group(digits) == digits
  {
    if |digits| > 3 {
      var front, last := digits[..|digits| - 3], digits[|digits| - 3..];
      GroupIsGrouped(front);
      GroupedMore(Group(front), last);
    }
  }

  lemma GroupedMore(whole: string, last: string)
    requires Grouped(whole) && AllDigits(last) && |last| == 3
    ensures Grouped(whole + "," + last)
  {
    var text := whole + "," + last;
    forall i | 0 <= i < |text|
      ensures text[i] == ',' <==> (|text| - i) % 4 == 0
      ensures text[i] != ',' ==> '0' <= text[i] <= '9'
    {
      assert i < |whole| ==> text[i] == whole[i] && |text| - i == |whole| - i + 4;
      assert i > |whole| ==> text[i] == last[i - |whole| - 1];
    }
  }

  /** Dropping a trailing zero multiplies the unit of the last digit by ten. */
  lemma {:induction false} RStripReads(text: string, width: nat)
    requires AllDigits(text) && |text| <= width
    ensures var kept := RStrip(text);
            && AllDigits(kept) && |kept| <= |text|
            && (kept != "" ==> kept[|kept| - 1] != '0')
            && Numeral(kept) * Pow10(width - |kept|) == Numeral(text) * Pow10(width - |text|)
  {
    if text != "" && text[|text| - 1] == '0' {
      var front := text[..|text| - 1];
      RStripReads(front, width);
      assert Pow10(width - |front|) == 10 * Pow10(width - |text|);
      TimesTen(Numeral(front), Pow10(width - |text|));
    }
  }

  lemma TimesTen(n: nat, p: nat)
    ensures n * (10 * p) == (n * 10) * p
  {
  }

  lemma {:induction false} LJustReads(text: string, least: nat, width: nat)
    requires AllDigits(text) && |text| <= width && least <= width
    ensures var padded := LJust(text, least);
            && AllDigits(padded) && |padded| == (if |text| < least then least else |text|)
            && (|text| >= least ==> padded == text)
            && Numeral(padded) * Pow10(width - |padded|) == Numeral(text) * Pow10(width - |text|)
    decreases least - |text|
  {
    if |text| < least {
      var longer := text + "0";
      assert longer[..|longer| - 1] == text;
      LJustReads(longer, least, width);
      TimesTen(Numeral(text), Pow10(width - |longer|));
    }
  }

  lemma {:induction false} DotAfter(whole: string, rest: string)
    requires forall i :: 0 <= i < |whole| ==> whole[i] != '.'
    ensures Dot(whole + "." + rest) == |whole|
  {
    var text := whole + "." + rest;
    if whole != "" {
      assert text[1..] == whole[1..] + "." + rest;
      DotAfter(whole[1..], rest);
    }
  }

  /** How a printed amount looks: comma groups, two to eight decimals, no zero past the second. */
  ghost predicate WellFormed(text: string) {
    var dot := Dot(text);
    && 0 < dot && dot + 2 < |text| <= dot + 9
    && Grouped(text[..dot]) && (text[0] == '0' ==> dot == 1)
    && AllDigits(text[dot + 1..]) && (|text| > dot + 3 ==> text[|text| - 1] != '0')
  }

  lemma ReadJoined(whole: string, tail: string)
    requires Grouped(whole) && |tail| <= 8
    ensures var text := whole + "." + tail;
            && Dot(text) == |whole| && text[..|whole|] == whole && text[|whole| + 1..] == tail
            && Read(text) == Some(Numeral(StripCommas(whole)) * 100_000_000 + Numeral(tail) * Pow10(8 - |tail|))
  {
    hide Numeral, StripCommas, Pow10, Dot, Grouped;
    NoDot(whole);
    DotAfter(whole, tail);
    Halves(whole, tail);
  }

  lemma NoDot(whole: string)
    requires Grouped(whole)
    ensures forall i :: 0 <= i < |whole| ==> whole[i] != '.'
  {
  }

  lemma Halves(whole: string, tail: string)
    ensures var text := whole + "." + tail;
            |text| == |whole| + 1 + |tail| && text[..|whole|] == whole && text[|whole| + 1..] == tail
  {
  }

  lemma TailReads(frac: string)
    requires AllDigits(frac) && |frac| == 8
    ensures var tail := LJust(RStrip(frac), 2);
            && 2 <= |tail| <= 8 && AllDigits(tail) && (|tail| > 2 ==> tail[|tail| - 1] != '0')
            && Numeral(tail) * Pow10(8 - |tail|) == Numeral(frac)
  {
    hide LJust, RStrip, Numeral;
    RStripReads(frac, 8);
    LJustReads(RStrip(frac), 2, 8);
    assert Pow10(0) == 1;
  }

  /** Reading a printed amount gives back exactly that amount. */
  lemma FixedReads(units: nat)
    ensures Read(Fixed(units)) == Some(units)
    ensures WellFormed(Fixed(units))
  {
    hide Decimal, Padded, Group, LJust, RStrip, StripCommas, Numeral, Dot, Pow10, Read, Grouped;
    var digits, frac := Decimal(units / 100_000_000), Padded(units % 100_000_000, 8);
    var whole, tail := Group(digits), LJust(RStrip(frac), 2);
    DecimalReads(units / 100_000_000);
    GroupReads(digits);
    GroupIsGrouped(digits);
    HundredMillion();
    PaddedReads(units % 100_000_000, 8);
    TailReads(frac);
    ReadJoined(whole, tail);
  }

  lemma HundredMillion()
    ensures Pow10(8) == 100_000_000
  {
    assert Pow10(4) == 10_000;
  }

  // ---- order -------------------------------------------------------------------------------

  lemma {:induction false} ScaledMonotone(x: real, y: real, k: int)
    requires x <= y
    ensures Scaled(x, k) <= Scaled(y, k)
    decreases if k < 0 then -k else k
  {
    if k > 0 {
      ScaledMonotone(x / 10.0, y / 10.0, k - 1);
    } else if k < 0 {
      ScaledMonotone(x * 10.0, y * 10.0, k + 1);
    }
  }

  lemma {:induction false} ScaledFurther(value: real, k: int, more: int)
    requires value > 0.0 && k < more
    ensures 0.0 <= Scaled(value, more) <= Scaled(value, k) / 10.0
    decreases more - k
  {
    ScaledDown(value, k);
    ScaledMonotone(0.0, value, k);
    ScaledZero(k);
    if k + 1 < more {
      ScaledFurther(value, k + 1, more);
    }
  }

  lemma {:induction false} ScaledZero(k: int)
    ensures Scaled(0.0, k) == 0.0
    decreases if k < 0 then -k else k
  {
    if k > 0 {
      ScaledZero(k - 1);
    } else if k < 0 {
      ScaledZero(k + 1);
    }
  }

  lemma ExponentMonotone(x: real, y: real)
    requires 0.0 < x <= y
    ensures Exponent(x) <= Exponent(y)
  {
    hide Exponent, Scaled;
    ScaledExponent(x);
    ScaledExponent(y);
    if Exponent(y) < Exponent(x) {
      ScaledMonotone(x, y, Exponent(x));
      ScaledFurther(y, Exponent(y), Exponent(x));
    }
  }

  lemma Times(a: nat, b: nat, p: nat)
    ensures a <= b ==> a * p <= b * p
  {
  }

  lemma ProductMonotone(a: nat, b: nat, p: nat)
    requires a <= b && p > 0
    ensures a * p <= b * p && a / p <= b / p
  {
    Times(a, b, p);
    assert a / p * p <= a;
    assert b < (b / p + 1) * p;
    Times(b / p + 1, a / p, p);
  }

  lemma DivideByTen(m: nat, p: nat)
    requires p > 0
    ensures (10 * m) / (10 * p) == m / p
  {
    var q := m / p;
    assert q * p <= m < (q + 1) * p;
    assert q * (10 * p) <= 10 * m < (q + 1) * (10 * p);
    QuotientIs(10 * m, 10 * p, q);
  }

  lemma QuotientIs(n: nat, d: nat, q: nat)
    requires d > 0 && q * d <= n < (q + 1) * d
    ensures n / d == q
  {
    var r := n / d;
    assert r * d <= n < (r + 1) * d;
    Times(r + 1, q, d);
    Times(q + 1, r, d);
  }

  /** Ten units of one exponent are one of the next. */
  lemma UnitsCarry(m: nat, k: int)
    ensures Units(10 * m, k) == Units(m, k + 1)
  {
    if k >= -8 {
      TimesTen(m, Pow10(k + 8));
    } else if k == -9 {
      assert Pow10(1) == 10;
    } else {
      DivideByTen(m, Pow10(-9 - k));
    }
  }

  lemma UnitsMonotone(a: nat, b: nat, k: int)
    requires a <= b
    ensures Units(a, k) <= Units(b, k)
  {
    ProductMonotone(a, b, if k >= -8 then Pow10(k + 8) else Pow10(-8 - k));
  }

  lemma {:induction false} UnitsGrow(m: nat, k: int, more: int)
    requires k <= more
    ensures Units(m, k) <= Units(m, more)
    decreases more - k
  {
    if k < more {
      UnitsMonotone(m, 10 * m, k);
      UnitsCarry(m, k);
      UnitsGrow(m, k + 1, more);
    }
  }

  lemma DigitsInRange(value: real)
    requires value > 0.0
    ensures 1_000_000_000 <= Digits10(value) <= 10_000_000_000
  {
    hide Scaled, Exponent;
    ScaledExponent(value);
  }

  /** A higher price is never printed as a lower amount. */
  lemma ShownMonotone(x: real, y: real)
    requires 0.0 < x <= y
    ensures Shown(x) <= Shown(y)
  {
    hide Scaled, Exponent, Units;
    var j, k := Exponent(x), Exponent(y);
    ExponentMonotone(x, y);
    DigitsInRange(x);
    DigitsInRange(y);
    ScaledExponent(x);
    ScaledExponent(y);
    if j == k {
      ScaledMonotone(x, y, k);
      UnitsMonotone(Digits10(x), Digits10(y), k);
    } else {
      UnitsMonotone(Digits10(x), 10_000_000_000, j);
      UnitsCarry(1_000_000_000, j);
      UnitsGrow(1_000_000_000, j + 1, k);
      UnitsMonotone(1_000_000_000, Digits10(y), k);
    }
  }

  // ---- what the rounding does ----------------------------------------------------------------

  /** Only one power of ten leaves ten digits before the point. */
  lemma ExponentIs(value: real, k: int)
    requires value > 0.0
    ensures Exponent(value) == k <==> 1_000_000_000.0 <= Scaled(value, k) < 10_000_000_000.0
  {
    hide Exponent, Scaled;
    ScaledExponent(value);
    if Exponent(value) < k {
      ScaledFurther(value, Exponent(value), k);
    } else if k < Exponent(value) {
      ScaledFurther(value, k, Exponent(value));
    }
  }

  lemma {:induction false} ScaledBy(value: real, k: int, j: nat)
    ensures Scaled(value, k) == Scaled(value, k + j) * Pow10(j) as real
  {
    hide Scaled;
    if j > 0 {
      ScaledBy(value, k, j - 1);
      ScaledDown(value, k + j - 1);
      TenTimes(Scaled(value, k + j), Pow10(j - 1));
    }
  }

  lemma TenTimes(x: real, p: nat)
    ensures x * 10.0 * p as real == x * (10 * p) as real
  {
    assert (10 * p) as real == 10.0 * p as real;
  }

  lemma Hundredths(value: real)
    ensures Scaled(value, -8) == value * 100_000_000.0
  {
    ScaledBy(value, -8, 8);
    HundredMillion();
    assert Scaled(value, 0) == value;
  }

  lemma Compare(x: real, y: real, p: nat)
    requires p > 0
    ensures x <= y <==> x * p as real <= y * p as real
  {
    assert (y - x) * p as real == y * p as real - x * p as real;
    if x > y {
      assert (x - y) * p as real > 0.0;
    }
  }

  lemma FloorTimes(m: nat, p: nat)
    requires p > 0
    ensures m / p * p <= m < (m / p + 1) * p
  {
  }

  lemma RealProduct(a: nat, b: nat)
    ensures (a * b) as real == a as real * b as real
  {
  }

  lemma MultipleBelow(c: nat, p: nat, m: nat, x: real)
    requires p > 0 && m as real == x * p as real
    ensures c as real <= x <==> c * p <= m
  {
    RealProduct(c, p);
    Compare(c as real, x, p);
  }

  lemma BetweenMultiples(m: nat, p: nat, c: nat, x: real)
    requires p > 0 && m as real == x * p as real && c * p <= m < (c + 1) * p
    ensures c as real <= x < c as real + 1.0
  {
    MultipleBelow(c, p, m, x);
    MultipleBelow(c + 1, p, m, x);
  }

  lemma QuotientBounds(m: nat, p: nat)
    requires p > 0
    ensures Quotient(m, p) * p <= m < (Quotient(m, p) + 1) * p
  {
    FloorTimes(m, p);
  }

  /** `Units` is the floor: the m that stand for m tenth digits, cut to whole units of 1e-8. */
  lemma UnitsIsFloor(m: nat, k: int)
    ensures Units(m, k) as real <= Scaled(m as real, -8 - k) < Units(m, k) as real + 1.0
  {
    hide Scaled, Pow10, Quotient, Product;
    var x := Scaled(m as real, -8 - k);
    ScaledNot(m as real);
    if k >= -8 {
      ScaledBy(m as real, -8 - k, k + 8);
      ProductIs(m, Pow10(k + 8));
    } else {
      ScaledBy(m as real, 0, -8 - k);
      QuotientBounds(m, Pow10(-8 - k));
      BetweenMultiples(m, Pow10(-8 - k), Quotient(m, Pow10(-8 - k)), x);
    }
  }

  lemma ProductIs(a: nat, b: nat)
    ensures Product(a, b) as real == a as real * b as real
  {
    RealProduct(a, b);
  }

  lemma ScaledNot(value: real)
    ensures Scaled(value, 0) == value
  {
  }

  /** The printed amount is the value rounded to ten significant digits, ties to even, and then cut
      down to 1e-8. */
  lemma ShownIsFloorOfTenDigits(value: real)
    requires value > 0.0
    ensures var k, m := Exponent(value), Digits10(value);
            && 1_000_000_000.0 <= Scaled(value, k) < 10_000_000_000.0
            && -0.5 <= m as real - Scaled(value, k) <= 0.5
            && (m as real - Scaled(value, k) == 0.5 || m as real - Scaled(value, k) == -0.5 ==> m % 2 == 0)
            && Shown(value) as real <= Scaled(m as real, -8 - k) < Shown(value) as real + 1.0
  {
    hide Scaled, Exponent, Units;
    ScaledExponent(value);
    UnitsIsFloor(Digits10(value), Exponent(value));
  }

  /** The cut is not a floor of the value itself: the shown price exceeds the value exactly when
      the tenth digit was rounded up and nothing of it was cut off afterwards. */
  lemma ShownAboveIff(value: real)
    requires value > 0.0
    ensures var k, m := Exponent(value), Digits10(value);
            Shown(value) as real > value * 100_000_000.0
            <==> RoundsUp(Scaled(value, k)) && (k >= -8 || m % Pow10(-8 - k) == 0)
  {
    hide Scaled, Exponent, Pow10, Product, Quotient, HalfEven, RoundsUp;
    var k, m := Exponent(value), Digits10(value);
    ScaledExponent(value);
    var s := Scaled(value, k);
    RoundedUpIff(s);
    Hundredths(value);
    if k >= -8 {
      ScaledBy(value, -8, k + 8);
      WholeAbove(m, Pow10(k + 8), s, Scaled(value, -8));
    } else {
      ScaledBy(value, k, -8 - k);
      HalfEvenNear(s);
      CutAbove(m, Pow10(-8 - k), s, Scaled(value, -8));
    }
  }

  lemma WholeAbove(m: nat, p: nat, s: real, v: real)
    requires p > 0 && v == s * p as real
    ensures Product(m, p) as real > v <==> m as real > s
  {
    ProductIs(m, p);
    Compare(m as real, s, p);
  }

  lemma HalfEvenNear(x: real)
    requires x >= 0.0
    ensures -0.5 <= HalfEven(x) as real - x <= 0.5
  {
  }

  lemma RoundedUpIff(x: real)
    requires x >= 0.0
    ensures RoundsUp(x) <==> HalfEven(x) as real > x
  {
  }

  /** Cutting m, the rounded s, to a whole multiple of p leaves more than s only if it cuts nothing. */
  lemma CutAbove(m: nat, p: nat, s: real, v: real)
    requires p > 0 && -0.5 <= m as real - s <= 0.5 && s == v * p as real
    ensures Quotient(m, p) as real > v <==> m as real > s && m % p == 0
  {
    hide Quotient;
    var c := Quotient(m, p);
    Compare(c as real, v, p);
    RealProduct(c, p);
    QuotientBounds(m, p);
    CutWhole(m, p, c);
    NoIntegerBetween(c * p, m, s);
  }

  lemma NoIntegerBetween(low: nat, m: nat, s: real)
    requires low <= m && -0.5 <= m as real - s <= 0.5
    ensures low as real > s <==> m as real > s && low == m
  {
  }

  lemma CutWhole(m: nat, p: nat, c: nat)
    requires p > 0 && c == Quotient(m, p)
    ensures m % p == 0 <==> c * p == m
  {
    assert m == m / p * p + m % p;
  }

  /** A value of at most ten significant digits is only cut, never raised. */
  lemma TenDigitsAreCut(value: real)
    requires value > 0.0
    requires Scaled(value, Exponent(value)) == Scaled(value, Exponent(value)).Floor as real
    ensures Shown(value) == (value * 100_000_000.0).Floor
  {
    hide Scaled, Exponent, Units;
    var k := Exponent(value);
    ScaledExponent(value);
    UnitsIsFloor(Digits10(value), k);
    Hundredths(value);
    ScaledTwice(value, k, -8 - k);
  }

  lemma {:induction false} ScaledTwice(value: real, j: int, k: int)
    ensures Scaled(Scaled(value, j), k) == Scaled(value, j + k)
    decreases if k < 0 then -k else k
  {
    if k > 0 {
      ScaledTwice(value, j, k - 1);
      ScaledDown(Scaled(value, j), k - 1);
      ScaledDown(value, j + k - 1);
    } else if k < 0 {
      ScaledTwice(value, j, k + 1);
      ScaledDown(Scaled(value, j), k);
      ScaledDown(value, j + k);
    }
  }

  /** A value of the form m times a power of ten, m below 1e10, has at most ten digits. */
  lemma AtMostTenDigits(m: nat, j: int)
    requires 0 < m < 10_000_000_000
    ensures var value := Scaled(m as real, -j);
            && value > 0.0
            && Scaled(value, Exponent(value)) == Scaled(value, Exponent(value)).Floor as real
  {
    hide Scaled, Exponent, Pow10;
    var value := Scaled(m as real, -j);
    ScaledPositive(m as real, -j);
    ScaledTwice(m as real, -j, j);
    ScaledNot(m as real);
    ScaledExponent(value);
    var e := Exponent(value);
    if j < e {
      ScaledFurther(value, j, e);
    } else {
      ScaledBy(value, e, j - e);
      Whole(m, Pow10(j - e), Scaled(value, e));
    }
  }

  lemma Whole(m: nat, p: nat, x: real)
    requires x == m as real * p as real
    ensures x == x.Floor as real
  {
    RealProduct(m, p);
    FloorOf(m * p, x);
  }

  lemma FloorOf(n: nat, x: real)
    requires x == n as real
    ensures x == x.Floor as real
  {
  }

  lemma {:induction false} ScaledPositive(value: real, k: int)
    requires value > 0.0
    ensures Scaled(value, k) > 0.0
    decreases if k < 0 then -k else k
  {
    if k > 0 {
      ScaledPositive(value / 10.0, k - 1);
    } else if k < 0 {
      ScaledPositive(value * 10.0, k + 1);
    }
  }

  lemma {:induction false} ScaledTimes(value: real, factor: real, product: real, k: int)
    requires product == value * factor
    ensures Scaled(product, k) == Scaled(value, k) * factor
    decreases if k < 0 then -k else k
  {
    hide Scaled;
    TenthTimes(value, factor);
    ScaledStep(value, k);
    ScaledStep(product, k);
    if k > 0 {
      ScaledTimes(value / 10.0, factor, product / 10.0, k - 1);
    } else if k < 0 {
      ScaledTimes(value * 10.0, factor, product * 10.0, k + 1);
    }
  }

  lemma ScaledStep(value: real, k: int)
    ensures Scaled(value, k)
            == if k == 0 then value else if k > 0 then Scaled(value / 10.0, k - 1) else Scaled(value * 10.0, k + 1)
  {
  }

  lemma TenthTimes(value: real, factor: real)
    ensures (value * factor) / 10.0 == (value / 10.0) * factor
    ensures (value * factor) * 10.0 == (value * 10.0) * factor
    ensures value * (factor / 100.0) == (value * factor) / 100.0
  {
  }

  lemma TenDigitPrice(price: real, m: nat, j: int)
    requires 0 < m < 10_000_000_000 && price == Scaled(m as real, -j)
    ensures price > 0.0 && Shown(price) == (price * 100_000_000.0).Floor
  {
    hide Scaled, Exponent, Shown;
    AtMostTenDigits(m, j);
    TenDigitsAreCut(price);
  }

  /** An entry price of at most seven significant digits times a whole percentage below 1000 is
      never shown above its value: it is only cut to 1e-8. */
  lemma PercentageIsCut(digits: nat, j: int, percent: nat)
    requires 0 < digits < 10_000_000 && 0 < percent < 1000
    ensures var price := Scaled(digits as real, -j) * (percent as real / 100.0);
            price > 0.0 && Shown(price) == (price * 100_000_000.0).Floor
  {
    hide Scaled, Shown;
    DigitsTimes(digits, percent);
    PercentOf(digits, percent, j);
    TenDigitPrice(Scaled(digits as real, -j) * (percent as real / 100.0), digits * percent, j - 2);
  }

  lemma PercentOf(digits: nat, percent: nat, j: int)
    ensures Scaled(digits as real, -j) * (percent as real / 100.0) == Scaled((digits * percent) as real, -(j - 2))
  {
    hide Scaled;
    var m := digits * percent;
    RealProduct(digits, percent);
    TenthTimes(Scaled(digits as real, -j), percent as real);
    ScaledTimes(digits as real, percent as real, m as real, -j);
    ScaledDown(m as real, -j);
    ScaledDown(m as real, -j + 1);
  }

  lemma DigitsTimes(digits: nat, percent: nat)
    requires 0 < digits < 10_000_000 && 0 < percent < 1000
    ensures 0 < digits * percent < 10_000_000_000
  {
    Times(digits, 10_000_000, percent);
    Times(1, digits, percent);
  }

  lemma ScaledFour(value: real)
    ensures Scaled(value, -4) == value * 10_000.0
    ensures Scaled(value, -9) == value * 1_000_000_000.0
  {
    Hundredths(value);
    ScaledDown(value, -9);
    ScaledDown(value, -8);
    ScaledDown(value, -7);
    ScaledDown(value, -6);
    ScaledDown(value, -5);
  }

  // ---- the printer -----------------------------------------------------------------------------

  /** From this value on the ten digits carry to 1e20. */
  const TOO_LARGE := 99_999_999_995_000_000_000.0

  lemma ScaledTen(value: real)
    ensures Scaled(value, 10) == value / 10_000_000_000.0
  {
    ScaledBy(value, 0, 10);
    ScaledNot(value);
    HundredMillion();
    assert Pow10(9) == 1_000_000_000;
    assert Pow10(10) == 10_000_000_000;
  }

  lemma LimitUnits()
    ensures Units(10_000_000_000, 10) == DIGITS_LIMIT
    ensures Units(9_999_999_999, 10) < DIGITS_LIMIT
    ensures Units(10_000_000_000, 9) < DIGITS_LIMIT
  {
    HundredMillion();
    assert Pow10(12) == 1_000_000_000_000;
    assert Pow10(16) == 10_000_000_000_000_000;
    assert Pow10(17) == 100_000_000_000_000_000;
    assert Pow10(18) == 1_000_000_000_000_000_000;
  }

  lemma HalfEvenOf(x: real)
    requires x >= 0.0
    ensures x == 9_999_999_999.5 ==> HalfEven(x) == 10_000_000_000
    ensures x < 9_999_999_999.5 ==> HalfEven(x) <= 9_999_999_999
  {
  }

  lemma LimitShown()
    ensures Shown(TOO_LARGE) == DIGITS_LIMIT
    ensures Exponent(TOO_LARGE) == 10
  {
    hide Scaled, Exponent, Units, HalfEven;
    ScaledTen(TOO_LARGE);
    ExponentIs(TOO_LARGE, 10);
    HalfEvenOf(9_999_999_999.5);
    LimitUnits();
  }

  /** The decimal library refuses exactly the values from TOO_LARGE on. */
  lemma RefusedIff(value: real)
    requires value > 0.0
    ensures Price(Some(value)).InvalidOperation? <==> value >= TOO_LARGE
  {
    hide Scaled, Exponent, Units, HalfEven, Fixed, Group, Decimal, Padded;
    LimitShown();
    if value >= TOO_LARGE {
      ShownMonotone(TOO_LARGE, value);
    } else {
      BelowLimit(value);
    }
  }

  lemma BelowLimit(value: real)
    requires 0.0 < value < TOO_LARGE
    ensures Shown(value) < DIGITS_LIMIT
  {
    hide Scaled, Exponent, Units, HalfEven;
    LimitShown();
    LimitUnits();
    ScaledTen(value);
    ExponentMonotone(value, TOO_LARGE);
    DigitsInRange(value);
    if Exponent(value) == 10 {
      ScaledExponent(value);
      HalfEvenOf(Scaled(value, 10));
      UnitsMonotone(Digits10(value), 9_999_999_999, 10);
    } else {
      UnitsMonotone(Digits10(value), 10_000_000_000, Exponent(value));
      UnitsGrow(10_000_000_000, Exponent(value), 9);
    }
  }

  /** A printed price reads back as exactly the amount shown, in the promised form. */
  lemma PriceReads(value: real)
    requires 0.0 < value < TOO_LARGE
    ensures var printed := Price(Some(value));
            printed.Text? && WellFormed(printed.text) && Read(printed.text) == Some(Shown(value))
  {
    hide Shown, Fixed, WellFormed, Read;
    RefusedIff(value);
    FixedReads(Shown(value));
  }

  /** Printing keeps the order, and two prices look alike exactly when they show the same amount. */
  lemma PriceKeepsOrder(x: real, y: real)
    requires 0.0 < x <= y < TOO_LARGE
    ensures var a, b := Price(Some(x)), Price(Some(y));
            && a.Text? && b.Text? && Read(a.text).Some? && Read(b.text).Some?
            && Read(a.text).value <= Read(b.text).value
            && (a == b <==> Shown(x) == Shown(y))
  {
    hide Shown, Fixed, WellFormed, Read;
    PriceReads(x);
    PriceReads(y);
    ShownMonotone(x, y);
  }

  lemma CentsRead(cents: nat)
    ensures var body := Group(Decimal(cents / 100)) + "." + Padded(cents % 100, 2);
            && Read(body) == Some(cents * 1_000_000)
            && |body| == Dot(body) + 3 && Grouped(body[..Dot(body)])
  {
    hide Decimal, Padded, Group, StripCommas, Numeral, Dot, Pow10, Read, Grouped;
    DecimalReads(cents / 100);
    GroupReads(Decimal(cents / 100));
    GroupIsGrouped(Decimal(cents / 100));
    Hundred();
    PaddedReads(cents % 100, 2);
    ReadJoined(Group(Decimal(cents / 100)), Padded(cents % 100, 2));
  }

  /** Zero and below: the nearest cent with two decimals, and a sign even on a rounded zero. */
  lemma NonPositiveReads(value: real)
    requires value <= 0.0
    ensures var cents := HalfEven(-value * 100.0);
            && -0.5 <= cents as real + value * 100.0 <= 0.5
            && exists body :: Price(Some(value)) == Text((if value < 0.0 then "-" else "") + body)
                              && Read(body) == Some(cents * 1_000_000) && |body| == Dot(body) + 3
                                && Grouped(body[..Dot(body)])
  {
    hide Decimal, Padded, Group, Dot, Read, Grouped, HalfEven, Fixed, Shown;
    var cents := HalfEven(-value * 100.0);
    HalfEvenNear(-value * 100.0);
    CentsRead(cents);
    SignFirst(if value < 0.0 then "-" else "", Group(Decimal(cents / 100)), Padded(cents % 100, 2));
    var body := Group(Decimal(cents / 100)) + "." + Padded(cents % 100, 2);
    assert Price(Some(value)) == Text((if value < 0.0 then "-" else "") + body);
  }

  lemma SignFirst(sign: string, whole: string, tail: string)
    ensures sign + whole + "." + tail == sign + (whole + "." + tail)
  {
  }

  lemma Hundred()
    ensures Pow10(2) == 100 && Pow10(6) == 1_000_000
  {
  }
}

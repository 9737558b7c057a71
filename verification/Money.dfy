/** Prices as decimal text, as whole billionths of a dollar, and as printed dollars. */
module Money {
  import opened Decimals
  import opened Options
  import opened Splitting

  const NANOS_PER_USD := 1_000_000_000
  const MAX_NANOS := 9_223_372_036_854_775_807
  const MONEY_LENGTH := 32

  // ---------------------------------------------------------------- reading a price

  /** The decimal number `units / 10^scale`. */
  datatype Amount = Amount(units: nat, scale: nat)

  /** Digits, and perhaps a point with one to nine digits after it. */
  function ReadAmount(s: string): (a: Option<Amount>)
    ensures a.Some? ==> a.value.scale <= 9
  {
    var parts := Split('.', s);
    if parts[0] == "" || !AllDigits(parts[0]) then None
    else if |parts| == 1 then Some(Amount(ValueOf(parts[0], 0), 0))
    else if |parts| == 2 && 1 <= |parts[1]| <= 9 && AllDigits(parts[1]) then
      Some(Amount(ValueOf(parts[1], ValueOf(parts[0], 0)), |parts[1]|))
    else None
  }

  predicate DecimalAt(s: string, k: nat)
    requires k < |s|
  {
    k > 0 && s[k] == '.' && AllDigits(s[..k]) && AllDigits(s[k + 1..]) && 1 <= |s| - k - 1 <= 9
  }

  lemma WholeAmount(s: string)
    requires s != "" && AllDigits(s)
    ensures ReadAmount(s) == Some(Amount(ValueOf(s, 0), 0))
  {
    DigitsOnly(s, '.');
    SplitWhole('.', s);
    hide Split, ValueOf;
  }

  lemma PointedAmount(s: string, k: nat)
    requires k < |s| && DecimalAt(s, k)
    ensures ReadAmount(s) == Some(Amount(ValueOf(s[k + 1..], ValueOf(s[..k], 0)), |s| - k - 1))
  {
    hide ReadAmount, ValueOf;
    assert s == s[..k] + "." + s[k + 1..];
    ReadWholeAndFraction(s[..k], s[k + 1..]);
  }

  lemma AmountIsDecimal(s: string)
    requires ReadAmount(s).Some?
    ensures (s != "" && AllDigits(s)) || exists k :: 0 <= k < |s| && DecimalAt(s, k)
  {
    var parts := Split('.', s);
    JoinOfSplit('.', s);
    hide Split, ValueOf;
    if |parts| == 2 {
      assert parts[1..] == [parts[1]];
      assert s == parts[0] + ['.'] + parts[1];
      assert s[..|parts[0]|] == parts[0] && s[|parts[0]| + 1..] == parts[1];
      assert DecimalAt(s, |parts[0]|);
    }
  }

  /** A text names an amount exactly when it is digits, or digits, a point and one to nine digits; and it is the amount they write. */
  lemma AmountExactly(s: string)
    ensures ReadAmount(s).Some? <==> (s != "" && AllDigits(s)) || exists k :: 0 <= k < |s| && DecimalAt(s, k)
    ensures s != "" && AllDigits(s) ==> ReadAmount(s) == Some(Amount(ValueOf(s, 0), 0))
    ensures forall k :: 0 <= k < |s| && DecimalAt(s, k) ==>
      ReadAmount(s) == Some(Amount(ValueOf(s[k + 1..], ValueOf(s[..k], 0)), |s| - k - 1))
  {
    hide ReadAmount, ValueOf;
    if s != "" && AllDigits(s) { WholeAmount(s); }
    forall k | 0 <= k < |s| && DecimalAt(s, k) ensures ReadAmount(s) == Some(Amount(ValueOf(s[k + 1..], ValueOf(s[..k], 0)), |s| - k - 1)) {
      PointedAmount(s, k);
    }
    if ReadAmount(s).Some? { AmountIsDecimal(s); }
  }

  /** The amount in billionths of a dollar. */
  function ExactNanos(a: Amount): nat
    requires a.scale <= 9
  {
    a.units * Pow10(9 - a.scale)
  }

  predicate SameAmount(a: Amount, b: Amount) { a.units * Pow10(b.scale) == b.units * Pow10(a.scale) }

  /** The unit of the twentieth significant digit. */
  function LastPlace(n: nat): (unit: nat)
    ensures unit >= 1 && (n < Pow10(20) ==> unit == 1)
  {
    if n < Pow10(20) then 1 else 10 * LastPlace(n / 10)
  }

  lemma DivideNat(x: nat, unit: nat)
    requires unit >= 1
    ensures x / unit >= 0
  {
  }

  /** A product, rounded half up to the twenty significant digits the decimal library keeps. */
  function Rounded(n: nat): nat {
    var unit := LastPlace(n);
    DivideNat(n + unit / 2, unit);
    var places: nat := (n + unit / 2) / unit;
    places * unit
  }

  predicate IsMoney(s: string) {
    |s| <= MONEY_LENGTH && ReadAmount(s).Some? && Rounded(ExactNanos(ReadAmount(s).value)) <= MAX_NANOS
  }

  /** The billionths stored for a price, or the refusal of a text that is no price. */
  function NanosPerMtok(s: string): Option<nat> {
    if IsMoney(s) then Some(Rounded(ExactNanos(ReadAmount(s).value))) else None
  }

  lemma MulAtLeast(a: nat, b: nat, c: nat)
    requires a >= b
    ensures a * c >= b * c
  {
  }

  lemma Associate(a: nat, b: nat, c: nat)
    ensures (a * b) * c == a * (b * c)
  {
  }

  lemma DivideAtLeast(x: nat, unit: nat, p: nat)
    requires unit >= 1 && x >= unit * p
    ensures x / unit >= p
  {
    var q, r := x / unit, x % unit;
    assert x == unit * q + r && r < unit;
    if q < p { MulLess(unit, q + 1, p); }
  }

  lemma MulLess(unit: nat, q: int, p: int)
    requires q <= p
    ensures unit * q <= unit * p
  {
  }

  lemma Cancel(a: nat, b: nat, p: nat)
    requires p >= 1 && a * p == b * p
    ensures a == b
  {
  }

  lemma {:induction false} LastPlaceDivides(n: nat)
    requires n >= Pow10(20)
    ensures n >= LastPlace(n) * Pow10(19)
  {
    assert Pow10(20) == 10 * Pow10(19);
    var m, p := n / 10, Pow10(19);
    hide Pow10;
    if m >= Pow10(20) {
      LastPlaceDivides(m);
      Associate(10, LastPlace(m), p);
    } else {
      assert LastPlace(m) == 1;
    }
  }

  lemma RoundsHigh(n: nat, unit: nat, p: nat)
    requires unit >= 1 && n >= unit * p
    ensures (n + unit / 2) / unit * unit >= p
  {
    DivideAtLeast(n + unit / 2, unit, p);
    var q := (n + unit / 2) / unit;
    MulAtLeast(q, p, unit);
    MulAtLeast(unit, 1, p);
  }

  lemma RoundedLow(n: nat)
    requires n < Pow10(20)
    ensures Rounded(n) == n
  {
    hide Pow10;
    assert LastPlace(n) == 1;
  }

  lemma RoundedHigh(n: nat)
    requires n >= Pow10(20)
    ensures Rounded(n) >= Pow10(19)
  {
    hide Pow10, LastPlace;
    LastPlaceDivides(n);
    RoundsHigh(n, LastPlace(n), Pow10(19));
  }

  lemma TwentyDigits()
    ensures Pow10(9) == NANOS_PER_USD && Pow10(4) == 10_000 && Pow10(5) == 100_000 && MAX_NANOS < Pow10(19)
  {
    assert Pow10(5) == 100_000;
    Pow10Sum(5, 5);
    assert Pow10(10) == 10_000_000_000;
    assert Pow10(4) == 10_000;
    Pow10Sum(5, 4);
    assert Pow10(9) == 1_000_000_000;
    Pow10Sum(10, 9);
  }

  /**
    Twenty digits never round a price that is accepted: a text is a price exactly when the amount
    it names fits, and the stored billionths are then that amount exactly.
   */
  lemma StoredExactly(s: string)
    ensures IsMoney(s) <==> |s| <= 32 && ReadAmount(s).Some? && ExactNanos(ReadAmount(s).value) <= 9_223_372_036_854_775_807
    ensures IsMoney(s) ==> NanosPerMtok(s) == Some(ExactNanos(ReadAmount(s).value))
    ensures IsMoney(s) ==> SameAmount(ReadAmount(s).value, Amount(NanosPerMtok(s).value, 9))
  {
    hide Split, Rounded;
    if ReadAmount(s).Some? {
      var a := ReadAmount(s).value;
      TwentyDigits();
      assert Pow10(20) == 10 * Pow10(19);
      if ExactNanos(a) < Pow10(20) { RoundedLow(ExactNanos(a)); } else { RoundedHigh(ExactNanos(a)); }
      ScaledNanos(a);
    }
  }

  // ---------------------------------------------------------------- printing

  function Zeros(k: nat): string { if k == 0 then "" else "0" + Zeros(k - 1) }

  function PadStart(s: string, width: nat): string { if |s| >= width then s else Zeros(width - |s|) + s }

  function PadEnd(s: string, width: nat): string
    decreases width - |s|
  {
    if |s| >= width then s else PadEnd(s + "0", width)
  }

  function TrimZeros(s: string): string {
    if s != "" && s[|s| - 1] == '0' then TrimZeros(s[..|s| - 1]) else s
  }

  /** Thousands separated by commas. */
  function Grouped(n: nat): string {
    if n < 1000 then Decimal(n) else Grouped(n / 1000) + "," + PadStart(Decimal(n % 1000), 3)
  }

  /** `f / 10^k` as digits after a point: trailing zeros dropped, but two digits kept. */
  function Fraction(f: nat, k: nat): string { PadEnd(TrimZeros(PadStart(Decimal(f), k)), 2) }

  function Printed(whole: nat, f: nat, k: nat): string { "$" + Grouped(whole) + "." + Fraction(f, k) }

  function FormatRate(nanos: nat): string { Printed(nanos / NANOS_PER_USD, nanos % NANOS_PER_USD, 9) }

  const SUBVISIBLE_DEBT := ">-$0.0001"

  /** Ten-thousandths of a dollar, rounded half up. */
  function DisplayUnits(nanos: nat): nat { (nanos + 50_000) / 100_000 }

  function Shown(units: nat): string { Printed(units / 10_000, units % 10_000, 4) }

  function FormatDollars(nanos: int): string {
    var units := DisplayUnits(if nanos < 0 then -nanos else nanos);
    if nanos < 0 && units == 0 then SUBVISIBLE_DEBT
    else (if nanos < 0 then "-" else "") + Shown(units)
  }

  // ---------------------------------------------------------------- reading what was printed

  function WithoutCommas(s: string): string {
    if s == "" then "" else (if s[0] == ',' then "" else [s[0]]) + WithoutCommas(s[1..])
  }

  function ReadPrinted(s: string): Option<Amount> {
    if s != "" && s[0] == '$' then ReadAmount(WithoutCommas(s[1..])) else None
  }

  lemma {:induction false} WithoutCommasConcat(a: string, b: string)
    ensures WithoutCommas(a + b) == WithoutCommas(a) + WithoutCommas(b)
    decreases |a|
  {
    if a == "" {
      assert a + b == b;
    } else {
      WithoutCommasConcat(a[1..], b);
      assert (a + b)[1..] == a[1..] + b;
      var x, y, z := if a[0] == ',' then "" else [a[0]], WithoutCommas(a[1..]), WithoutCommas(b);
      assert x + (y + z) == (x + y) + z;
    }
  }

  lemma {:induction false} NoCommas(s: string)
    requires ',' !in s
    ensures WithoutCommas(s) == s
  {
    if s != "" {
      NoCommas(s[1..]);
      assert [s[0]] + s[1..] == s;
    }
  }

  lemma TimesTen(v: nat, k: nat)
    ensures (v * Pow10(k)) * 10 == v * Pow10(k + 1) && (v * 10) * Pow10(k) == v * Pow10(k + 1)
  {
  }

  lemma {:induction false} ZerosDigits(k: nat, value: nat)
    ensures |Zeros(k)| == k && AllDigits(Zeros(k)) && ValueOf(Zeros(k), value) == value * Pow10(k)
  {
    if k > 0 {
      ZerosDigits(k - 1, value * 10);
      assert Zeros(k)[1..] == Zeros(k - 1);
      TimesTen(value, k - 1);
    }
  }

  lemma PadStartDigits(s: string, width: nat, value: nat)
    requires AllDigits(s)
    ensures var p := PadStart(s, width);
      AllDigits(p) && |p| == (if |s| >= width then |s| else width) && ValueOf(p, 0) == ValueOf(s, 0)
  {
    if |s| < width {
      ZerosDigits(width - |s|, 0);
      ValueOfConcat(Zeros(width - |s|), s, 0);
    }
  }

  lemma {:induction false} PadEndDigits(s: string, width: nat)
    requires AllDigits(s)
    ensures var p := PadEnd(s, width);
      && AllDigits(p) && |p| == (if |s| >= width then |s| else width)
      && ValueOf(p, 0) == ValueOf(s, 0) * Pow10(|p| - |s|)
    decreases width - |s|
  {
    if |s| < width {
      ValueOfMore(s, '0', 0);
      assert s + ['0'] == s + "0";
      PadEndDigits(s + "0", width);
      TimesTen(ValueOf(s, 0), width - |s| - 1);
    }
  }

  lemma {:induction false} TrimZerosDigits(s: string)
    requires AllDigits(s)
    ensures var t := TrimZeros(s);
      && AllDigits(t) && |t| <= |s| && (t == "" || t[|t| - 1] != '0')
      && ValueOf(s, 0) == ValueOf(t, 0) * Pow10(|s| - |t|)
  {
    if s != "" && s[|s| - 1] == '0' {
      var init := s[..|s| - 1];
      TrimZerosDigits(init);
      ValueOfMore(init, '0', 0);
      assert init + ['0'] == s;
      var t := TrimZeros(s);
      hide ValueOf;
      TimesTen(ValueOf(t, 0), |init| - |t|);
    }
  }

  /** Grouping only inserts commas. */
  lemma {:induction false} GroupedDigits(n: nat)
    ensures AllDigits(WithoutCommas(Grouped(n))) && WithoutCommas(Grouped(n)) != "" && ValueOf(WithoutCommas(Grouped(n)), 0) == n
  {
    if n < 1000 {
      ValueOfDecimal(n);
      DecimalDigits(n);
      NoCommas(Decimal(n));
    } else {
      GroupedDigits(n / 1000);
      var head, last := Grouped(n / 1000), PadStart(Decimal(n % 1000), 3);
      ValueOfDecimal(n % 1000);
      assert Pow10(3) == 1000;
      DecimalLength(n % 1000, 3);
      PadStartDigits(Decimal(n % 1000), 3, 0);
      NoCommas(last);
      WithoutCommasConcat(head + ",", last);
      WithoutCommasConcat(head, ",");
      assert WithoutCommas(",") == "";
      assert WithoutCommas(Grouped(n)) == WithoutCommas(head) + last;
      ValueOfConcat(WithoutCommas(head), last, 0);
      ValueOfFrom(last, n / 1000);
    }
  }

  lemma {:induction false} DecimalLeast(n: nat, k: nat)
    requires n >= Pow10(k)
    ensures |Decimal(n)| > k
  {
    if k > 0 {
      assert n >= 10 && n / 10 >= Pow10(k - 1);
      DecimalLeast(n / 10, k - 1);
    }
  }

  /** The commas stand before every third digit from the right, and nowhere else. */
  lemma {:induction false} CommasInPlace(n: nat)
    ensures var s := Grouped(n);
      s != "" && s[0] != ',' && forall i :: 0 <= i < |s| ==> (s[i] == ',' <==> (|s| - i) % 4 == 0)
  {
    DecimalDigits(n);
    if n < 1000 {
      assert Pow10(3) == 1000;
      DecimalLength(n, 3);
      DigitsOnly(Decimal(n), ',');
    } else {
      CommasInPlace(n / 1000);
      ThreeDigits(n % 1000);
      NextCommas(Grouped(n / 1000), PadStart(Decimal(n % 1000), 3));
    }
  }

  lemma ThreeDigits(n: nat)
    requires n < 1000
    ensures |PadStart(Decimal(n), 3)| == 3 && ',' !in PadStart(Decimal(n), 3)
  {
    assert Pow10(3) == 1000;
    DecimalLength(n, 3);
    DecimalDigits(n);
    hide Decimal, Pow10;
    PadStartDigits(Decimal(n), 3, 0);
    DigitsOnly(PadStart(Decimal(n), 3), ',');
  }

  lemma NextCommas(head: string, last: string)
    requires head != "" && head[0] != ',' && |last| == 3 && ',' !in last
    requires forall i :: 0 <= i < |head| ==> (head[i] == ',' <==> (|head| - i) % 4 == 0)
    ensures var s := head + "," + last;
      s[0] != ',' && forall i :: 0 <= i < |s| ==> (s[i] == ',' <==> (|s| - i) % 4 == 0)
  {
    var s := head + "," + last;
    forall i | 0 <= i < |s| ensures s[i] == ',' <==> (|s| - i) % 4 == 0 {
      if i < |head| { assert s[i] == head[i] && |s| - i == |head| - i + 4; }
      else if i > |head| { assert s[i] == last[i - |head| - 1]; }
    }
  }

  /** The digits after the point: two to `k` of them, no zero at the end beyond the second, and worth exactly `f / 10^k`. */
  lemma FractionDigits(f: nat, k: nat)
    requires k >= 2 && f < Pow10(k)
    ensures var p := Fraction(f, k);
      && AllDigits(p) && 2 <= |p| <= k && (|p| > 2 ==> p[|p| - 1] != '0')
      && ValueOf(p, 0) * Pow10(k - |p|) == f
  {
    ValueOfDecimal(f);
    DecimalLength(f, k);
    hide Decimal, Pow10, ValueOf;
    var padded := PadStart(Decimal(f), k);
    PadStartDigits(Decimal(f), k, 0);
    var t := TrimZeros(padded);
    TrimZerosDigits(padded);
    PadEndDigits(t, 2);
    var p := PadEnd(t, 2);
    hide PadStart, TrimZeros;
    assert |t| >= 2 ==> p == t;
    hide PadEnd;
    Pow10Sum(|p| - |t|, k - |p|);
    Associate(ValueOf(t, 0), Pow10(|p| - |t|), Pow10(k - |p|));
  }

  lemma DigitsOnly(s: string, c: char)
    requires AllDigits(s) && !IsDigit(c)
    ensures c !in s
  {
  }

  lemma ReadWholeAndFraction(whole: string, fraction: string)
    requires AllDigits(whole) && AllDigits(fraction) && whole != "" && 1 <= |fraction| <= 9
    ensures ReadAmount(whole + "." + fraction) == Some(Amount(ValueOf(fraction, ValueOf(whole, 0)), |fraction|))
  {
    DigitsOnly(whole, '.');
    DigitsOnly(fraction, '.');
    hide Split;
    SplitFirst('.', whole, fraction);
    SplitWhole('.', fraction);
    assert whole + ['.'] + fraction == whole + "." + fraction;
    assert Split('.', whole + "." + fraction) == [whole, fraction];
    hide AllDigits, ValueOf;
  }

  lemma Distribute(w: nat, a: nat, f: nat, b: nat)
    ensures (w * a + f) * b == w * (a * b) + f * b
  {
  }

  lemma DropSign(text: string)
    ensures ReadPrinted("$" + text) == ReadAmount(WithoutCommas(text))
  {
    assert ("$" + text)[1..] == text;
  }

  lemma DropCommas(whole: string, fraction: string)
    requires AllDigits(fraction)
    ensures WithoutCommas(whole + "." + fraction) == WithoutCommas(whole) + "." + fraction
  {
    WithoutCommasConcat(whole + ".", fraction);
    WithoutCommasConcat(whole, ".");
    NoCommas(".");
    NoCommas(fraction);
  }

  lemma PrintedText(whole: nat, f: nat, k: nat)
    requires 2 <= k <= 9 && f < Pow10(k)
    ensures AllDigits(Fraction(f, k)) && 2 <= |Fraction(f, k)| <= k
    ensures ReadPrinted(Printed(whole, f, k)) == Some(Amount(ValueOf(Fraction(f, k), whole), |Fraction(f, k)|))
  {
    hide Pow10;
    GroupedDigits(whole);
    FractionDigits(f, k);
    hide Grouped, Fraction, ReadAmount, ValueOf, WithoutCommas, ReadPrinted;
    var w, fraction := Grouped(whole), Fraction(f, k);
    var text := w + "." + fraction;
    assert Printed(whole, f, k) == "$" + text;
    hide Printed;
    DropSign(text);
    DropCommas(w, fraction);
    ReadWholeAndFraction(WithoutCommas(w), fraction);
  }

  /** What is printed for `whole + f / 10^k` dollars reads back as exactly that amount. */
  lemma PrintedReadsBack(whole: nat, f: nat, k: nat)
    requires 2 <= k <= 9 && f < Pow10(k)
    ensures var a := ReadPrinted(Printed(whole, f, k));
      a.Some? && 2 <= a.value.scale <= k && a.value.units * Pow10(k - a.value.scale) == whole * Pow10(k) + f
  {
    hide Printed, ReadPrinted, Fraction, Pow10, ValueOf;
    PrintedText(whole, f, k);
    FractionDigits(f, k);
    var fraction := Fraction(f, k);
    ValueOfFrom(fraction, whole);
    Pow10Sum(|fraction|, k - |fraction|);
    Distribute(whole, Pow10(|fraction|), ValueOf(fraction, 0), Pow10(k - |fraction|));
  }

  /** A rate prints with every digit: what is printed is worth exactly the billionths it was printed from. */
  lemma RateRoundTrip(nanos: nat)
    ensures var a := ReadPrinted(FormatRate(nanos));
      a.Some? && a.value.scale <= 9 && ExactNanos(a.value) == nanos
  {
    hide Printed, ReadPrinted;
    TwentyDigits();
    PrintedReadsBack(nanos / NANOS_PER_USD, nanos % NANOS_PER_USD, 9);
  }

  /** From the catalogue to the table: the printed rate is the decimal the catalogue holds. */
  lemma PriceRoundTrip(s: string)
    requires IsMoney(s)
    ensures var a := ReadPrinted(FormatRate(NanosPerMtok(s).value));
      a.Some? && SameAmount(a.value, ReadAmount(s).value)
  {
    hide FormatRate, ReadPrinted, ReadAmount, Rounded;
    StoredExactly(s);
    var nanos := NanosPerMtok(s).value;
    RateRoundTrip(nanos);
    SameNanos(ReadPrinted(FormatRate(nanos)).value, ReadAmount(s).value);
  }

  lemma ScaledNanos(a: Amount)
    requires a.scale <= 9
    ensures ExactNanos(a) * Pow10(a.scale) == a.units * Pow10(9)
  {
    Pow10Sum(9 - a.scale, a.scale);
    Associate(a.units, Pow10(9 - a.scale), Pow10(a.scale));
  }

  lemma SameNanos(a: Amount, b: Amount)
    requires a.scale <= 9 && b.scale <= 9 && ExactNanos(a) == ExactNanos(b)
    ensures SameAmount(a, b)
  {
    ScaledNanos(a);
    ScaledNanos(b);
    hide Pow10, ExactNanos;
    CrossCancel(a.units, b.units, Pow10(a.scale), Pow10(b.scale), ExactNanos(a), Pow10(9));
  }

  lemma CrossCancel(a: nat, b: nat, x: nat, y: nat, n: nat, p: nat)
    requires n * x == a * p && n * y == b * p && p >= 1
    ensures a * y == b * x
  {
    CrossScaled(a, b, x, y, n, p);
    Cancel(a * y, b * x, p);
  }

  lemma CrossScaled(a: nat, b: nat, x: nat, y: nat, n: nat, p: nat)
    requires n * x == a * p && n * y == b * p
    ensures (a * y) * p == (b * x) * p
  {
    calc {
      (a * y) * p;
      (a * p) * y;
      (n * x) * y;
      (n * y) * x;
      (b * p) * x;
      (b * x) * p;
    }
  }

  /**
    A balance prints within half a ten-thousandth of a dollar, with its sign. A debt too small
    for that prints as a bound of its own, so no debt is ever shown as zero.
   */
  lemma DollarsAreClose(nanos: int)
    ensures FormatDollars(nanos) == SUBVISIBLE_DEBT <==> -50_000 < nanos < 0
    ensures FormatDollars(nanos) != SUBVISIBLE_DEBT ==>
      (var s, size := FormatDollars(nanos), if nanos < 0 then -nanos else nanos;
       var a := ReadPrinted(if nanos < 0 then s[1..] else s);
       && (nanos < 0 <==> s[0] == '-') && a.Some? && 2 <= a.value.scale <= 4
       && -50_000 < ExactNanos(a.value) - size <= 50_000
       && (nanos < 0 ==> a.value.units > 0))
  {
    var size := if nanos < 0 then -nanos else nanos;
    var units := DisplayUnits(size);
    UnitsReadBack(units);
    hide Printed, ReadPrinted;
    var shown := Shown(units);
    var s := FormatDollars(nanos);
    if !(nanos < 0 && units == 0) {
      assert s[0] != '>' && SUBVISIBLE_DEBT[0] == '>';
      assert (if nanos < 0 then s[1..] else s) == shown;
    }
  }

  lemma ShownReadsBack(units: nat)
    ensures Shown(units) != "" && Shown(units)[0] == '$'
    ensures var a := ReadPrinted(Shown(units));
      a.Some? && 2 <= a.value.scale <= 4 && a.value.units * Pow10(4 - a.value.scale) == units
  {
    TwentyDigits();
    hide ReadPrinted, Pow10, Grouped, Fraction;
    PrintedReadsBack(units / 10_000, units % 10_000, 4);
  }

  lemma UnitsReadBack(units: nat)
    ensures Shown(units) != "" && Shown(units)[0] == '$'
    ensures var a := ReadPrinted(Shown(units));
      a.Some? && 2 <= a.value.scale <= 4 && ExactNanos(a.value) == units * 100_000 && (units > 0 ==> a.value.units > 0)
  {
    hide Shown, ReadPrinted, Pow10;
    ShownReadsBack(units);
    TwentyDigits();
    var a := ReadPrinted(Shown(units)).value;
    Pow10Sum(4 - a.scale, 5);
    Associate(a.units, Pow10(4 - a.scale), 100_000);
    PositiveFactor(a.units, Pow10(4 - a.scale));
  }

  lemma PositiveFactor(a: nat, b: nat)
    ensures a * b > 0 ==> a > 0
  {
  }
}

/** Two independent printers of cents as decimal JSON numbers, and the rounding of
    an incoming amount to cents. */
module Money {
  import opened Domain

  // ----- Go integer arithmetic -----

  /** Division and remainder truncate toward zero. */
  function TruncDiv(a: int, b: int): int
    requires b > 0
  {
    if a < 0 then -((-a) / b) else a / b
  }

  function TruncMod(a: int, b: int): int
    requires b > 0
  {
    if a < 0 then -((-a) % b) else a % b
  }

  /** Two's complement: the minimum is its own negation. */
  function Negated(v: Int64): Int64 {
    if v == MIN_INT64 then MIN_INT64 else -v
  }

  function Magnitude(v: int): nat {
    if v < 0 then -v else v
  }

  // ----- Decimal digits -----

  function DigitChar(d: int): char
    requires 0 <= d < 10
  {
    ('0' as int + d) as char
  }

  predicate IsDigit(c: char) {
    '0' <= c <= '9'
  }

  predicate AllDigits(s: string) {
    forall k | 0 <= k < |s| :: IsDigit(s[k])
  }

  function Digits(n: nat): string {
    if n < 10 then [DigitChar(n)] else Digits(n / 10) + [DigitChar(n % 10)]
  }

  /** strconv.FormatInt and AppendInt in base 10. */
  function FormatInt(v: int): string {
    if v < 0 then "-" + Digits(-v) else Digits(v)
  }

  /** fmt's %02d: the sign counts toward the width. */
  function PadTwo(v: int): string {
    if 0 <= v < 10 then "0" + Digits(v) else FormatInt(v)
  }

  // ----- What a decimal text means -----

  function DigitsValue(s: string): nat
    requires AllDigits(s)
  {
    if s == "" then 0 else 10 * DigitsValue(s[..|s| - 1]) + (s[|s| - 1] as int - '0' as int)
  }

  function Pow10(n: nat): nat {
    if n == 0 then 1 else 10 * Pow10(n - 1)
  }

  lemma {:induction false} Pow10Positive(n: nat)
    ensures Pow10(n) > 0
  {
    if n == 0 {
    } else {
      Pow10Positive(n - 1);
    }
  }

  function PointAt(s: string): nat
    ensures PointAt(s) <= |s|
    ensures forall k | 0 <= k < PointAt(s) :: s[k] != '.'
    ensures PointAt(s) < |s| ==> s[PointAt(s)] == '.'
  {
    if s == "" || s[0] == '.' then 0 else 1 + PointAt(s[1..])
  }

  function Fixed(whole: string, frac: string): real
    requires AllDigits(whole) && AllDigits(frac)
  {
    Pow10Positive(|frac|);
    DigitsValue(whole) as real + DigitsValue(frac) as real / Pow10(|frac|) as real
  }

  /** The number a text of digits, a point and digits denotes. */
  function UnsignedValue(s: string): Option<real> {
    var k := PointAt(s);
    if 0 < k < |s| - 1 && AllDigits(s[..k]) && AllDigits(s[k + 1..]) then Some(Fixed(s[..k], s[k + 1..]))
    else None
  }

  function DecimalValue(s: string): Option<real> {
    if s != "" && s[0] == '-' then
      var v := UnsignedValue(s[1..]);
      if v.Some? then Some(-v.value) else None
    else UnsignedValue(s)
  }

  /** number = [ minus ] int [ frac ] [ exp ], section 6 of RFC 8259. */
  predicate IntPart(s: string) {
    s != "" && AllDigits(s) && (s[0] == '0' ==> |s| == 1)
  }

  predicate FracPart(s: string) {
    s == "" || (|s| > 1 && s[0] == '.' && AllDigits(s[1..]))
  }

  predicate ExpPart(s: string) {
    s == "" || (|s| > 1 && (s[0] == 'e' || s[0] == 'E')
                && (AllDigits(s[1..])
                    || (|s| > 2 && (s[1] == '+' || s[1] == '-') && AllDigits(s[2..]))))
  }

  ghost predicate JsonNumberAs(s: string, minus: string, whole: string, frac: string, exp: string) {
    && s == minus + whole + frac + exp
    && (minus == "" || minus == "-")
    && IntPart(whole) && FracPart(frac) && ExpPart(exp)
  }

  ghost predicate JsonNumber(s: string) {
    exists minus, whole, frac, exp :: JsonNumberAs(s, minus, whole, frac, exp)
  }

  // ----- The printers -----

  /** Whole units, a point and two digits of cents. */
  function Unsigned(size: nat): string {
    Digits(size / 100) + "." + [DigitChar(size / 10 % 10), DigitChar(size % 10)]
  }

  /** What both printers should produce. */
  function DecimalText(cents: int): string {
    if cents < 0 then "-" + Unsigned(-cents) else Unsigned(cents)
  }

  /** The processor boundary's printer. */
  function ProcessorAmount(value: Int64): string {
    if value < 0 then
      "-" + FormatInt(TruncDiv(Negated(value), 100)) + "." + PadTwo(TruncMod(Negated(value), 100))
    else
      FormatInt(TruncDiv(value, 100)) + "." + PadTwo(TruncMod(value, 100))
  }

  /** The summary's printer, byte by byte. */
  method MarshalDecimalCents(cents: Int64) returns (number: string)
    ensures number == DecimalText(cents)
  {
    var fraction := TruncMod(cents, 100);
    if fraction < 0 {
      fraction := -fraction;
    }
    number := "";
    if cents < 0 && cents > -100 {
      number := number + ['-', '0'];
    } else {
      number := number + FormatInt(TruncDiv(cents, 100));
    }
    number := number + ['.', DigitChar(fraction / 10), DigitChar(fraction % 10)];
    WholeAndFraction(cents);
  }

  /** Truncation splits off the same two digits on both sides of zero; only between
      -100 and 0 does the whole part lose the sign. */
  lemma WholeAndFraction(cents: int)
    ensures var fraction := Magnitude(TruncMod(cents, 100));
            && 0 <= fraction < 100
            && DecimalText(cents) ==
               (if -100 < cents < 0 then "-0" else FormatInt(TruncDiv(cents, 100)))
               + ['.', DigitChar(fraction / 10), DigitChar(fraction % 10)]
  {
    TwoDigits(Magnitude(cents));
  }

  lemma TwoDigits(size: nat)
    ensures size % 100 / 10 == size / 10 % 10
    ensures size % 100 % 10 == size % 10
    ensures size % 100 < 100
  {
    var q, r := size / 100, size % 100;
    assert size == 100 * q + r;
    assert size / 10 == 10 * q + r / 10;
  }

  // ----- Round trip -----

  lemma {:induction false} DigitsMeaning(n: nat)
    ensures AllDigits(Digits(n)) && IntPart(Digits(n)) && DigitsValue(Digits(n)) == n
    ensures n > 0 ==> Digits(n)[0] != '0'
  {
    if n < 10 {
      assert Digits(n)[..0] == "";
    } else {
      DigitsMeaning(n / 10);
      var s := Digits(n);
      assert s[..|s| - 1] == Digits(n / 10);
    }
  }

  lemma {:induction false} PointAfter(whole: string, rest: string)
    requires AllDigits(whole)
    ensures PointAt(whole + "." + rest) == |whole|
  {
    var s := whole + "." + rest;
    if whole == "" {
    } else {
      assert s[1..] == whole[1..] + "." + rest;
      PointAfter(whole[1..], rest);
    }
  }

  lemma OneDigitValue(a: int)
    requires 0 <= a < 10
    ensures AllDigits([DigitChar(a)]) && DigitsValue([DigitChar(a)]) == a
  {
  }

  lemma TwoDigitValue(a: int, b: int)
    requires 0 <= a < 10 && 0 <= b < 10
    ensures AllDigits([DigitChar(a), DigitChar(b)]) && DigitsValue([DigitChar(a), DigitChar(b)]) == 10 * a + b
  {
    OneDigitValue(a);
    assert [DigitChar(a), DigitChar(b)][..1] == [DigitChar(a)];
  }

  lemma Halves(whole: string, frac: string)
    ensures var text := whole + "." + frac;
            text[..|whole|] == whole && text[|whole| + 1..] == frac && |text| == |whole| + 1 + |frac|
  {
  }

  lemma Hundred()
    ensures Pow10(2) == 100
  {
  }

  /** Splitting at the point recovers both halves. */
  lemma PointSplits(whole: string, frac: string)
    requires AllDigits(whole) && whole != "" && AllDigits(frac) && |frac| == 2
    ensures UnsignedValue(whole + "." + frac) ==
            Some(DigitsValue(whole) as real + DigitsValue(frac) as real / 100.0)
  {
    PointAfter(whole, frac);
    Halves(whole, frac);
    Hundred();
  }

  lemma CentsSplit(size: nat)
    ensures (size / 100) as real + (10 * (size / 10 % 10) + size % 10) as real / 100.0 == size as real / 100.0
  {
    TwoDigits(size);
    assert size == 100 * (size / 100) + (10 * (size / 10 % 10) + size % 10);
  }

  lemma UnsignedMeaning(size: nat)
    ensures UnsignedValue(Unsigned(size)) == Some(size as real / 100.0)
  {
    DigitsMeaning(size / 100);
    TwoDigitValue(size / 10 % 10, size % 10);
    PointSplits(Digits(size / 100), [DigitChar(size / 10 % 10), DigitChar(size % 10)]);
    CentsSplit(size);
  }

  lemma NumberParts(minus: string, whole: string, two: string)
    requires (minus == "" || minus == "-") && IntPart(whole) && AllDigits(two) && |two| == 2
    ensures JsonNumber(minus + (whole + "." + two))
  {
    var text := minus + (whole + "." + two);
    var frac := "." + two;
    assert frac[1..] == two;
    assert text == minus + whole + frac + "";
    assert JsonNumberAs(text, minus, whole, frac, "");
  }

  lemma UnsignedStart(size: nat)
    ensures Unsigned(size) != "" && IsDigit(Unsigned(size)[0])
  {
    DigitsMeaning(size / 100);
  }

  lemma UnsignedIsNumber(size: nat, minus: string)
    requires minus == "" || minus == "-"
    ensures JsonNumber(minus + Unsigned(size))
  {
    DigitsMeaning(size / 100);
    TwoDigitValue(size / 10 % 10, size % 10);
    NumberParts(minus, Digits(size / 100), [DigitChar(size / 10 % 10), DigitChar(size % 10)]);
  }

  lemma SignedValue(minus: string, unsigned: string, value: real)
    requires minus == "" || minus == "-"
    requires unsigned != "" && unsigned[0] != '-' && UnsignedValue(unsigned) == Some(value)
    ensures DecimalValue(minus + unsigned) == Some(if minus == "" then value else -value)
  {
    var text := minus + unsigned;
    if minus == "" {
      assert text == unsigned;
    } else {
      assert text[1..] == unsigned;
    }
  }

  function Sign(cents: int): string {
    if cents < 0 then "-" else ""
  }

  lemma SignAndSize(cents: int)
    ensures DecimalText(cents) == Sign(cents) + Unsigned(Magnitude(cents))
  {
  }

  lemma DecimalIsNumber(cents: int)
    ensures JsonNumber(DecimalText(cents))
  {
    SignAndSize(cents);
    UnsignedIsNumber(Magnitude(cents), Sign(cents));
  }

  lemma DecimalDenotes(cents: int)
    ensures DecimalValue(DecimalText(cents)) == Some(cents as real / 100.0)
  {
    var size := Magnitude(cents);
    SignAndSize(cents);
    UnsignedStart(size);
    UnsignedMeaning(size);
    SignedValue(Sign(cents), Unsigned(size), size as real / 100.0);
  }

  /** The printed text is a JSON number and denotes exactly the cents it was made from. */
  lemma DecimalRoundTrip(cents: int)
    ensures DecimalValue(DecimalText(cents)) == Some(cents as real / 100.0)
    ensures JsonNumber(DecimalText(cents))
  {
    DecimalIsNumber(cents);
    DecimalDenotes(cents);
  }

  /** Different amounts never print alike. */
  lemma DecimalTextIsInjective(a: int, b: int)
    requires DecimalText(a) == DecimalText(b)
    ensures a == b
  {
    DecimalRoundTrip(a);
    DecimalRoundTrip(b);
  }

  /** The two printers agree on every int64 but the minimum, for which the
      processor's printer does not even print a JSON number. Stored amounts are
      positive, so they are never the minimum. */
  lemma PrintersAgree(value: Int64)
    ensures ProcessorAmount(value) == DecimalText(value) <==> value != MIN_INT64
    ensures JsonNumber(ProcessorAmount(value)) <==> value != MIN_INT64
  {
    var size := Magnitude(value);
    TwoDigits(size);
    if value == MIN_INT64 {
      MinimumIsMisprinted();
    } else {
      PadTwoDigits(size % 100);
      assert ProcessorAmount(value) == DecimalText(value);
      DecimalRoundTrip(value);
    }
  }

  lemma PadTwoDigits(r: int)
    requires 0 <= r < 100
    ensures PadTwo(r) == [DigitChar(r / 10), DigitChar(r % 10)]
  {
    if r >= 10 {
      assert Digits(r / 10) == [DigitChar(r / 10)];
    }
  }

  /** A JSON number starts with a digit, after at most one minus. */
  lemma JsonNumberStart(s: string)
    requires JsonNumber(s)
    ensures s != "" && (IsDigit(s[0]) || (s[0] == '-' && |s| > 1 && IsDigit(s[1])))
  {
  }

  lemma MinimumIsMisprinted()
    ensures ProcessorAmount(MIN_INT64) != DecimalText(MIN_INT64)
    ensures !JsonNumber(ProcessorAmount(MIN_INT64))
  {
    var text := ProcessorAmount(MIN_INT64);
    assert TruncDiv(Negated(MIN_INT64), 100) < 0;
    assert text[0] == '-' && text[1] == '-';
    if JsonNumber(text) {
      JsonNumberStart(text);
    }
    DecimalRoundTrip(MIN_INT64);
  }

  // ----- Intake -----

  datatype Float = NaN | PosInf | NegInf | Finite(value: real)

  datatype CentsResult = Cents(cents: int) | OutOfRange

  /** math.Round: to nearest, halves away from zero. */
  function Round(x: real): int {
    if x >= 0.0 then (x + 0.5).Floor else -((-x + 0.5).Floor)
  }

  /** The guarded rounding of `amount * 100`; the upper guard is 2^63. */
  function ToCents(product: Float): CentsResult {
    match product
    case Finite(y) =>
      var rounded := Round(y);
      if rounded < 1 || rounded >= MAX_INT64 + 1 then OutOfRange else Cents(rounded)
    case _ => OutOfRange
  }

  /** An accepted amount is the nearest whole number of cents, is positive and fits
      an int64; exactly the products outside [1/2, 2^63 - 1/2) are refused. */
  lemma CentsAreNearest(product: Float)
    ensures match ToCents(product)
            case Cents(c) => 1 <= c <= MAX_INT64 && product.Finite?
                             && c as real - 0.5 <= product.value < c as real + 0.5
            case OutOfRange => product.Finite? ==>
                                 product.value < 0.5 || product.value >= MAX_INT64 as real + 0.5
  {
  }

  /** 2^-53, the largest relative error of one correctly rounded binary64 operation. */
  const UNIT: real := 1.0 / 9007199254740992.0

  /** 2^51 */
  const EXACT_LIMIT: int := 2251799813685248

  /** `x` is a correctly rounded binary64 result whose exact value is `exact`. */
  ghost predicate RoundsTo(exact: real, x: real) {
    exact >= 0.0 && exact - exact * UNIT <= x <= exact + exact * UNIT
  }

  /** Parsing a decimal of `n` cents and multiplying by 100, each correctly rounded. */
  ghost predicate Computes(n: nat, parsed: real, product: real) {
    RoundsTo(n as real / 100.0, parsed) && RoundsTo(parsed * 100.0, product)
  }

  lemma ProductError(n: nat, parsed: real, product: real)
    requires Computes(n, parsed, product)
    ensures var e := n as real * (2.0 * UNIT + UNIT * UNIT);
            n as real - e <= product <= n as real + e
  {
    var x := n as real;
    var hundred := parsed * 100.0;
    assert x - x * UNIT <= hundred <= x + x * UNIT;
    assert hundred * UNIT <= (x + x * UNIT) * UNIT;
    assert (x + x * UNIT) * UNIT == x * UNIT + x * (UNIT * UNIT);
    assert x * (2.0 * UNIT + UNIT * UNIT) == x * UNIT + x * UNIT + x * (UNIT * UNIT);
  }

  lemma ErrorIsSmall(n: nat)
    requires n < EXACT_LIMIT
    ensures n as real * (2.0 * UNIT + UNIT * UNIT) < 0.5
  {
    var x, limit := n as real, (EXACT_LIMIT - 1) as real;
    var u := 2.0 * UNIT + UNIT * UNIT;
    assert u > 0.0 && limit * u < 0.5;
    assert (limit - x) * u >= 0.0;
  }

  lemma NearRounds(n: nat, e: real, y: real)
    requires e < 0.5 && n as real - e <= y <= n as real + e
    ensures Round(y) == n
  {
  }

  /** Every two-decimal amount below 2^51 cents is stored as exactly that many cents,
      and is forwarded to a processor and summarised as the same decimal value. */
  lemma IntakeIsExact(n: nat, parsed: real, product: real)
    requires 1 <= n < EXACT_LIMIT && Computes(n, parsed, product)
    ensures ToCents(Finite(product)) == Cents(n)
    ensures DecimalValue(ProcessorAmount(n)) == Some(n as real / 100.0)
    ensures DecimalText(n) == ProcessorAmount(n)
  {
    ProductError(n, parsed, product);
    ErrorIsSmall(n);
    NearRounds(n, n as real * (2.0 * UNIT + UNIT * UNIT), product);
    PrintersAgree(n);
    DecimalRoundTrip(n);
  }

  /** From 2^51 cents on, correct rounding of the two operations no longer decides
      the stored amount: the allowed errors reach the next cent. */
  lemma IntakeBoundIsSharp(n: nat)
    ensures (forall parsed, product :: Computes(n, parsed, product) ==> Round(product) == n) <==> n < EXACT_LIMIT
  {
    var x := n as real;
    if n < EXACT_LIMIT {
      forall parsed, product | Computes(n, parsed, product)
        ensures Round(product) == n
      {
        if n >= 1 {
          IntakeIsExact(n, parsed, product);
        } else {
          ProductError(n, parsed, product);
        }
      }
    } else {
      var parsed := x / 100.0 + x / 100.0 * UNIT;
      var product := parsed * 100.0 + parsed * 100.0 * UNIT;
      assert parsed * 100.0 == x + x * UNIT;
      assert product == x + x * UNIT + (x + x * UNIT) * UNIT;
      assert x * UNIT >= EXACT_LIMIT as real * UNIT;
      assert Computes(n, parsed, product);
      assert product >= x + 0.5;
    }
  }
}

/** Exact conversion between decimal prices and integer ticks (types.cpp). */
module Decimals {
  import opened Types

  /** `coefficient / 10^scale`. */
  datatype Decimal = Decimal(coefficient: nat, scale: nat)

  function P10(n: nat): (p: int)
    ensures 1 <= p
  {
    if n == 0 then 1 else 10 * P10(n - 1)
  }

  predicate IsDigit(c: char) {
    '0' <= c <= '9'
  }

  function DigitOf(c: char): (d: nat)
    requires IsDigit(c)
    ensures d <= 9 && "0123456789"[d] == c
  {
    c as int - '0' as int
  }

  // ---- Parsing ----

  /** `checked_mul10_add`. */
  function MulTenAdd(value: nat, digit: nat): Outcome<nat> {
    if value > (UINT64_MAX - digit) / 10 then Threw(OutOfRange) else Done(value * 10 + digit)
  }

  datatype Scan = Scan(coefficient: nat, scale: nat, sawDigit: bool, sawPoint: bool)

  /** The character loop of `parse_non_negative_decimal` from position `i` on. */
  function ScanFrom(text: string, i: nat, scan: Scan): Outcome<Scan>
    requires i <= |text|
    decreases |text| - i
  {
    if i == |text| then Done(scan)
    else if IsDigit(text[i]) then
      var coefficient :- MulTenAdd(scan.coefficient, DigitOf(text[i]));
      if scan.sawPoint && scan.scale == UINT32_MAX then Threw(OutOfRange)
      else ScanFrom(text, i + 1, Scan(coefficient, if scan.sawPoint then scan.scale + 1 else scan.scale, true, scan.sawPoint))
    else if text[i] == '.' && !scan.sawPoint then ScanFrom(text, i + 1, scan.(sawPoint := true))
    else Threw(InvalidArgument(MalformedDecimal))
  }

  /** Trailing zeros after the point are dropped. */
  function Normalize(d: Decimal): Decimal
    decreases d.scale
  {
    if d.scale > 0 && d.coefficient % 10 == 0 then Normalize(Decimal(d.coefficient / 10, d.scale - 1)) else d
  }

  function Parse(text: string): Outcome<Decimal> {
    if text == "" || text[0] == '-' || text == "+" then Threw(InvalidArgument(MalformedDecimal))
    else
      var scan :- ScanFrom(text, if text[0] == '+' then 1 else 0, Scan(0, 0, false, false));
      if !scan.sawDigit then Threw(InvalidArgument(MalformedDecimal))
      else Done(Normalize(Decimal(scan.coefficient, scan.scale)))
  }

  method ParseNonNegativeDecimal(text: string) returns (result: Outcome<Decimal>)
    ensures result == Parse(text)
  {
    if text == "" {
      return Threw(InvalidArgument(MalformedDecimal));
    }
    var index := 0;
    if text[index] == '+' {
      index := index + 1;
      if index == |text| {
        return Threw(InvalidArgument(MalformedDecimal));
      }
    } else if text[index] == '-' {
      return Threw(InvalidArgument(MalformedDecimal));
    }
    var coefficient: nat, scale := 0, 0;
    var sawDigit, sawPoint := false, false;
    ghost var goal := ScanFrom(text, index, Scan(0, 0, false, false));
    while index < |text|
      invariant index <= |text|
      invariant goal == ScanFrom(text, index, Scan(coefficient, scale, sawDigit, sawPoint))
      invariant 0 <= scale
    {
      var ch := text[index];
      if IsDigit(ch) {
        sawDigit := true;
        coefficient :- MulTenAdd(coefficient, DigitOf(ch));
        if sawPoint {
          if scale == UINT32_MAX {
            return Threw(OutOfRange);
          }
          scale := scale + 1;
        }
        index := index + 1;
        continue;
      }
      if ch == '.' && !sawPoint {
        sawPoint := true;
        index := index + 1;
        continue;
      }
      return Threw(InvalidArgument(MalformedDecimal));
    }
    if !sawDigit {
      return Threw(InvalidArgument(MalformedDecimal));
    }
    ghost var whole := Normalize(Decimal(coefficient, scale));
    while scale > 0 && coefficient % 10 == 0
      invariant 0 <= scale && whole == Normalize(Decimal(coefficient, scale))
    {
      coefficient := coefficient / 10;
      scale := scale - 1;
    }
    return Done(Decimal(coefficient, scale));
  }

  // ---- What a decimal string denotes ----

  /** The text after an optional plus sign. */
  function Body(text: string): string {
    if text != "" && text[0] == '+' then text[1..] else text
  }

  /** The position of the first point, or the length. */
  function PointAt(body: string): (k: nat)
    ensures k <= |body| && (k < |body| ==> body[k] == '.')
    ensures forall i :: 0 <= i < k ==> body[i] != '.'
  {
    if body == "" || body[0] == '.' then 0 else 1 + PointAt(body[1..])
  }

  function WholePart(body: string): string {
    body[..PointAt(body)]
  }

  function FractionPart(body: string): string {
    if PointAt(body) < |body| then body[PointAt(body) + 1..] else ""
  }

  predicate AllDigits(s: string) {
    forall i :: 0 <= i < |s| ==> IsDigit(s[i])
  }

  /** Digits with at most one point among them, and at least one digit. */
  predicate IsPlainDecimal(body: string) {
    && AllDigits(WholePart(body)) && AllDigits(FractionPart(body))
    && WholePart(body) + FractionPart(body) != ""
  }

  /** `value` followed by the digits `s`. */
  function Continue(value: nat, s: string): nat
    requires AllDigits(s)
    decreases |s|
  {
    if s == "" then value else Continue(value * 10 + DigitOf(s[0]), s[1..])
  }

  function NumberOf(s: string): nat
    requires AllDigits(s)
  {
    Continue(0, s)
  }

  lemma {:induction false} ContinueGrows(value: nat, s: string)
    requires AllDigits(s)
    ensures value <= Continue(value, s)
    decreases |s|
  {
    if s != "" {
      ContinueGrows(value * 10 + DigitOf(s[0]), s[1..]);
    }
  }

  lemma {:induction false} ContinueAppend(value: nat, a: string, b: string)
    requires AllDigits(a) && AllDigits(b)
    ensures AllDigits(a + b) && Continue(value, a + b) == Continue(Continue(value, a), b)
    decreases |a|
  {
    if a == "" {
      assert a + b == b;
    } else {
      ContinueAppend(value * 10 + DigitOf(a[0]), a[1..], b);
      assert (a + b)[1..] == a[1..] + b;
    }
  }

  lemma {:induction false} MulTenFits(value: nat, digit: nat)
    requires digit <= 9
    ensures MulTenAdd(value, digit) == if value * 10 + digit <= UINT64_MAX then Done(value * 10 + digit) else Threw(OutOfRange)
  {
  }

  /** After the point only digits are accepted; bounding every prefix amounts to bounding the whole. */
  lemma {:induction false} ScanFraction(text: string, i: nat, scan: Scan)
    requires i <= |text| && scan.sawPoint && scan.coefficient <= UINT64_MAX && scan.scale <= UINT32_MAX
    ensures ScanFrom(text, i, scan).Done? <==>
      AllDigits(text[i..]) && Continue(scan.coefficient, text[i..]) <= UINT64_MAX && scan.scale + |text| - i <= UINT32_MAX
    ensures ScanFrom(text, i, scan).Done? ==>
      ScanFrom(text, i, scan).value
      == Scan(Continue(scan.coefficient, text[i..]), scan.scale + |text| - i, scan.sawDigit || i < |text|, true)
    decreases |text| - i
  {
    if i < |text| {
      var rest := text[i..];
      assert rest[0] == text[i] && rest[1..] == text[i + 1..];
      if IsDigit(text[i]) {
        MulTenFits(scan.coefficient, DigitOf(text[i]));
        var value := scan.coefficient * 10 + DigitOf(text[i]);
        if scan.scale < UINT32_MAX && value <= UINT64_MAX {
          ScanFraction(text, i + 1, Scan(value, scan.scale + 1, true, true));
        }
        FirstDigit(rest);
        if AllDigits(rest) {
          ContinueGrows(value, rest[1..]);
        }
      }
    }
  }

  lemma {:induction false} FirstDigit(s: string)
    requires s != "" && IsDigit(s[0])
    ensures AllDigits(s) <==> AllDigits(s[1..])
  {
    assert forall i :: 0 < i < |s| ==> s[i] == s[1..][i - 1];
  }

  /** The parts of a body that starts with a digit. */
  lemma {:induction false} PartsOfDigit(body: string)
    requires body != "" && IsDigit(body[0])
    ensures WholePart(body) == [body[0]] + WholePart(body[1..]) && FractionPart(body) == FractionPart(body[1..])
    ensures WholePart(body) + FractionPart(body) == [body[0]] + (WholePart(body[1..]) + FractionPart(body[1..]))
    ensures AllDigits(WholePart(body)) <==> AllDigits(WholePart(body[1..]))
  {
    hide WholePart, FractionPart, AllDigits;
    WholeOfDigit(body);
    FirstDigit(WholePart(body));
    FractionOfDigit(body);
    assert [body[0]] + WholePart(body[1..]) + FractionPart(body[1..]) == [body[0]] + (WholePart(body[1..]) + FractionPart(body[1..]));
  }

  lemma {:induction false} WholeOfDigit(body: string)
    requires body != "" && IsDigit(body[0])
    ensures WholePart(body) == [body[0]] + WholePart(body[1..]) && WholePart(body)[1..] == WholePart(body[1..])
  {
    assert PointAt(body) == 1 + PointAt(body[1..]);
  }

  lemma {:induction false} FractionOfDigit(body: string)
    requires body != "" && IsDigit(body[0])
    ensures FractionPart(body) == FractionPart(body[1..])
  {
    assert PointAt(body) == 1 + PointAt(body[1..]);
  }

  /** The whole scan: it accepts exactly the plain decimals whose digits make a 64-bit number. */
  lemma {:induction false} ScanWhole(text: string, i: nat, scan: Scan)
    requires i <= |text| && !scan.sawPoint && scan.scale == 0 && scan.coefficient <= UINT64_MAX
    ensures var whole, fraction := WholePart(text[i..]), FractionPart(text[i..]);
      && (ScanFrom(text, i, scan).Done? <==>
        AllDigits(whole) && AllDigits(fraction) && AllDigits(whole + fraction)
        && Continue(scan.coefficient, whole + fraction) <= UINT64_MAX && |fraction| <= UINT32_MAX)
      && (ScanFrom(text, i, scan).Done? ==>
        ScanFrom(text, i, scan).value
        == Scan(Continue(scan.coefficient, whole + fraction), |fraction|, scan.sawDigit || whole + fraction != "", PointAt(text[i..]) < |text| - i))
    decreases |text| - i
  {
    hide MulTenAdd, WholePart, FractionPart;
    var body := text[i..];
    if i == |text| {
      assert body == "" && "" + "" == "";
      NoParts();
    } else {
      assert body[0] == text[i] && body[1..] == text[i + 1..];
      if IsDigit(text[i]) {
        DigitStep(text, i, scan);
      } else if text[i] == '.' {
        PartsOfPoint(body);
        ScanFraction(text, i + 1, scan.(sawPoint := true));
      } else {
        NotPlain(body);
      }
    }
  }

  lemma {:induction false} NoParts()
    ensures WholePart("") == "" && FractionPart("") == ""
  {
  }

  lemma {:induction false} PartsOfPoint(body: string)
    requires body != "" && body[0] == '.'
    ensures WholePart(body) == "" && FractionPart(body) == body[1..] && PointAt(body) == 0
    ensures WholePart(body) + FractionPart(body) == body[1..]
  {
  }

  lemma {:induction false} NotPlain(body: string)
    requires body != "" && body[0] != '.' && !IsDigit(body[0])
    ensures !AllDigits(WholePart(body))
  {
    assert WholePart(body)[0] == body[0];
  }

  lemma {:induction false} DigitStep(text: string, i: nat, scan: Scan)
    requires i < |text| && IsDigit(text[i]) && !scan.sawPoint && scan.scale == 0 && scan.coefficient <= UINT64_MAX
    ensures var whole, fraction := WholePart(text[i..]), FractionPart(text[i..]);
      && (ScanFrom(text, i, scan).Done? <==>
        AllDigits(whole) && AllDigits(fraction) && AllDigits(whole + fraction)
        && Continue(scan.coefficient, whole + fraction) <= UINT64_MAX && |fraction| <= UINT32_MAX)
      && (ScanFrom(text, i, scan).Done? ==>
        ScanFrom(text, i, scan).value
        == Scan(Continue(scan.coefficient, whole + fraction), |fraction|, scan.sawDigit || whole + fraction != "", PointAt(text[i..]) < |text| - i))
    decreases |text| - i, 0
  {
    hide MulTenAdd, WholePart, FractionPart;
    var body := text[i..];
    assert body[0] == text[i] && body[1..] == text[i + 1..];
    var value := scan.coefficient * 10 + DigitOf(text[i]);
    var rest := WholePart(body[1..]) + FractionPart(body[1..]);
    MulTenFits(scan.coefficient, DigitOf(text[i]));
    PartsOfDigit(body);
    FirstDigit([body[0]] + rest);
    assert ([body[0]] + rest)[1..] == rest;
    if value <= UINT64_MAX {
      ScanWhole(text, i + 1, Scan(value, 0, true, false));
    }
    if AllDigits(rest) {
      ContinueGrows(value, rest);
    }
  }

  // ---- Normal form ----

  lemma {:induction false} P10Adds(a: nat, b: nat)
    ensures P10(a + b) == P10(a) * P10(b)
  {
    if a > 0 {
      P10Adds(a - 1, b);
      assert P10(a + b) == 10 * (P10(a - 1) * P10(b));
    }
  }

  predicate IsNormal(d: Decimal) {
    d.scale == 0 || d.coefficient % 10 != 0
  }

  /** Equality as exact rationals. */
  predicate SameNumber(a: Decimal, b: Decimal) {
    a.coefficient * P10(b.scale) == b.coefficient * P10(a.scale)
  }

  lemma {:induction false} TenTimes(a: int, b: int, c: int)
    requires c == a * b
    ensures 10 * c == a * (10 * b)
  {
  }

  lemma {:induction false} NormalizeExact(d: Decimal)
    ensures var n := Normalize(d);
      && IsNormal(n) && n.scale <= d.scale && n.coefficient <= d.coefficient
      && d.coefficient == n.coefficient * P10(d.scale - n.scale)
    decreases d.scale
  {
    if d.scale > 0 && d.coefficient % 10 == 0 {
      var less := Decimal(d.coefficient / 10, d.scale - 1);
      NormalizeExact(less);
      var n := Normalize(d);
      TenTimes(n.coefficient, P10(less.scale - n.scale), less.coefficient);
    }
  }

  lemma {:induction false} NormalizeSame(d: Decimal)
    ensures SameNumber(d, Normalize(d))
  {
    var n := Normalize(d);
    NormalizeExact(d);
    P10Adds(d.scale - n.scale, n.scale);
    Associate(n.coefficient, P10(d.scale - n.scale), P10(n.scale));
  }

  lemma {:induction false} Associate(a: int, b: int, c: int)
    ensures a * b * c == a * (b * c)
  {
  }

  lemma {:induction false} CancelFactor(a: int, b: int, c: int)
    requires c != 0 && a * c == b * c
    ensures a == b
  {
  }

  /** The normal form of a number is unique. */
  lemma {:induction false} NormalUnique(a: Decimal, b: Decimal)
    requires IsNormal(a) && IsNormal(b) && SameNumber(a, b)
    ensures a == b
  {
    if a.scale > b.scale {
      NormalSmaller(b, a);
    } else if b.scale > a.scale {
      NormalSmaller(a, b);
    } else {
      CancelFactor(a.coefficient, b.coefficient, P10(a.scale));
    }
  }

  lemma {:induction false} NormalSmaller(a: Decimal, b: Decimal)
    requires SameNumber(a, b) && a.scale < b.scale
    ensures b.coefficient % 10 == 0
  {
    var k := b.scale - a.scale;
    P10Adds(k, a.scale);
    Associate(a.coefficient, P10(k), P10(a.scale));
    CancelFactor(a.coefficient * P10(k), b.coefficient, P10(a.scale));
    Associate(a.coefficient, 10, P10(k - 1));
    Associate(10, a.coefficient, P10(k - 1));
    MultipleOfTen(a.coefficient * P10(k - 1), b.coefficient);
  }

  lemma {:induction false} MultipleOfTen(k: int, n: int)
    requires n == 10 * k
    ensures n % 10 == 0
  {
  }

  // ---- Parsing theorem ----

  /** Parsing accepts exactly an optional plus sign before a plain decimal whose digits, read without
      the point, make a number of at most 64 bits; the result is the normal form of the number the text
      denotes. */
  lemma {:induction false} ParseMeaning(text: string)
    ensures var whole, fraction := WholePart(Body(text)), FractionPart(Body(text));
      && (Parse(text).Done? <==>
        IsPlainDecimal(Body(text)) && AllDigits(whole + fraction) && NumberOf(whole + fraction) <= UINT64_MAX && |fraction| <= UINT32_MAX)
      && (Parse(text).Done? ==>
        var d := Parse(text).value;
        && IsNormal(d) && SameNumber(Decimal(NumberOf(whole + fraction), |fraction|), d)
        && d == Normalize(Decimal(NumberOf(whole + fraction), |fraction|))
        && d.coefficient <= UINT64_MAX && d.scale <= |fraction|)
  {
    hide WholePart, FractionPart, ScanFrom, Normalize;
    if text == "" || text == "+" {
      NoParts();
      assert Body(text) == "";
    } else if text[0] == '-' {
      NotPlain(Body(text));
    } else {
      var start := if text[0] == '+' then 1 else 0;
      assert Body(text) == text[start..];
      ScanWhole(text, start, Scan(0, 0, false, false));
      var scan := ScanFrom(text, start, Scan(0, 0, false, false));
      if scan.Done? {
        ContinueGrows(0, WholePart(Body(text)) + FractionPart(Body(text)));
        NormalizeExact(Decimal(scan.value.coefficient, scan.value.scale));
        NormalizeSame(Decimal(scan.value.coefficient, scan.value.scale));
      }
    }
  }

  // ---- Ticks ----

  /** `pow10`. */
  function PowerOfTen(exponent: nat): Outcome<int> {
    if P10(exponent) <= UINT64_MAX then Done(P10(exponent)) else Threw(OutOfRange)
  }

  lemma {:induction false} P10Grows(a: nat, b: nat)
    requires a <= b
    ensures P10(a) <= P10(b)
  {
    if a < b {
      P10Grows(a, b - 1);
    }
  }

  /** The largest power of ten of an unsigned 64-bit integer is the nineteenth. */
  lemma {:induction false} PowerFits(exponent: nat)
    ensures PowerOfTen(exponent).Done? <==> exponent <= 19
  {
    P10Adds(10, 10);
    assert P10(10) == 10_000_000_000;
    assert P10(20) == 100_000_000_000_000_000_000;
    if exponent <= 19 {
      P10Grows(exponent, 19);
    } else {
      P10Grows(20, exponent);
    }
  }

  method Pow10(exponent: nat) returns (result: Outcome<int>)
    ensures result == PowerOfTen(exponent)
    ensures result.Done? <==> exponent <= 19
  {
    PowerFits(exponent);
    var value, count := 1, 0;
    while count < exponent
      invariant count <= exponent && value == P10(count) <= UINT64_MAX
    {
      if value > UINT64_MAX / 10 {
        P10Grows(count + 1, exponent);
        return Threw(OutOfRange);
      }
      value := value * 10;
      count := count + 1;
    }
    return Done(value);
  }

  /** `parse_tick_size`. */
  function ParseTick(text: string): Outcome<Decimal> {
    var tick :- Parse(text);
    if tick.coefficient == 0 then Threw(InvalidArgument(MalformedDecimal)) else Done(tick)
  }

  function PriceToTicks(priceText: string, tickText: string): Outcome<int> {
    var price :- Parse(priceText);
    var tick :- ParseTick(tickText);
    var up :- PowerOfTen(tick.scale);
    var down :- PowerOfTen(price.scale);
    Divide(price.coefficient * up, tick.coefficient * down)
  }

  function Divide(numerator: int, denominator: int): Outcome<int> {
    if denominator == 0 then Threw(InvalidArgument(MalformedDecimal))
    else if numerator % denominator != 0 then Threw(InvalidArgument(NotAMultiple))
    else if numerator / denominator > INT64_MAX then Threw(OutOfRange)
    else Done(numerator / denominator)
  }

  function TicksToPrice(ticks: int, tickText: string): Outcome<string> {
    if ticks < 0 then Threw(InvalidArgument(NegativePrice))
    else
      var tick :- ParseTick(tickText);
      if ticks * tick.coefficient > UINT64_MAX then Threw(OutOfRange)
      else Done(Format(ticks * tick.coefficient, tick.scale))
  }

  // ---- Printing ----

  function DigitChar(d: int): (c: char)
    requires 0 <= d <= 9
    ensures IsDigit(c) && DigitOf(c) == d
  {
    ('0' as int + d) as char
  }

  /** `std::to_string`. */
  function DigitsOf(n: nat): (s: string)
    ensures s != "" && AllDigits(s)
  {
    if n < 10 then [DigitChar(n)] else DigitsOf(n / 10) + [DigitChar(n % 10)]
  }

  function Zeros(n: nat): string {
    seq(n, _ => '0')
  }

  /** The digits, with zeros in front until there is one before the point. */
  function Padded(coefficient: nat, scale: nat): (s: string)
    ensures AllDigits(s) && scale < |s|
  {
    var digits := DigitsOf(coefficient);
    if |digits| <= scale then Zeros(scale - |digits| + 1) + digits else digits
  }

  /** `format_scaled_decimal`. */
  function Format(coefficient: nat, scale: nat): string {
    if scale == 0 then DigitsOf(coefficient)
    else
      var digits := Padded(coefficient, scale);
      digits[..|digits| - scale] + "." + digits[|digits| - scale..]
  }

  lemma {:induction false} NumberOfDigits(n: nat)
    ensures NumberOf(DigitsOf(n)) == n
  {
    if n < 10 {
      assert DigitsOf(n) == [DigitChar(n)] && DigitsOf(n)[1..] == "";
      assert Continue(n, "") == n;
    } else {
      NumberOfDigits(n / 10);
      var last := [DigitChar(n % 10)];
      ContinueAppend(0, DigitsOf(n / 10), last);
      assert last[1..] == "";
    }
  }

  lemma {:induction false} NumberOfZeros(n: nat, s: string)
    requires AllDigits(s)
    ensures AllDigits(Zeros(n) + s) && NumberOf(Zeros(n) + s) == NumberOf(s)
  {
    if n == 0 {
      assert Zeros(n) + s == s;
    } else {
      NumberOfZeros(n - 1, s);
      assert (Zeros(n) + s)[1..] == Zeros(n - 1) + s;
    }
  }

  lemma {:induction false} NumberOfPadded(coefficient: nat, scale: nat)
    ensures NumberOf(Padded(coefficient, scale)) == coefficient
  {
    var digits := DigitsOf(coefficient);
    NumberOfDigits(coefficient);
    if |digits| <= scale {
      NumberOfZeros(scale - |digits| + 1, digits);
    }
  }

  lemma {:induction false} PartsJoined(whole: string, fraction: string)
    requires AllDigits(whole)
    ensures WholePart(whole) == whole && FractionPart(whole) == ""
    ensures WholePart(whole + "." + fraction) == whole && FractionPart(whole + "." + fraction) == fraction
  {
    var joined := whole + "." + fraction;
    assert joined[|whole|] == '.';
    assert forall i :: 0 <= i < |whole| ==> IsDigit(whole[i]) && joined[i] == whole[i];
    assert PointAt(joined) == |whole|;
  }

  /** A formatted decimal parses back to the normal form of what was formatted. */
  lemma {:induction false} FormatParses(coefficient: nat, scale: nat)
    requires coefficient <= UINT64_MAX && scale <= UINT32_MAX
    ensures Parse(Format(coefficient, scale)) == Done(Normalize(Decimal(coefficient, scale)))
  {
    hide Parse, Normalize, WholePart, FractionPart;
    var text := Format(coefficient, scale);
    ParseMeaning(text);
    if scale == 0 {
      PartsJoined(text, "");
      NumberOfDigits(coefficient);
      assert text + "" == text;
    } else {
      var digits := Padded(coefficient, scale);
      var whole, fraction := digits[..|digits| - scale], digits[|digits| - scale..];
      NumberOfPadded(coefficient, scale);
      PartsJoined(whole, fraction);
      assert whole + fraction == digits;
      assert text == whole + "." + fraction && text[0] == digits[0];
    }
  }

  // ---- The one printed form ----

  /** More than `k` digits, and no superfluous zero in front. */
  predicate IsLean(digits: string, k: nat) {
    k < |digits| && (|digits| == k + 1 || digits[0] != '0')
  }

  lemma {:induction false} DigitsLean(n: nat)
    ensures IsLean(DigitsOf(n), 0) && (DigitsOf(n)[0] == '0' ==> n == 0)
  {
    if n >= 10 {
      DigitsLean(n / 10);
    }
  }

  lemma {:induction false} PaddedLean(coefficient: nat, scale: nat)
    ensures IsLean(Padded(coefficient, scale), scale)
  {
    DigitsLean(coefficient);
  }

  lemma {:induction false} LastDigit(digits: string)
    requires AllDigits(digits) && digits != ""
    ensures var init, last := digits[..|digits| - 1], digits[|digits| - 1];
      NumberOf(digits) == 10 * NumberOf(init) + DigitOf(last)
  {
    var init, last := digits[..|digits| - 1], digits[|digits| - 1];
    assert digits == init + [last] && [last][1..] == "";
    ContinueAppend(0, init, [last]);
  }

  lemma {:induction false} LeadingDigit(digits: string)
    requires AllDigits(digits) && digits != "" && digits[0] != '0'
    ensures 0 < NumberOf(digits)
  {
    ContinueGrows(DigitOf(digits[0]), digits[1..]);
  }

  /** A number has only one lean writing. */
  lemma {:induction false} LeanUnique(a: string, b: string, k: nat)
    requires AllDigits(a) && AllDigits(b) && IsLean(a, k) && IsLean(b, k) && NumberOf(a) == NumberOf(b)
    ensures a == b
  {
    hide NumberOf;
    LastDigit(a);
    LastDigit(b);
    var x, y := a[..|a| - 1], b[..|b| - 1];
    assert a == x + [a[|a| - 1]] && b == y + [b[|b| - 1]];
    if k > 0 {
      LeanUnique(x, y, k - 1);
    } else if |a| > 1 && |b| > 1 {
      LeanUnique(x, y, 0);
    } else if |a| > 1 {
      NumberOfNothing(y);
      LeadingDigit(x);
    } else if |b| > 1 {
      NumberOfNothing(x);
      LeadingDigit(y);
    } else {
      assert x == y;
    }
  }

  lemma {:induction false} NumberOfNothing(digits: string)
    requires digits == ""
    ensures NumberOf(digits) == 0
  {
  }

  /** `text` is `coefficient` written with exactly `scale` decimals: digits before the point, with no
      superfluous zero, and a point only when digits follow it. */
  predicate IsFixed(text: string, coefficient: nat, scale: nat) {
    var whole, fraction := WholePart(text), FractionPart(text);
    && AllDigits(whole) && AllDigits(fraction) && AllDigits(whole + fraction)
    && whole != "" && (whole[0] == '0' ==> whole == "0") && |fraction| == scale
    && text == (if scale == 0 then whole else whole + "." + fraction)
    && NumberOf(whole + fraction) == coefficient
  }

  lemma {:induction false} FormatParts(coefficient: nat, scale: nat)
    ensures var text, digits := Format(coefficient, scale), Padded(coefficient, scale);
      && WholePart(text) == digits[..|digits| - scale] && FractionPart(text) == digits[|digits| - scale..]
      && text == if scale == 0 then WholePart(text) else WholePart(text) + "." + FractionPart(text)
  {
    hide WholePart, FractionPart;
    var digits := Padded(coefficient, scale);
    PartsJoined(digits[..|digits| - scale], digits[|digits| - scale..]);
    if scale == 0 {
      assert digits[..|digits|] == digits && digits[|digits|..] == "";
    }
  }

  /** The printed text is the only text of this form. */
  lemma {:induction false} FormatMeaning(text: string, coefficient: nat, scale: nat)
    ensures text == Format(coefficient, scale) <==> IsFixed(text, coefficient, scale)
  {
    hide Format, Padded, WholePart, FractionPart, NumberOf, PointAt;
    FormatParts(coefficient, scale);
    PaddedLean(coefficient, scale);
    NumberOfPadded(coefficient, scale);
    var digits := Padded(coefficient, scale);
    var whole, fraction := digits[..|digits| - scale], digits[|digits| - scale..];
    assert whole + fraction == digits;
    if IsFixed(text, coefficient, scale) {
      LeanUnique(WholePart(text) + FractionPart(text), digits, scale);
      SameSplit(WholePart(text), FractionPart(text), whole, fraction);
    }
    assert whole[0] == digits[0];
  }

  lemma {:induction false} SameSplit(a: string, b: string, c: string, d: string)
    requires a + b == c + d && |b| == |d|
    ensures a == c && b == d
  {
    assert a == (a + b)[..|a|] && c == (c + d)[..|c|];
    assert b == (a + b)[|a|..] && d == (c + d)[|c|..];
  }

  // ---- Main results ----

  predicate ScalesFit(price: Decimal, tick: Decimal) {
    tick.scale <= 19 && price.scale <= 19
  }

  /** `ticks` times the tick size. */
  function Ticks(ticks: nat, tick: Decimal): Decimal {
    Decimal(ticks * tick.coefficient, tick.scale)
  }

  lemma {:induction false} ParsedOk(text: string)
    requires Parse(text).Done?
    ensures var d := Parse(text).value;
      IsNormal(d) && d.coefficient <= UINT64_MAX && d.scale <= UINT32_MAX
  {
    hide Parse;
    ParseMeaning(text);
  }

  /** Neither product needs more than 128 bits. */
  lemma {:induction false} ProductsFit(priceText: string, tickText: string)
    requires Parse(priceText).Done? && ParseTick(tickText).Done?
    requires PowerOfTen(Parse(priceText).value.scale).Done? && PowerOfTen(ParseTick(tickText).value.scale).Done?
    ensures var price, tick := Parse(priceText).value, ParseTick(tickText).value;
      && 0 <= price.coefficient * P10(tick.scale) <= UINT128_MAX
      && 0 < tick.coefficient * P10(price.scale) <= UINT128_MAX
  {
    hide Parse, P10;
    ParsedOk(priceText);
    ParsedOk(tickText);
    var price, tick := Parse(priceText).value, ParseTick(tickText).value;
    BoundedProduct(price.coefficient, P10(tick.scale));
    BoundedProduct(tick.coefficient, P10(price.scale));
  }

  lemma {:induction false} BoundedProduct(a: int, b: int)
    requires 0 <= a <= UINT64_MAX && 1 <= b <= UINT64_MAX
    ensures 0 <= a * b <= UINT128_MAX && (0 < a ==> 0 < a * b)
  {
    assert a * b <= UINT64_MAX * b <= UINT64_MAX * UINT64_MAX;
  }

  lemma {:induction false} ExactDivision(numerator: int, denominator: int, n: int)
    requires 0 < denominator && numerator == n * denominator
    ensures numerator % denominator == 0 && numerator / denominator == n
  {
    var q, r := numerator / denominator, numerator % denominator;
    Distribute(n, q, denominator);
    Bracket(n - q, denominator, r);
  }

  lemma {:induction false} Distribute(a: int, b: int, c: int)
    ensures (a - b) * c == a * c - b * c
  {
  }

  lemma {:induction false} Bracket(k: int, d: int, r: int)
    requires 0 < d && 0 <= r < d && k * d == r
    ensures k == 0
  {
    Distribute(k, 1, d);
    SignOfQuotient(k * d, d, k);
    SignOfQuotient((k - 1) * d, d, k - 1);
  }

  lemma {:induction false} DivisionExact(numerator: int, denominator: int)
    requires 0 < denominator && numerator % denominator == 0
    ensures numerator == numerator / denominator * denominator
  {
  }

  lemma {:induction false} Rearranged(n: int, a: int, b: int)
    ensures n * (a * b) == n * a * b
  {
  }

  /** Conversion succeeds exactly when the price is the given whole number of ticks, as exact
      rationals, and the scales fit; there is never a rounding. */
  lemma {:induction false} TicksExact(priceText: string, tickText: string, n: int)
    requires Parse(priceText).Done? && ParseTick(tickText).Done?
    ensures var price, tick := Parse(priceText).value, ParseTick(tickText).value;
      PriceToTicks(priceText, tickText) == Done(n) <==>
        ScalesFit(price, tick) && 0 <= n <= INT64_MAX && SameNumber(price, Ticks(n, tick))
  {
    hide Parse, P10;
    var price, tick := Parse(priceText).value, ParseTick(tickText).value;
    PowerFits(tick.scale);
    PowerFits(price.scale);
    if ScalesFit(price, tick) {
      ProductsFit(priceText, tickText);
      var numerator, denominator := price.coefficient * P10(tick.scale), tick.coefficient * P10(price.scale);
      Rearranged(n, tick.coefficient, P10(price.scale));
      if numerator == n * denominator {
        ExactDivision(numerator, denominator, n);
        SignOfQuotient(numerator, denominator, n);
      } else if PriceToTicks(priceText, tickText) == Done(n) {
        DivisionExact(numerator, denominator);
      }
    }
  }

  /** How a conversion of two decimals fails: a scale too large, not a whole number of ticks, or too many. */
  lemma {:induction false} TicksRefused(priceText: string, tickText: string)
    requires Parse(priceText).Done? && ParseTick(tickText).Done?
    ensures var price, tick := Parse(priceText).value, ParseTick(tickText).value;
      var whole := exists n :: SameNumber(price, Ticks(n, tick));
      var error := if ScalesFit(price, tick) && !whole then InvalidArgument(NotAMultiple) else OutOfRange;
      PriceToTicks(priceText, tickText).Threw? ==> PriceToTicks(priceText, tickText).error == error
  {
    hide Parse, P10;
    var price, tick := Parse(priceText).value, ParseTick(tickText).value;
    PowerFits(tick.scale);
    PowerFits(price.scale);
    if ScalesFit(price, tick) {
      ProductsFit(priceText, tickText);
      var numerator, denominator := price.coefficient * P10(tick.scale), tick.coefficient * P10(price.scale);
      if n: nat :| SameNumber(price, Ticks(n, tick)) {
        Rearranged(n, tick.coefficient, P10(price.scale));
        ExactDivision(numerator, denominator, n);
      } else if numerator % denominator == 0 {
        WholeTicks(price, tick, numerator / denominator);
        assert false;
      }
    }
  }

  lemma {:induction false} WholeTicks(price: Decimal, tick: Decimal, n: int)
    requires var denominator := tick.coefficient * P10(price.scale);
      0 < denominator && (price.coefficient * P10(tick.scale)) % denominator == 0
      && n == price.coefficient * P10(tick.scale) / denominator
    ensures 0 <= n && SameNumber(price, Ticks(n, tick))
  {
    hide P10;
    var numerator, denominator := price.coefficient * P10(tick.scale), tick.coefficient * P10(price.scale);
    DivisionExact(numerator, denominator);
    SignOfQuotient(numerator, denominator, n);
    Rearranged(n, tick.coefficient, P10(price.scale));
  }

  lemma {:induction false} SignOfQuotient(numerator: int, denominator: int, n: int)
    requires 0 < denominator && numerator == n * denominator
    ensures 0 <= numerator <==> 0 <= n
  {
    if n < 0 {
      assert n * denominator < 0;
    }
  }

  /** Printing then parsing gives the ticks back exactly when the tick size has at most 19 decimals in
      normal form; otherwise parsing throws. */
  lemma {:induction false} RoundTrip(ticks: int, tickText: string)
    requires ticks <= INT64_MAX && TicksToPrice(ticks, tickText).Done?
    ensures PriceToTicks(TicksToPrice(ticks, tickText).value, tickText)
         == if ParseTick(tickText).value.scale <= 19 then Done(ticks) else Threw(OutOfRange)
  {
    hide Parse, Format, Normalize, P10;
    var tick := ParseTick(tickText).value;
    ParsedOk(tickText);
    var text := TicksToPrice(ticks, tickText).value;
    var printed := Ticks(ticks, tick);
    FormatParses(printed.coefficient, printed.scale);
    NormalizeExact(printed);
    NormalizeSame(printed);
    PowerFits(tick.scale);
    if tick.scale <= 19 {
      TicksExact(text, tickText, ticks);
    }
  }

  /** A price that converts to ticks prints back whenever its digits still fit 64 bits, and then as the
      same number: both texts have one normal form. */
  lemma {:induction false} PrintsBack(priceText: string, tickText: string)
    requires PriceToTicks(priceText, tickText).Done?
    ensures var ticks := PriceToTicks(priceText, tickText).value;
      var printed := TicksToPrice(ticks, tickText);
      && (printed.Done? <==> ticks * ParseTick(tickText).value.coefficient <= UINT64_MAX)
      && (printed.Done? ==> Parse(printed.value) == Parse(priceText))
  {
    hide Parse, Format, Normalize, P10;
    var ticks := PriceToTicks(priceText, tickText).value;
    var price, tick := Parse(priceText).value, ParseTick(tickText).value;
    TicksExact(priceText, tickText, ticks);
    ParsedOk(priceText);
    ParsedOk(tickText);
    var exact := Ticks(ticks, tick);
    if exact.coefficient <= UINT64_MAX {
      FormatParses(exact.coefficient, exact.scale);
      NormalizeExact(exact);
      NormalizeSame(exact);
      SameTransitive(price, exact, Normalize(exact));
      NormalUnique(price, Normalize(exact));
    }
  }

  lemma {:induction false} SameTransitive(a: Decimal, b: Decimal, c: Decimal)
    requires SameNumber(a, b) && SameNumber(b, c)
    ensures SameNumber(a, c)
  {
    hide P10;
    CrossMultiply(a.coefficient, P10(a.scale), b.coefficient, P10(b.scale), c.coefficient, P10(c.scale));
  }

  lemma {:induction false} CrossMultiply(a: int, x: int, b: int, y: int, c: int, z: int)
    requires a * y == b * x && b * z == c * y && y != 0
    ensures a * z == c * x
  {
    assert a * z * y == a * y * z == b * x * z == b * z * x == c * y * x == c * x * y;
    CancelFactor(a * z, c * x, y);
  }

  /** A tick size of twenty decimals can be printed but not parsed back. */
  lemma {:induction false} RoundTripFails()
    ensures var tick := "0.00000000000000000001";
      TicksToPrice(1, tick) == Done(tick) && PriceToTicks(tick, tick) == Threw(OutOfRange)
  {
    hide Parse;
    hide Format, Normalize, PriceToTicks;
    var tick := "0.00000000000000000001";
    TinyTick();
    FormatParses(1, 20);
    assert Normalize(Decimal(1, 20)) == Decimal(1, 20) by { AlreadyNormal(Decimal(1, 20)); }
    RoundTrip(1, tick);
  }

  lemma {:induction false} AlreadyNormal(d: Decimal)
    requires IsNormal(d)
    ensures Normalize(d) == d
  {
  }

  lemma {:induction false} TinyTick()
    ensures Format(1, 20) == "0.00000000000000000001"
  {
    hide NumberOf;
    var digits := Padded(1, 20);
    assert DigitsOf(1) == "1";
    SplitZeros(20, 1, "1");
    assert digits[..1] == Zeros(1) && digits[1..] == Zeros(19) + "1";
    assert Zeros(1) == "0";
    NineteenZeros();
  }

  lemma {:induction false} SplitZeros(n: nat, k: nat, s: string)
    requires k <= n
    ensures (Zeros(n) + s)[..k] == Zeros(k) && (Zeros(n) + s)[k..] == Zeros(n - k) + s
  {
  }

  lemma {:induction false} NineteenZeros()
    ensures Zeros(19) == "0000000000000000000"
  {
  }
}

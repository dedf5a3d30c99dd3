/** Fixed-point decimals: a decimal is its raw integer, worth raw / 10^18. */
module Fixed {
  import opened Wrappers

  type Decimal = int

  const SCALE: nat := 18
  const UNIT: nat := 1_000_000_000_000_000_000

  datatype ParseError = InvalidDecimal | InvalidFraction

  // ---- decimal digits ---------------------------------------------------------------

  predicate IsDigit(c: char) {
    '0' <= c <= '9'
  }

  predicate AllDigits(s: string) {
    forall i :: 0 <= i < |s| ==> IsDigit(s[i])
  }

  function DigitChar(d: nat): (c: char)
    requires d < 10
    ensures IsDigit(c) && c as int - '0' as int == d
  {
    (d + '0' as int) as char
  }

  /** The decimal digits of a non-negative integer, without leading zeros. */
  function Digits(n: nat): (s: string)
    ensures s != [] && AllDigits(s)
  {
    if n < 10 then [DigitChar(n)] else Digits(n / 10) + [DigitChar(n % 10)]
  }

  /** The number that a string of digits denotes. */
  function Number(s: string): nat
    requires AllDigits(s)
  {
    if s == [] then 0 else 10 * Number(s[..|s| - 1]) + (s[|s| - 1] as int - '0' as int)
  }

  function Pow10(k: nat): (p: nat)
    ensures p > 0
  {
    if k == 0 then 1 else 10 * Pow10(k - 1)
  }

  function Zeros(k: nat): (s: string)
    ensures |s| == k && AllDigits(s) && forall i :: 0 <= i < k ==> s[i] == '0'
  {
    seq(k, _ => '0')
  }

  /** The digits of n, padded on the left with zeros to the given width. */
  function Padded(n: nat, width: nat): (s: string)
    ensures AllDigits(s) && |s| >= width
  {
    var d := Digits(n);
    if |d| < width then Zeros(width - |d|) + d else d
  }

  // ---- reading and writing ----------------------------------------------------------

  /** Index of the first point, or the length when there is none. */
  function PointAt(s: string): (k: nat)
    ensures k <= |s| && forall i :: 0 <= i < k ==> s[i] != '.'
    ensures k < |s| ==> s[k] == '.'
  {
    if s == [] || s[0] == '.' then 0
    else 1 + PointAt(s[1..])
  }

  /** A base-10 integer with an optional sign; anything else is refused. */
  function ParseInteger(s: string): Option<int> {
    var signed := s != [] && (s[0] == '+' || s[0] == '-');
    var digits := if signed then s[1..] else s;
    if digits == [] || !AllDigits(digits) then None
    else
      var n: int := Number(digits);
      Some(if signed && s[0] == '-' then -n else n)
  }

  /** The text after the point, cut or filled up to 18 characters. */
  function FractionText(text: string): (s: string)
    ensures |s| == SCALE
  {
    if |text| > SCALE then text[..SCALE] else text + Zeros(SCALE - |text|)
  }

  /** The text after the sign of the decimal. Its integer part may carry a sign of its own. */
  function ParseUnsigned(s: string): Result<Decimal, ParseError> {
    var point := PointAt(s);
    match ParseInteger(s[..point])
    case None => Err(InvalidDecimal)
    case Some(whole) =>
      var fraction := if point == |s| then Some(0) else ParseInteger(FractionText(s[point + 1..]));
      match fraction
      case None => Err(InvalidFraction)
      case Some(f) => Ok(whole * UNIT + f)
  }

  function Parse(text: string): Result<Decimal, ParseError> {
    if text != [] && text[0] == '-' then
      var raw :- ParseUnsigned(text[1..]);
      Ok(-raw)
    else ParseUnsigned(text)
  }

  function Abs(n: int): nat {
    if n < 0 then -n else n
  }

  function Sign(d: Decimal): string {
    if d < 0 then "-" else ""
  }

  function String(d: Decimal): string {
    Sign(d) + (Digits(Abs(d) / UNIT) + "." + Padded(Abs(d) % UNIT, SCALE))
  }

  function Min(a: Decimal, b: Decimal): (m: Decimal)
    ensures m <= a && m <= b && (m == a || m == b)
  {
    if a < b then a else b
  }

  /** Number of characters left once the zeros that end the text are cut, and with them the
      point in front of them: what replacing \.?0+$ by nothing keeps. */
  function TrimmedLength(s: string): (k: nat)
    ensures k <= |s|
  {
    if s == [] || s[|s| - 1] != '0' then |s|
    else
      var shorter := s[..|s| - 1];
      if shorter != [] && shorter[|s| - 2] == '.' then |s| - 2
      else TrimmedLength(shorter)
  }

  /** How amounts are written in API responses. */
  function FormatDecimal(d: Decimal): string {
    var s := String(d);
    s[..TrimmedLength(s)]
  }

  // ---- round trips ------------------------------------------------------------------

  lemma {:induction false} NumberOfDigits(n: nat)
    ensures Number(Digits(n)) == n
  {
    if n >= 10 {
      NumberOfDigits(n / 10);
      var s := Digits(n);
      assert s[..|s| - 1] == Digits(n / 10);
    }
  }

  lemma {:induction false} DigitsFit(n: nat, k: nat)
    requires n < Pow10(k) && k > 0
    ensures |Digits(n)| <= k
  {
    if n >= 10 {
      DigitsFit(n / 10, k - 1);
    }
  }

  lemma {:induction false} NumberSkipsZeros(k: nat, s: string)
    requires AllDigits(s)
    ensures Number(Zeros(k) + s) == Number(s)
  {
    var t := Zeros(k) + s;
    if s == [] {
      if k > 0 {
        NumberSkipsZeros(k - 1, s);
        assert t[..k - 1] == Zeros(k - 1) + s;
      }
    } else {
      NumberSkipsZeros(k, s[..|s| - 1]);
      assert t[..|t| - 1] == Zeros(k) + s[..|s| - 1];
    }
  }

  lemma UnitIsPow10()
    ensures Pow10(SCALE) == UNIT
  {
    assert Pow10(6) == 1_000_000;
    assert Pow10(12) == 1_000_000 * Pow10(6);
    assert Pow10(18) == 1_000_000 * Pow10(12);
  }

  /** The fraction of a decimal is written with exactly 18 digits, and reads back. */
  lemma FractionReads(f: nat)
    requires f < UNIT
    ensures |Padded(f, SCALE)| == SCALE && Number(Padded(f, SCALE)) == f
  {
    UnitIsPow10();
    DigitsFit(f, SCALE);
    NumberOfDigits(f);
    NumberSkipsZeros(SCALE - |Digits(f)|, Digits(f));
    if |Digits(f)| == SCALE {
      assert Padded(f, SCALE) == Digits(f);
    }
  }

  lemma {:induction false} PointAfter(a: string, b: string)
    requires '.' !in a
    ensures PointAt(a + "." + b) == |a|
  {
    var s := a + "." + b;
    assert s[|a|] == '.' && s[..|a|] == a;
    assert forall i :: 0 <= i < |a| ==> s[i] == a[i];
  }

  /** Unsigned digits read as the number they denote. */
  lemma DigitsRead(s: string)
    requires s != [] && AllDigits(s)
    ensures ParseInteger(s) == Some(Number(s))
  {
    assert IsDigit(s[0]);
  }

  /** Digits of the fraction that read back once filled up to 18 give the decimal. */
  lemma ParseWritten(n: nat, fraction: string)
    requires |fraction| <= SCALE && AllDigits(fraction)
    requires Number(fraction + Zeros(SCALE - |fraction|)) == n % UNIT
    ensures ParseUnsigned(Digits(n / UNIT) + "." + fraction) == Ok(n)
  {
    hide Digits, Number, ParseUnsigned;
    NumberOfDigits(n / UNIT);
    ReadsParts(Digits(n / UNIT), fraction);
  }

  lemma ParseWhole(n: nat)
    requires n % UNIT == 0
    ensures ParseUnsigned(Digits(n / UNIT)) == Ok(n)
  {
    var whole := Digits(n / UNIT);
    assert PointAt(whole) == |whole|;
    assert whole[..|whole|] == whole;
    NumberOfDigits(n / UNIT);
    DigitsRead(whole);
  }

  lemma ParseSigned(d: Decimal, body: string)
    requires body != [] && IsDigit(body[0]) && ParseUnsigned(body) == Ok(Abs(d))
    ensures Parse(Sign(d) + body) == Ok(d)
  {
    var text := Sign(d) + body;
    assert d < 0 ==> text[1..] == body;
    assert d >= 0 ==> text == body;
  }

  lemma {:induction false} NumberShifts(s: string, k: nat)
    requires AllDigits(s)
    ensures Number(s + Zeros(k)) == Number(s) * Pow10(k)
  {
    if k == 0 {
      assert s + Zeros(0) == s;
    } else {
      NumberShifts(s, k - 1);
      assert (s + Zeros(k))[..|s| + k - 1] == s + Zeros(k - 1);
    }
  }

  /** What a text of digits is worth: its fraction counts in units of its own length, and what is
      behind the eighteenth digit is cut off. */
  lemma ParseMeans(whole: string, fraction: string)
    requires whole != [] && AllDigits(whole) && AllDigits(fraction)
    ensures var part := if |fraction| > SCALE then Number(fraction[..SCALE])
                        else Number(fraction) * Pow10(SCALE - |fraction|);
      && Parse(whole) == Ok(Number(whole) * UNIT) && Parse("-" + whole) == Ok(-(Number(whole) * UNIT))
      && Parse(whole + "." + fraction) == Ok(Number(whole) * UNIT + part)
      && Parse("-" + (whole + "." + fraction)) == Ok(-(Number(whole) * UNIT + part))
  {
    hide Number, ParseUnsigned, Pow10, Parse, FractionText;
    ReadsWhole(whole);
    ReadsEither(whole, Number(whole) * UNIT);
    ReadsParts(whole, fraction);
    FractionMeans(fraction);
    ReadsEither(whole + "." + fraction, Number(whole) * UNIT + Number(FractionText(fraction)));
  }

  lemma ReadsEither(body: string, n: int)
    requires body != [] && IsDigit(body[0]) && ParseUnsigned(body) == Ok(n)
    ensures Parse(body) == Ok(n) && Parse("-" + body) == Ok(-n)
  {
    hide ParseUnsigned;
    assert ("-" + body)[1..] == body;
  }

  lemma FractionMeans(fraction: string)
    requires AllDigits(fraction)
    ensures AllDigits(FractionText(fraction))
    ensures Number(FractionText(fraction))
            == if |fraction| > SCALE then Number(fraction[..SCALE]) else Number(fraction) * Pow10(SCALE - |fraction|)
  {
    hide Number, Pow10, FractionText;
    FilledOrCut(fraction);
    if |fraction| <= SCALE {
      NumberShifts(fraction, SCALE - |fraction|);
    }
  }

  lemma FilledOrCut(fraction: string)
    requires AllDigits(fraction)
    ensures AllDigits(FractionText(fraction))
    ensures FractionText(fraction) == if |fraction| > SCALE then fraction[..SCALE] else fraction + Zeros(SCALE - |fraction|)
  {
  }

  lemma ReadsWhole(whole: string)
    requires whole != [] && AllDigits(whole)
    ensures ParseUnsigned(whole) == Ok(Number(whole) * UNIT)
  {
    hide Number;
    assert PointAt(whole) == |whole|;
    assert whole[..|whole|] == whole;
    DigitsRead(whole);
  }

  lemma ReadsParts(whole: string, fraction: string)
    requires whole != [] && AllDigits(whole) && AllDigits(fraction)
    ensures AllDigits(FractionText(fraction))
    ensures ParseUnsigned(whole + "." + fraction) == Ok(Number(whole) * UNIT + Number(FractionText(fraction)))
  {
    hide Number, PointAt, ParseInteger;
    var body := whole + "." + fraction;
    assert '.' !in whole;
    PointAfter(whole, fraction);
    assert body[..|whole|] == whole && body[|whole| + 1..] == fraction;
    DigitsRead(whole);
    DigitsRead(FractionText(fraction));
  }

  /** Every decimal, of either sign, reads back from its own text. */
  lemma ParseString(d: Decimal)
    ensures Parse(String(d)) == Ok(d)
  {
    var fraction := Padded(Abs(d) % UNIT, SCALE);
    FractionReads(Abs(d) % UNIT);
    assert fraction + Zeros(0) == fraction;
    ParseWritten(Abs(d), fraction);
    ParseSigned(d, Digits(Abs(d) / UNIT) + "." + fraction);
  }

  /** One text per decimal: this is what makes the text usable as the key of a price level. */
  lemma StringInjective(a: Decimal, b: Decimal)
    ensures String(a) == String(b) <==> a == b
  {
    ParseString(a);
    ParseString(b);
  }

  /** What trimming cuts off is a run of zeros, with the point when nothing follows it. */
  lemma {:induction false} TrimmedTail(head: string, fraction: string)
    requires AllDigits(fraction)
    ensures var s := head + "." + fraction; var k := TrimmedLength(s);
      if fraction == [] then k == |s|
      else if forall i :: 0 <= i < |fraction| ==> fraction[i] == '0' then k == |head|
      else
        && |head| + 1 < k
        && s[k - 1] != '0'
        && forall i :: k <= i < |s| ==> s[i] == '0'
  {
    var s := head + "." + fraction;
    if fraction != [] && s[|s| - 1] == '0' {
      var shorter := fraction[..|fraction| - 1];
      assert s[..|s| - 1] == head + "." + shorter;
      if shorter != [] {
        TrimmedTail(head, shorter);
        assert forall i :: 0 <= i < |shorter| ==> shorter[i] == fraction[i];
      }
    }
  }

  /** Fraction digits that differ from the full 18 only by the zeros cut off. */
  lemma KeptFraction(n: nat, kept: string)
    requires |kept| <= SCALE && kept <= Padded(n % UNIT, SCALE)
    requires forall i :: |kept| <= i < SCALE ==> Padded(n % UNIT, SCALE)[i] == '0'
    ensures ParseUnsigned(Digits(n / UNIT) + "." + kept) == Ok(n)
  {
    FractionReads(n % UNIT);
    assert kept + Zeros(SCALE - |kept|) == Padded(n % UNIT, SCALE);
    ParseWritten(n, kept);
  }

  lemma ZeroFraction(n: nat)
    requires forall i :: 0 <= i < SCALE ==> Padded(n % UNIT, SCALE)[i] == '0'
    ensures n % UNIT == 0
  {
    FractionReads(n % UNIT);
    NumberSkipsZeros(SCALE, []);
    assert Padded(n % UNIT, SCALE) == Zeros(SCALE) + [];
  }

  /** Cutting the zeros after the point leaves a text of the same number. */
  lemma TrimmedUnsigned(n: nat)
    ensures var s := Digits(n / UNIT) + "." + Padded(n % UNIT, SCALE); var k := TrimmedLength(s);
      && 0 < k
      && ParseUnsigned(s[..k]) == Ok(n)
      && ('.' in s[..k] ==> s[k - 1] != '0' && s[k - 1] != '.')
  {
    hide Digits, Padded, Number, TrimmedLength, ParseUnsigned;
    var whole := Digits(n / UNIT);
    var fraction := Padded(n % UNIT, SCALE);
    FractionReads(n % UNIT);
    TrimmedParts(whole, fraction);
    if TrimmedLength(whole + "." + fraction) == |whole| {
      ZeroFraction(n);
      ParseWhole(n);
    } else {
      KeptFraction(n, fraction[..TrimmedLength(whole + "." + fraction) - |whole| - 1]);
    }
  }

  /** The text that is left after the cut: the whole part, or the whole part and some of the fraction. */
  lemma TrimmedParts(whole: string, fraction: string)
    requires whole != [] && AllDigits(whole) && AllDigits(fraction) && fraction != []
    ensures var s := whole + "." + fraction; var k := TrimmedLength(s);
      if k == |whole| then s[..k] == whole && '.' !in s[..k] && forall i :: 0 <= i < |fraction| ==> fraction[i] == '0'
      else
        && |whole| + 1 < k <= |s| && s[..k] == whole + "." + fraction[..k - |whole| - 1]
        && s[k - 1] != '0' && s[k - 1] != '.'
        && forall i :: k - |whole| - 1 <= i < |fraction| ==> fraction[i] == '0'
  {
    hide TrimmedLength;
    var s := whole + "." + fraction;
    var k := TrimmedLength(s);
    TrimmedTail(whole, fraction);
    assert forall i :: 0 <= i < |fraction| ==> fraction[i] == s[|whole| + 1 + i];
    if k == |whole| {
      assert s[..k] == whole;
    }
  }

  /** A sign in front of the text is out of reach of the cut. */
  lemma {:induction false} TrimmedAfterSign(sign: string, s: string)
    requires TrimmedLength(s) > 0
    ensures TrimmedLength(sign + s) == |sign| + TrimmedLength(s)
  {
    var t := sign + s;
    if s != [] && s[|s| - 1] == '0' {
      var shorter := s[..|s| - 1];
      assert t[..|t| - 1] == sign + shorter;
      if shorter != [] && shorter[|s| - 2] != '.' {
        TrimmedAfterSign(sign, shorter);
      }
    }
  }

  /** The text of an API response still reads back as the decimal it was made from, and it has
      no zero left to cut after the point. */
  lemma ParseFormatDecimal(d: Decimal)
    ensures var s := FormatDecimal(d);
      && Parse(s) == Ok(d)
      && ('.' in s ==> s[|s| - 1] != '0' && s[|s| - 1] != '.')
  {
    hide Digits, Padded, TrimmedLength, Parse, ParseUnsigned;
    var body := Digits(Abs(d) / UNIT) + "." + Padded(Abs(d) % UNIT, SCALE);
    var k := TrimmedLength(body);
    TrimmedUnsigned(Abs(d));
    TrimmedAfterSign(Sign(d), body);
    var s := FormatDecimal(d);
    assert s == Sign(d) + body[..k];
    assert body[..k][0] == Digits(Abs(d) / UNIT)[0];
    ParseSigned(d, body[..k]);
    assert '.' in s ==> '.' in body[..k];
  }

  /** One trimmed text per decimal. */
  lemma FormatDecimalInjective(a: Decimal, b: Decimal)
    ensures FormatDecimal(a) == FormatDecimal(b) <==> a == b
  {
    ParseFormatDecimal(a);
    ParseFormatDecimal(b);
  }
}

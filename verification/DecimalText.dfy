/** Amounts as the provider writes them: an optional sign, digits, a point and an exponent. */
module DecimalText {
  import opened Wrappers
  import opened Digits
  import opened DecimalAmounts

  const I32Max: int := 0x7fff_ffff
  const I32Min: int := -0x8000_0000

  predicate InI32(n: int) { I32Min <= n <= I32Max }

  /** `split_once`: what stands before and after the first marked character. */
  function SplitOnce(text: string, marks: set<char>): (r: (string, Option<string>)) {
    if text == "" then ("", None)
    else if text[0] in marks then ("", Some(text[1..]))
    else
      var rest := SplitOnce(text[1..], marks);
      ([text[0]] + rest.0, rest.1)
  }

  /** Rust's signed integer parser: an optional sign, then at least one digit. */
  function ParseSigned(text: string): Option<int> {
    var digits := if text != "" && (text[0] == '+' || text[0] == '-') then text[1..] else text;
    if digits == "" || !AllDigits(digits) then None
    else Some(if text[0] == '-' then -(Number(digits) as int) else Number(digits))
  }

  function ParseI32(text: string): Option<int> {
    var n := ParseSigned(text);
    if n.Some? && InI32(n.value) then n else None
  }

  function ParseI128(text: string): Option<int> {
    var n := ParseSigned(text);
    if n.Some? && InI128(n.value) then n else None
  }

  function FromSource(source: string): Result<Decimal> {
    var (mantissa, mark) := SplitOnce(source, {'e', 'E'});
    var exponent := if mark.Some? then ParseI32(mark.value) else Some(0);
    if exponent.None? then Failure
    else
      var (integer, point) := SplitOnce(mantissa, {'.'});
      FromParts(integer, if point.Some? then point.value else "", exponent.value)
  }

  function FromParts(integer: string, fraction: string, exponent: int): Result<Decimal> {
    var coefficient := ParseI128(integer + fraction);
    if coefficient.None? || |fraction| > I32Max || !InI32(|fraction| - exponent) then Failure
    else Scaled(coefficient.value, |fraction| - exponent)
  }

  /** `coefficient` divided by ten to the `places`. */
  function Scaled(coefficient: int, places: int): Result<Decimal> {
    if coefficient == 0 then Success(Zero)
    else if places >= 0 then Success(Normal(coefficient, places))
    else
      var whole := CheckedMul(coefficient, PowerOfTen(-places));
      if whole.Failure? then Failure else Success(Normal(whole.value, 0))
  }

  // ---- What a numeral denotes ----

  /** An exponent part: its letter and what follows. */
  datatype Power = Power(mark: char, digits: string)

  datatype Numeral = Numeral(sign: string, integer: string, fraction: Option<string>, exponent: Option<Power>)

  predicate IsSign(text: string) { text == "" || text == "+" || text == "-" }

  predicate WellFormed(n: Numeral) {
    && IsSign(n.sign) && AllDigits(n.integer) && (n.fraction.Some? ==> AllDigits(n.fraction.value))
    && n.integer + Fraction(n) != "" && PowerReads(n.exponent)
  }

  predicate PowerReads(e: Option<Power>) {
    e.Some? ==> (e.value.mark == 'e' || e.value.mark == 'E') && ParseI32(e.value.digits).Some?
  }

  function Exponent(e: Option<Power>): int
    requires PowerReads(e)
  {
    if e.Some? then ParseI32(e.value.digits).value else 0
  }

  function Fraction(n: Numeral): string { if n.fraction.Some? then n.fraction.value else "" }

  function Mantissa(n: Numeral): string {
    n.sign + n.integer + if n.fraction.Some? then "." + n.fraction.value else ""
  }

  function PowerText(e: Option<Power>): string { if e.Some? then [e.value.mark] + e.value.digits else "" }

  function Written(n: Numeral): string { Mantissa(n) + PowerText(n.exponent) }

  function Coefficient(n: Numeral): int
    requires WellFormed(n)
  {
    AllDigitsJoin(n.integer, Fraction(n));
    if n.sign == "-" then -(Number(n.integer + Fraction(n)) as int) else Number(n.integer + Fraction(n))
  }

  function Places(n: Numeral): int
    requires WellFormed(n)
  {
    |Fraction(n)| - Exponent(n.exponent)
  }

  /** The number written, whatever its size. */
  ghost function Denoted(n: Numeral): real
    requires WellFormed(n)
  {
    if Places(n) >= 0 then Coefficient(n) as real / Pow10(Places(n)) as real
    else (Coefficient(n) * Pow10(-Places(n))) as real
  }

  lemma AllDigitsJoin(a: string, b: string)
    requires AllDigits(a) && AllDigits(b)
    ensures AllDigits(a + b)
  {}

  lemma {:induction false} SplitNowhere(text: string, marks: set<char>)
    requires forall c :: c in text ==> c !in marks
    ensures SplitOnce(text, marks) == (text, None)
  {
    if text != "" {
      assert text[0] in text && text == [text[0]] + text[1..];
      SplitNowhere(text[1..], marks);
    }
  }

  lemma {:induction false} SplitThere(head: string, mark: char, tail: string, marks: set<char>)
    requires (forall c :: c in head ==> c !in marks) && mark in marks
    ensures SplitOnce(head + [mark] + tail, marks) == (head, Some(tail))
  {
    var text := head + [mark] + tail;
    if head == "" {
      assert text[1..] == tail;
    } else {
      assert text[0] == head[0] && text[0] in head && head == [head[0]] + head[1..];
      assert text[1..] == head[1..] + [mark] + tail;
      SplitThere(head[1..], mark, tail, marks);
    }
  }

  lemma DigitsAvoid(text: string, marks: set<char>)
    requires AllDigits(text) && marks <= {'e', 'E', '.'}
    ensures forall c :: c in text ==> c !in marks
  {
    forall c | c in text ensures c !in marks {
      var i :| 0 <= i < |text| && text[i] == c;
      assert IsDigit(text[i]);
    }
  }

  lemma MantissaSplits(sign: string, integer: string, fraction: Option<string>)
    requires IsSign(sign) && AllDigits(integer) && (fraction.Some? ==> AllDigits(fraction.value))
    ensures var mantissa := sign + integer + if fraction.Some? then "." + fraction.value else "";
      && SplitOnce(mantissa, {'.'}) == (sign + integer, fraction)
      && forall c :: c in mantissa ==> c !in {'e', 'E'}
  {
    DigitsAvoid(integer, {'e', 'E', '.'});
    if fraction.Some? {
      DigitsAvoid(fraction.value, {'e', 'E', '.'});
      assert sign + integer + ("." + fraction.value) == (sign + integer) + ['.'] + fraction.value;
      SplitThere(sign + integer, '.', fraction.value, {'.'});
    } else {
      assert sign + integer + "" == sign + integer;
      SplitNowhere(sign + integer, {'.'});
    }
  }

  lemma SignedParses(sign: string, digits: string)
    requires IsSign(sign) && AllDigits(digits) && digits != ""
    ensures ParseSigned(sign + digits) == Some(if sign == "-" then -(Number(digits) as int) else Number(digits))
  {
    var text := sign + digits;
    if sign == "" { assert text == digits && IsDigit(digits[0]); } else { assert text[1..] == digits; }
  }

  lemma PowerSplits(mantissa: string, e: Option<Power>)
    requires PowerReads(e) && forall c :: c in mantissa ==> c !in {'e', 'E'}
    ensures var r := SplitOnce(mantissa + PowerText(e), {'e', 'E'});
      r == (mantissa, if e.Some? then Some(e.value.digits) else None)
  {
    hide SplitOnce, ParseI32;
    if e.Some? {
      assert mantissa + PowerText(e) == mantissa + [e.value.mark] + e.value.digits;
      SplitThere(mantissa, e.value.mark, e.value.digits, {'e', 'E'});
    } else {
      assert mantissa + PowerText(e) == mantissa;
      SplitNowhere(mantissa, {'e', 'E'});
    }
  }

  lemma WrittenSplits(n: Numeral)
    requires WellFormed(n)
    ensures SplitOnce(Written(n), {'e', 'E'}) == (Mantissa(n), if n.exponent.Some? then Some(n.exponent.value.digits) else None)
    ensures SplitOnce(Mantissa(n), {'.'}) == (n.sign + n.integer, n.fraction)
  {
    MantissaSplits(n.sign, n.integer, n.fraction);
    hide SplitOnce, PowerReads, PowerText;
    PowerSplits(Mantissa(n), n.exponent);
  }

  lemma CoefficientParses(n: Numeral)
    requires WellFormed(n)
    ensures ParseI128(n.sign + n.integer + Fraction(n)) == if InI128(Coefficient(n)) then Some(Coefficient(n)) else None
  {
    AllDigitsJoin(n.integer, Fraction(n));
    SignedParses(n.sign, n.integer + Fraction(n));
    assert n.sign + n.integer + Fraction(n) == n.sign + (n.integer + Fraction(n));
    hide ParseSigned, ParseI32, InI128;
  }

  /** The parser reads a numeral as its coefficient over its decimal places. */
  lemma WrittenReads(n: Numeral)
    requires WellFormed(n)
    ensures FromSource(Written(n)) ==
      if InI128(Coefficient(n)) && |Fraction(n)| <= I32Max && InI32(Places(n)) then Scaled(Coefficient(n), Places(n)) else Failure
  {
    WrittenSplits(n);
    CoefficientParses(n);
    WrittenParts(n);
    hide FromSource, Scaled, ParseI128, Written, Coefficient, InI128, InI32;
  }

  lemma WrittenParts(n: Numeral)
    requires WellFormed(n)
    ensures FromSource(Written(n)) == FromParts(n.sign + n.integer, Fraction(n), |Fraction(n)| - Places(n))
  {
    hide SplitOnce, FromParts, Written, WellFormed, ParseI32, Mantissa;
    WrittenSplits(n);
    assert PowerReads(n.exponent) by { Powered(n); }
  }

  lemma Powered(n: Numeral)
    requires WellFormed(n)
    ensures PowerReads(n.exponent)
  {
    hide PowerReads;
  }

  /** A numeral that is read becomes the one canonical amount of exactly the number written. */
  lemma ReadingIsExact(n: Numeral)
    requires WellFormed(n) && FromSource(Written(n)).Success?
    ensures Canonical(FromSource(Written(n)).value) && Worth(FromSource(Written(n)).value) == Denoted(n)
  {
    hide FromSource, Coefficient, Places, WellFormed, InI32, Written;
    WrittenReads(n);
    ScaledIsExact(Coefficient(n), Places(n));
  }

  lemma ScaledIsExact(c: int, places: int)
    requires InI128(c) && Scaled(c, places).Success?
    ensures var d := Scaled(c, places).value;
      Canonical(d) && Worth(d) == if places >= 0 then c as real / Pow10(places) as real else (c * Pow10(-places)) as real
  {
    if c == 0 {
      ZeroWorth(Zero);
      ZeroTimes(-places);
    } else if places >= 0 {
      NormalKeepsWorth(c, places);
    } else {
      NormalKeepsWorth(c * Pow10(-places), 0);
    }
  }

  lemma ZeroTimes(k: int)
    ensures k >= 0 ==> 0 * Pow10(k) == 0
  {}

  /** What is refused: a coefficient beyond 128 bits, a scale beyond 32, or a whole number that
      does not fit once its zeros are written out. */
  lemma RefusedNumerals(n: Numeral)
    requires WellFormed(n)
    ensures FromSource(Written(n)).Failure? <==>
      (!InI128(Coefficient(n)) || |Fraction(n)| > I32Max || !InI32(Places(n))
       || (Coefficient(n) != 0 && Places(n) < 0 && !InI128(Coefficient(n) * Pow10(-Places(n)))))
  {
    hide FromSource, Coefficient, Places, WellFormed, InI32, Written, InI128, CheckedMul;
    WrittenReads(n);
    if Coefficient(n) != 0 && Places(n) < 0 { MulFits(Decimal(Coefficient(n), 0), -Places(n)); }
  }

  predicate Fits(coefficient: int, digits: nat, places: int) {
    && InI128(coefficient) && digits <= I32Max && InI32(places)
    && (coefficient == 0 || places >= 0 || InI128(coefficient * Pow10(-places)))
  }

  // ---- Every text that is read ----

  /** Not every accepted text is a numeral: a sign may also stand right after the point, where
      it counts as a decimal place. */
  datatype PointSigned = PointSigned(sign: string, digits: string, exponent: Option<Power>)

  predicate Odd(o: PointSigned) {
    (o.sign == "+" || o.sign == "-") && AllDigits(o.digits) && o.digits != "" && PowerReads(o.exponent)
  }

  function OddText(o: PointSigned): string { "." + (o.sign + o.digits) + PowerText(o.exponent) }

  function OddCoefficient(o: PointSigned): int
    requires Odd(o)
  {
    if o.sign == "-" then -(Number(o.digits) as int) else Number(o.digits)
  }

  function OddPlaces(o: PointSigned): int
    requires Odd(o)
  {
    1 + |o.digits| - Exponent(o.exponent)
  }

  lemma SignedAvoids(o: PointSigned)
    requires Odd(o)
    ensures forall c :: c in "." + (o.sign + o.digits) ==> c !in {'e', 'E'}
  {
    DigitsAvoid(o.digits, {'e', 'E', '.'});
  }

  lemma OddParts(o: PointSigned)
    requires Odd(o)
    ensures FromSource(OddText(o)) == FromParts("", o.sign + o.digits, Exponent(o.exponent))
  {
    var fraction := o.sign + o.digits;
    SignedAvoids(o);
    PowerSplits("." + fraction, o.exponent);
    SplitThere("", '.', fraction, {'.'});
    assert "" + ['.'] + fraction == "." + fraction;
    hide SplitOnce, FromParts, ParseI32, PowerText;
  }

  lemma PointSignedReads(o: PointSigned)
    requires Odd(o)
    ensures FromSource(OddText(o)) ==
      if InI128(OddCoefficient(o)) && 1 + |o.digits| <= I32Max && InI32(OddPlaces(o))
      then Scaled(OddCoefficient(o), OddPlaces(o)) else Failure
  {
    hide FromSource, OddText, Scaled, ParseSigned, Number, InI128, InI32, PowerReads, Exponent;
    OddParts(o);
    OddParses(o);
  }

  lemma OddParses(o: PointSigned)
    requires Odd(o)
    ensures ParseI128("" + (o.sign + o.digits)) == if InI128(OddCoefficient(o)) then Some(OddCoefficient(o)) else None
  {
    hide ParseSigned, Number, InI128, PowerReads;
    SignedParses(o.sign, o.digits);
    assert "" + (o.sign + o.digits) == o.sign + o.digits;
  }

  lemma ScaledFailsIff(c: int, places: int)
    ensures Scaled(c, places).Failure? <==> c != 0 && places < 0 && !InI128(c * Pow10(-places))
  {
    hide CheckedMul, InI128;
    if c != 0 && places < 0 { MulFits(Decimal(c, 0), -places); }
  }

  lemma {:induction false} SplitRejoins(text: string, marks: set<char>)
    ensures var (head, tail) := SplitOnce(text, marks);
      && (tail.None? ==> head == text)
      && (tail.Some? ==> |head| < |text| && text[|head|] in marks && text == head + [text[|head|]] + tail.value)
  {
    if text != "" && text[0] !in marks {
      SplitRejoins(text[1..], marks);
      assert text == [text[0]] + text[1..];
      var (head, tail) := SplitOnce(text[1..], marks);
      if tail.Some? { assert text == ([text[0]] + head) + [text[1..][|head|]] + tail.value; }
    }
  }

  lemma SignedShape(text: string)
    requires ParseSigned(text).Some?
    ensures text != "" && (var k := if text[0] == '+' || text[0] == '-' then 1 else 0;
      IsSign(text[..k]) && AllDigits(text[k..]) && text[k..] != "")
  {
    assert text[0] == '+' ==> text[..1] == "+";
    assert text[0] == '-' ==> text[..1] == "-";
    assert text[..0] == "" && text[0..] == text;
  }

  function PointText(point: Option<string>): string { if point.Some? then "." + point.value else "" }

  lemma SignFirst(fraction: string, e: Option<Power>)
    requires PowerReads(e) && fraction != "" && (fraction[0] == '+' || fraction[0] == '-')
    requires AllDigits(fraction[1..]) && fraction[1..] != ""
    ensures var o := PointSigned(fraction[..1], fraction[1..], e); Odd(o) && OddText(o) == "." + fraction + PowerText(e)
  {
    hide PowerReads, PowerText, AllDigits;
    assert fraction == fraction[..1] + fraction[1..];
    assert fraction[..1] == "+" || fraction[..1] == "-";
  }

  lemma DigitsPart(a: string, b: string)
    requires AllDigits(a + b)
    ensures AllDigits(a) && AllDigits(b)
  {
    forall i | 0 <= i < |a| ensures IsDigit(a[i]) { assert (a + b)[i] == a[i]; }
    forall i | 0 <= i < |b| ensures IsDigit(b[i]) { assert (a + b)[|a| + i] == b[i]; }
  }

  lemma Plain(integer: string, k: nat, point: Option<string>, e: Option<Power>)
    requires PowerReads(e) && k <= |integer| && IsSign(integer[..k])
    requires var digits := integer[k..] + if point.Some? then point.value else ""; AllDigits(digits) && digits != ""
    ensures var n := Numeral(integer[..k], integer[k..], point, e);
      WellFormed(n) && Written(n) == integer + PointText(point) + PowerText(e)
  {
    hide PowerReads, PowerText, IsSign;
    assert integer == integer[..k] + integer[k..];
    DigitsPart(integer[k..], if point.Some? then point.value else "");
  }

  /** A text whose exponent and coefficient parse has one of the two forms. */
  lemma TextForms(integer: string, point: Option<string>, e: Option<Power>)
    requires PowerReads(e) && ParseSigned(integer + if point.Some? then point.value else "").Some?
    ensures var text := integer + PointText(point) + PowerText(e);
      (exists n :: WellFormed(n) && Written(n) == text) || (exists o :: Odd(o) && OddText(o) == text)
  {
    hide PowerReads, PowerText, ParseSigned, WellFormed, Written, Odd, OddText, AllDigits, IsSign;
    var fraction := if point.Some? then point.value else "";
    var whole := integer + fraction;
    SignedShape(whole);
    var k := if whole[0] == '+' || whole[0] == '-' then 1 else 0;
    if integer == "" && k == 1 {
      assert whole == fraction;
      SignFirst(fraction, e);
      assert integer + ("." + fraction) == "." + fraction;
    } else {
      assert whole[..k] == integer[..k] && whole[k..] == integer[k..] + fraction;
      Plain(integer, k, point, e);
    }
  }

  lemma PointRejoins(mantissa: string)
    ensures var (integer, point) := SplitOnce(mantissa, {'.'}); mantissa == integer + PointText(point)
  {
    var (integer, point) := SplitOnce(mantissa, {'.'});
    SplitRejoins(mantissa, {'.'});
    hide SplitOnce;
    if point.Some? { assert [mantissa[|integer|]] == "."; } else { assert integer + "" == integer; }
  }

  lemma PowerRejoins(text: string) returns (e: Option<Power>)
    requires SplitOnce(text, {'e', 'E'}).1.Some? ==> ParseI32(SplitOnce(text, {'e', 'E'}).1.value).Some?
    ensures PowerReads(e) && text == SplitOnce(text, {'e', 'E'}).0 + PowerText(e)
  {
    var (mantissa, mark) := SplitOnce(text, {'e', 'E'});
    SplitRejoins(text, {'e', 'E'});
    hide SplitOnce, ParseI32;
    e := if mark.Some? then Some(Power(text[|mantissa|], mark.value)) else None;
    if mark.None? { assert mantissa + "" == mantissa; }
  }

  lemma ReadTextForms(text: string)
    requires FromSource(text).Success?
    ensures (exists n :: WellFormed(n) && Written(n) == text) || (exists o :: Odd(o) && OddText(o) == text)
  {
    var (mantissa, mark) := SplitOnce(text, {'e', 'E'});
    hide SplitOnce, PowerReads, PowerText, ParseSigned, ParseI32, Scaled, WellFormed, Written, Odd, OddText, InI128, InI32;
    var e := PowerRejoins(text);
    var (integer, point) := SplitOnce(mantissa, {'.'});
    PointRejoins(mantissa);
    assert ParseI128(integer + if point.Some? then point.value else "").Some?;
    TextForms(integer, point, e);
  }

  /** Exactly what is read: a numeral, or a point, a sign, digits and perhaps an exponent, that
      fits. WrittenReads and PointSignedReads say as what. */
  lemma ReadsIff(text: string)
    ensures FromSource(text).Success? <==>
      || (exists n :: WellFormed(n) && Written(n) == text && Fits(Coefficient(n), |Fraction(n)|, Places(n)))
      || (exists o :: Odd(o) && OddText(o) == text && Fits(OddCoefficient(o), 1 + |o.digits|, OddPlaces(o)))
  {
    hide FromSource, WellFormed, Written, Odd, OddText, Coefficient, Places, OddCoefficient, OddPlaces, Fraction, InI128, InI32;
    forall n | WellFormed(n) && Written(n) == text
      ensures FromSource(text).Success? <==> Fits(Coefficient(n), |Fraction(n)|, Places(n))
    {
      RefusedNumerals(n);
    }
    forall o | Odd(o) && OddText(o) == text
      ensures FromSource(text).Success? <==> Fits(OddCoefficient(o), 1 + |o.digits|, OddPlaces(o))
    {
      PointSignedReads(o);
      ScaledFailsIff(OddCoefficient(o), OddPlaces(o));
    }
    if FromSource(text).Success? { ReadTextForms(text); }
  }

  /** Such as: ".+5" is read as five hundredths. */
  lemma SignAfterPoint()
    ensures FromSource(".+5") == Success(Decimal(5, 2))
  {
    var o := PointSigned("+", "5", None);
    assert OddText(o) == ".+5";
    assert "5"[..0] == "" && Number("5") == 5;
    PointSignedReads(o);
  }
}

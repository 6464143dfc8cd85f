/** Decimal text as the Rust formatter writes it and its integer parsers read it back, and the
    byte order in which Rust compares strings. */
module Digits {

  predicate IsDigit(c: char) { '0' <= c <= '9' }

  predicate AllDigits(text: string) { forall i :: 0 <= i < |text| ==> IsDigit(text[i]) }

  function DigitOf(n: nat): char
    requires n < 10
  {
    ('0' as int + n) as char
  }

  function ValueOf(c: char): nat
    requires IsDigit(c)
  {
    c as int - '0' as int
  }

  /** `{n:0width$}`: at least `width` digits. */
  function Pad(n: nat, width: nat): (text: string)
    ensures AllDigits(text) && |text| >= 1 && |text| >= width
    decreases n + width
  {
    if n < 10 && width <= 1 then [DigitOf(n)]
    else Pad(n / 10, if width == 0 then 0 else width - 1) + [DigitOf(n % 10)]
  }

  /** What a run of digits denotes. */
  function Number(text: string): nat
    requires AllDigits(text)
  {
    if text == [] then 0 else 10 * Number(text[..|text| - 1]) + ValueOf(text[|text| - 1])
  }

  function Pow10(n: nat): (p: nat)
    ensures p >= 1
  {
    if n == 0 then 1 else 10 * Pow10(n - 1)
  }

  lemma {:induction false} NumberOfPad(n: nat, width: nat)
    ensures Number(Pad(n, width)) == n
    decreases n + width
  {
    var text := Pad(n, width);
    if n < 10 && width <= 1 {
      assert text[..0] == [];
    } else {
      var shorter := if width == 0 then 0 else width - 1;
      NumberOfPad(n / 10, shorter);
      assert text[..|text| - 1] == Pad(n / 10, shorter);
    }
  }

  lemma {:induction false} PadWidth(n: nat, width: nat)
    requires n < Pow10(width) && width >= 1
    ensures |Pad(n, width)| == width
    decreases width
  {
    if width > 1 { PadWidth(n / 10, width - 1); }
  }

  lemma {:induction false} PadOfNumber(text: string)
    requires AllDigits(text) && |text| >= 1
    ensures Pad(Number(text), |text|) == text && Number(text) < Pow10(|text|)
    decreases |text|
  {
    var front, last := text[..|text| - 1], text[|text| - 1];
    assert front + [last] == text;
    if |text| > 1 {
      PadOfNumber(front);
      assert Number(text) / 10 == Number(front) && Number(text) % 10 == ValueOf(last);
    } else {
      assert front == [] && Number(front) == 0;
    }
    assert DigitOf(ValueOf(last)) == last;
  }

  // ---- Byte order ----

  /** Rust's `<` on strings: the first differing byte decides, and a proper prefix is smaller. */
  predicate Below(a: string, b: string)
    decreases |a|
  {
    if b == [] then false
    else if a == [] then true
    else a[0] < b[0] || (a[0] == b[0] && Below(a[1..], b[1..]))
  }

  /** Equally long heads decide before the tails do. */
  lemma {:induction false} BelowJoin(a: string, b: string, c: string, d: string)
    requires |a| == |b|
    ensures Below(a + c, b + d) <==> Below(a, b) || (a == b && Below(c, d))
    decreases |a|
  {
    if a == [] {
      assert a + c == c && b + d == d;
    } else {
      BelowJoin(a[1..], b[1..], c, d);
      assert (a + c)[1..] == a[1..] + c && (b + d)[1..] == b[1..] + d;
      assert a == b <==> a[0] == b[0] && a[1..] == b[1..] by {
        assert a == [a[0]] + a[1..] && b == [b[0]] + b[1..];
      }
    }
  }

  lemma {:induction false} BelowItself(a: string)
    ensures !Below(a, a)
    decreases |a|
  {
    if a != [] { BelowItself(a[1..]); }
  }

  /** Fields of one width compare as numbers. */
  lemma {:induction false} PadOrder(m: nat, n: nat, width: nat)
    requires width >= 1 && m < Pow10(width) && n < Pow10(width)
    ensures Below(Pad(m, width), Pad(n, width)) <==> m < n
    decreases width
  {
    if width > 1 {
      PadOrder(m / 10, n / 10, width - 1);
      PadWidth(m / 10, width - 1);
      PadWidth(n / 10, width - 1);
      PadEqual(m / 10, n / 10, width - 1);
      BelowJoin(Pad(m / 10, width - 1), Pad(n / 10, width - 1), [DigitOf(m % 10)], [DigitOf(n % 10)]);
      BelowOne(DigitOf(m % 10), DigitOf(n % 10));
    } else {
      BelowOne(DigitOf(m), DigitOf(n));
    }
  }

  lemma BelowOne(a: char, b: char)
    ensures Below([a], [b]) <==> a < b
  {
    assert [a][1..] == [] && [b][1..] == [];
  }

  lemma PadEqual(m: nat, n: nat, width: nat)
    ensures Pad(m, width) == Pad(n, width) <==> m == n
  {
    NumberOfPad(m, width);
    NumberOfPad(n, width);
  }
}

/** UTC instants as text: how they are printed from Unix seconds, how a date is stepped as
    text, and why comparing the text compares the time. */
module Timestamps {
  import opened Wrappers
  import opened Digits
  import opened Calendar

  // ---- Printing ----

  /** A zero-padded number and the separator printed after it. */
  datatype Field = Field(value: nat, width: nat, after: char)

  function TextOf(fields: seq<Field>): string {
    if fields == [] then "" else Pad(fields[0].value, fields[0].width) + [fields[0].after] + TextOf(fields[1..])
  }

  /** `{year:04}`: the sign counts towards the width. */
  function YearText(year: int): string {
    if year < 0 then "-" + Pad(-year, 3) else Pad(year, 4)
  }

  function AfterYear(d: Date, second: nat): seq<Field>
    requires ValidDate(d)
  {
    [Field(d.month, 2, '-'), Field(d.day, 2, 'T'), Field(second / 3600, 2, ':'), Field(second % 3600 / 60, 2, ':'),
     Field(second % 60, 2, 'Z')]
  }

  /** `second` counts from midnight. */
  function InstantText(d: Date, second: nat): string
    requires ValidDate(d)
  {
    YearText(d.year) + "-" + TextOf(AfterYear(d, second))
  }

  // ---- DateTimeUtc ----

  /** The first place a character occurs, or the length. */
  function Find(text: string, c: char): (at: nat)
    ensures at <= |text| && (at < |text| ==> text[at] == c) && c !in text[..at]
  {
    if text == [] || text[0] == c then 0
    else
      assert text[..1 + Find(text[1..], c)] == [text[0]] + text[1..][..Find(text[1..], c)];
      1 + Find(text[1..], c)
  }

  lemma {:induction false} FindIs(text: string, c: char, at: nat)
    requires at < |text| && text[at] == c && c !in text[..at]
    ensures Find(text, c) == at
  {
    if at > 0 {
      assert text[0] in text[..at];
      assert text[..at] == [text[0]] + text[1..][..at - 1];
      FindIs(text[1..], c, at - 1);
    }
  }

  /** Drops a fractional part before a final `Z`; other text passes through. */
  function WholeSeconds(value: string): string {
    if value == "" || value[|value| - 1] != 'Z' then value
    else
      var body := value[..|value| - 1];
      var dot := Find(body, '.');
      if dot == |body| then value else body[..dot] + "Z"
  }

  lemma WholeSecondsOfPlain(value: string)
    requires '.' !in value
    ensures WholeSeconds(value) == value
  {
    if value != "" {
      var body := value[..|value| - 1];
      if Find(body, '.') < |body| { assert body[Find(body, '.')] in value; }
    }
  }

  /** Dropping a fraction again changes nothing, whatever the text. */
  lemma WholeSecondsTwice(value: string)
    ensures WholeSeconds(WholeSeconds(value)) == WholeSeconds(value)
  {
    if value != "" && value[|value| - 1] == 'Z' {
      var body := value[..|value| - 1];
      var dot := Find(body, '.');
      if dot < |body| { WholeSecondsOfPlain(body[..dot] + "Z"); }
    }
  }

  /** One instant has one spelling: any fraction is dropped, and dropping again changes nothing. */
  lemma WholeSecondsDropsFraction(seconds: string, fraction: string)
    requires '.' !in seconds
    ensures WholeSeconds(seconds + "." + fraction + "Z") == seconds + "Z"
    ensures WholeSeconds(WholeSeconds(seconds + "." + fraction + "Z")) == WholeSeconds(seconds + "." + fraction + "Z")
  {
    var value := seconds + "." + fraction + "Z";
    var body := value[..|value| - 1];
    assert body == seconds + "." + fraction;
    assert body[..|seconds|] == seconds;
    FindIs(body, '.', |seconds|);
    WholeSecondsTwice(value);
  }

  lemma {:induction false} PadPlain(n: nat, width: nat)
    ensures '.' !in Pad(n, width)
  {
    var text := Pad(n, width);
    forall i | 0 <= i < |text| ensures text[i] != '.' { assert IsDigit(text[i]); }
  }

  lemma {:induction false} TextPlain(fields: seq<Field>)
    requires forall f :: f in fields ==> f.after != '.'
    ensures '.' !in TextOf(fields)
  {
    if fields != [] {
      TextPlain(fields[1..]);
      PadPlain(fields[0].value, fields[0].width);
    }
  }

  lemma InstantPlain(d: Date, second: nat)
    requires ValidDate(d)
    ensures WholeSeconds(InstantText(d, second)) == InstantText(d, second)
  {
    TextPlain(AfterYear(d, second));
    hide ValidDate, TextOf, AfterYear, WholeSeconds;
    if d.year < 0 { PadPlain(-d.year, 3); } else { PadPlain(d.year, 4); }
    WholeSecondsOfPlain(InstantText(d, second));
  }

  // ---- Unix seconds ----

  /** `div_euclid` and `rem_euclid` are Dafny's own division. */
  function UnixSecondsToUtc(timestamp: int): Option<string> {
    var date := CivilFromDays(timestamp / 86400);
    if date.None? then None
    else
      CivilIsGregorian(timestamp / 86400);
      Some(WholeSeconds(InstantText(date.value, timestamp % 86400)))
  }

  function DateAt(timestamp: int): (d: Date) {
    var date := CivilFromDays(timestamp / 86400);
    if date.Some? then date.value else Date(0, 0, 0)
  }

  /** Every 64-bit timestamp prints, as the valid date and clock time that denote it. */
  lemma UnixSecondsPrint(timestamp: int)
    requires I64Min <= timestamp <= I64Max
    ensures var d, second := DateAt(timestamp), timestamp % 86400;
      && ValidDate(d) && DayNumber(d) * 86400 + second == timestamp
      && UnixSecondsToUtc(timestamp) == Some(InstantText(d, second))
  {
    hide CivilFromDays, DayNumber, WholeSeconds, TextOf;
    CivilIsGregorian(timestamp / 86400);
    InstantPlain(DateAt(timestamp), timestamp % 86400);
  }

  // ---- Order ----

  predicate Alike(a: seq<Field>, b: seq<Field>) {
    |a| == |b| && forall i :: 0 <= i < |a| ==>
      && a[i].width == b[i].width >= 1 && a[i].after == b[i].after
      && a[i].value < Pow10(a[i].width) && b[i].value < Pow10(b[i].width)
  }

  predicate Smaller(a: seq<Field>, b: seq<Field>)
    requires |a| == |b|
  {
    a != [] && (a[0].value < b[0].value || (a[0].value == b[0].value && Smaller(a[1..], b[1..])))
  }

  lemma {:induction false} TextOrders(a: seq<Field>, b: seq<Field>)
    requires Alike(a, b)
    ensures Below(TextOf(a), TextOf(b)) <==> Smaller(a, b)
    decreases |a|
  {
    if a != [] {
      var w := a[0].width;
      TextOrders(a[1..], b[1..]);
      PadWidth(a[0].value, w);
      PadWidth(b[0].value, w);
      PadOrder(a[0].value, b[0].value, w);
      PadEqual(a[0].value, b[0].value, w);
      HeadsDecide(Pad(a[0].value, w), Pad(b[0].value, w), a[0].after, TextOf(a[1..]), TextOf(b[1..]));
    }
  }

  lemma HeadsDecide(a: string, b: string, c: char, s: string, t: string)
    requires |a| == |b|
    ensures Below(a + [c] + s, b + [c] + t) <==> Below(a, b) || (a == b && Below(s, t))
  {
    assert a + [c] + s == a + ([c] + s) && b + [c] + t == b + ([c] + t);
    BelowJoin(a, b, [c] + s, [c] + t);
    BelowJoin([c], [c], s, t);
    BelowItself([c]);
  }

  lemma TextOfMore(f: Field, rest: seq<Field>)
    ensures TextOf([f] + rest) == Pad(f.value, f.width) + [f.after] + TextOf(rest)
  {
    assert ([f] + rest)[1..] == rest;
  }

  lemma SmallerFirst(x: Field, a: seq<Field>, y: Field, b: seq<Field>)
    requires |a| == |b|
    ensures Smaller([x] + a, [y] + b) <==> x.value < y.value || (x.value == y.value && Smaller(a, b))
  {
    assert ([x] + a)[1..] == a && ([y] + b)[1..] == b;
  }

  predicate LaterInYear(a: Date, s: nat, b: Date, t: nat) {
    a.month < b.month || (a.month == b.month && (a.day < b.day || (a.day == b.day && s < t)))
  }

  /** After the year every field has one width, so the text compares as the fields do. */
  lemma RestOrders(a: Date, s: nat, b: Date, t: nat)
    requires ValidDate(a) && ValidDate(b) && s < 86400 && t < 86400
    ensures Below(TextOf(AfterYear(a, s)), TextOf(AfterYear(b, t))) <==> LaterInYear(a, s, b, t)
  {
    AfterAlike(a, s, b, t);
    TextOrders(AfterYear(a, s), AfterYear(b, t));
    ClockOrders(s, t);
    SmallerClock(s, t);
    var p, q := ClockFields(s), ClockFields(t);
    assert AfterYear(a, s) == [Field(a.month, 2, '-')] + ([Field(a.day, 2, 'T')] + p);
    assert AfterYear(b, t) == [Field(b.month, 2, '-')] + ([Field(b.day, 2, 'T')] + q);
    hide ValidDate, Smaller, AfterYear, ClockFields, TextOf;
    SmallerFirst(Field(a.day, 2, 'T'), p, Field(b.day, 2, 'T'), q);
    SmallerFirst(Field(a.month, 2, '-'), [Field(a.day, 2, 'T')] + p, Field(b.month, 2, '-'), [Field(b.day, 2, 'T')] + q);
  }

  lemma AfterAlike(a: Date, s: nat, b: Date, t: nat)
    requires ValidDate(a) && ValidDate(b) && s < 86400 && t < 86400
    ensures Alike(AfterYear(a, s), AfterYear(b, t))
  {
    assert Pow10(2) == 100 by { assert Pow10(1) == 10; }
    hide Pow10, IsLeap;
  }

  function ClockFields(s: nat): (fields: seq<Field>)
    ensures |fields| == 3
  {
    [Field(s / 3600, 2, ':'), Field(s % 3600 / 60, 2, ':'), Field(s % 60, 2, 'Z')]
  }

  lemma SmallerClock(s: nat, t: nat)
    ensures Smaller(ClockFields(s), ClockFields(t)) <==>
            (s / 3600 < t / 3600 || (s / 3600 == t / 3600 &&
              (s % 3600 / 60 < t % 3600 / 60 || (s % 3600 / 60 == t % 3600 / 60 && s % 60 < t % 60))))
  {
    var x, y := Field(s % 60, 2, 'Z'), Field(t % 60, 2, 'Z');
    var u, v := Field(s % 3600 / 60, 2, ':'), Field(t % 3600 / 60, 2, ':');
    assert ClockFields(s) == [Field(s / 3600, 2, ':')] + ([u] + ([x] + []));
    assert ClockFields(t) == [Field(t / 3600, 2, ':')] + ([v] + ([y] + []));
    SmallerFirst(x, [], y, []);
    SmallerFirst(u, [x] + [], v, [y] + []);
    SmallerFirst(Field(s / 3600, 2, ':'), [u] + ([x] + []), Field(t / 3600, 2, ':'), [v] + ([y] + []));
  }

  lemma ClockParts(s: nat)
    ensures s == 3600 * (s / 3600) + 60 * (s % 3600 / 60) + s % 60 && s % 3600 / 60 < 60
  {
    var h, r := s / 3600, s % 3600;
    DivisionIs(s, 60, 60 * h + r / 60, r % 60);
  }

  lemma ClockOrders(s: nat, t: nat)
    ensures s < t <==>
            (s / 3600 < t / 3600 || (s / 3600 == t / 3600 &&
              (s % 3600 / 60 < t % 3600 / 60 || (s % 3600 / 60 == t % 3600 / 60 && s % 60 < t % 60))))
  {
    ClockParts(s);
    ClockParts(t);
    PartsOrder(s / 3600, s % 3600 / 60, s % 60, t / 3600, t % 3600 / 60, t % 60);
  }

  lemma PartsOrder(h: nat, m: nat, s: nat, h': nat, m': nat, s': nat)
    requires m < 60 && s < 60 && m' < 60 && s' < 60
    ensures 3600 * h + 60 * m + s < 3600 * h' + 60 * m' + s' <==> h < h' || (h == h' && (m < m' || (m == m' && s < s')))
  {}

  // ---- Years of any width ----

  lemma Powers()
    ensures Pow10(0) == 1 && Pow10(1) == 10 && Pow10(2) == 100 && Pow10(3) == 1000 && Pow10(4) == 10000
  {}

  lemma {:induction false} PadGrows(small: nat, large: nat, width: nat)
    requires small <= large
    ensures |Pad(small, width)| <= |Pad(large, width)|
    decreases small + width
  {
    if !(small < 10 && width <= 1) { PadGrows(small / 10, large / 10, if width == 0 then 0 else width - 1); }
  }

  /** How many digits more `large` is printed with. */
  function Longer(small: nat, large: nat, width: nat): nat {
    if |Pad(small, width)| <= |Pad(large, width)| then |Pad(large, width)| - |Pad(small, width)| else 0
  }

  function DropDigits(n: nat, digits: nat): nat { Quotient(n, Pow10(digits)) }

  function Quotient(a: nat, b: nat): nat
    requires b >= 1
  {
    a / b
  }

  /** The number that as many first digits of `large` spell as `small` is printed with. */
  function FirstDigits(small: nat, large: nat, width: nat): nat {
    DropDigits(large, Longer(small, large, width))
  }

  lemma Shifted(p: nat, a: nat, b: nat, v: nat)
    ensures 10 * (p * a + b) + v == 10 * p * a + (10 * b + v)
  {}

  lemma OneMoreDigit(text: string)
    requires AllDigits(text) && text != ""
    ensures var front := text[..|text| - 1];
      AllDigits(front) && Number(text) == 10 * Number(front) + ValueOf(text[|text| - 1])
  {}

  lemma {:induction false} NumberSplits(text: string, k: nat)
    requires AllDigits(text) && k <= |text|
    ensures Number(text) == Pow10(|text| - k) * Number(text[..k]) + Number(text[k..])
    decreases |text|
  {
    Powers();
    if k == |text| {
      assert text[..k] == text && text[k..] == "";
    } else {
      hide Number;
      var front := text[..|text| - 1];
      NumberSplits(front, k);
      assert front[..k] == text[..k];
      assert text[k..][..|text| - k - 1] == front[k..];
      OneMoreDigit(text);
      OneMoreDigit(text[k..]);
      Shifted(Pow10(|front| - k), Number(text[..k]), Number(front[k..]), ValueOf(text[|text| - 1]));
    }
  }

  lemma DigitsDropped(text: string, k: nat)
    requires AllDigits(text) && 1 <= k <= |text|
    ensures var first := DropDigits(Number(text), |text| - k);
      text[..k] == Pad(first, k) && first < Pow10(k) && (k == |text| ==> first == Number(text))
  {
    PadOfNumber(text[..k]);
    NumberSplits(text, k);
    RestIsSmall(text, k);
    Powers();
    hide Pad, Number, Pow10;
    assert k == |text| ==> text[..k] == text && text[k..] == "";
    DivisionIs(Number(text), Pow10(|text| - k), Number(text[..k]), Number(text[k..]));
  }

  lemma RestIsSmall(text: string, k: nat)
    requires AllDigits(text) && k <= |text|
    ensures Number(text[k..]) < Pow10(|text| - k)
  {
    if k < |text| { PadOfNumber(text[k..]); }
  }

  lemma FirstDigitsPrinted(small: nat, large: nat, width: nat)
    requires small <= large
    ensures var p, q := Pad(small, width), Pad(large, width);
      |p| <= |q| && q[..|p|] == Pad(FirstDigits(small, large, width), |p|) && p == Pad(small, |p|)
      && FirstDigits(small, large, width) < Pow10(|p|) && small < Pow10(|p|)
      && (|p| == |q| ==> FirstDigits(small, large, width) == large)
  {
    hide Pad, Number, Pow10, DropDigits;
    PadGrows(small, large, width);
    NumberOfPad(small, width);
    NumberOfPad(large, width);
    PadOfNumber(Pad(small, width));
    DigitsDropped(Pad(large, width), |Pad(small, width)|);
  }

  /** A minus sign after the shorter number sorts below any further digit of the longer one. */
  lemma MinusFirst(digits: string, s: string, t: string)
    requires digits != "" && AllDigits(digits)
    ensures Below("-" + s, digits + ("-" + t)) && !Below(digits + ("-" + t), "-" + s)
  {
    assert IsDigit(digits[0]) && (digits + ("-" + t))[0] == digits[0];
  }

  lemma HeadDecides(p: string, head: string, more: string, s: string, t: string)
    requires |p| == |head| && more != "" && AllDigits(more)
    ensures Below(p + ("-" + s), head + (more + ("-" + t))) <==> Below(p, head) || p == head
    ensures Below(head + (more + ("-" + t)), p + ("-" + s)) <==> Below(head, p)
  {
    hide Below, AllDigits;
    BelowJoin(p, head, "-" + s, more + ("-" + t));
    BelowJoin(head, p, more + ("-" + t), "-" + s);
    MinusFirst(more, s, t);
  }

  lemma Tail(q: string, k: nat, t: string)
    requires k < |q| && AllDigits(q)
    ensures q[k..] != "" && AllDigits(q[k..]) && q + t == q[..k] + (q[k..] + t)
  {}

  lemma PrintedOrder(small: nat, large: nat, width: nat, s: string, t: string)
    requires small < large
    ensures var p, q := Pad(small, width) + ("-" + s), Pad(large, width) + ("-" + t);
      && (Below(p, q) <==> small <= FirstDigits(small, large, width))
      && (Below(q, p) <==> FirstDigits(small, large, width) < small)
  {
    hide Pad, Pow10, FirstDigits, Below;
    var p, q, first := Pad(small, width), Pad(large, width), FirstDigits(small, large, width);
    FirstDigitsPrinted(small, large, width);
    PadOrder(small, first, |p|);
    PadOrder(first, small, |p|);
    PadEqual(small, first, |p|);
    if |p| < |q| {
      Tail(q, |p|, "-" + t);
      HeadDecides(p, q[..|p|], q[|p|..], s, t);
    } else {
      BelowJoin(p, q, "-" + s, "-" + t);
      BelowJoin(q, p, "-" + t, "-" + s);
      assert q[..|p|] == q;
    }
  }

  /** Whether the text of these two years sorts as the years do: always across the sign; for
      two later years when the longer number's first digits reach the shorter one; for two
      negative years the other way around. */
  predicate YearsSort(x: int, y: int) {
    if x == y || (x < 0) != (y < 0) then true
    else if x >= 0 then (if x < y then x <= FirstDigits(x, y, 4) else y <= FirstDigits(y, x, 4))
    else if x < y then FirstDigits(-y, -x, 3) < -y
    else FirstDigits(-x, -y, 3) < -x
  }

  lemma YearTextOrder(x: int, y: int, s: string, t: string)
    requires x < y
    ensures var p, q := YearText(x) + ("-" + s), YearText(y) + ("-" + t);
      (Below(p, q) <==> YearsSort(x, y)) && (Below(q, p) <==> !YearsSort(x, y))
  {
    hide Pad, FirstDigits;
    if x >= 0 {
      PrintedOrder(x, y, 4, s, t);
    } else if y < 0 {
      PrintedOrder(-y, -x, 3, t, s);
      var p, q := Pad(-x, 3) + ("-" + s), Pad(-y, 3) + ("-" + t);
      assert YearText(x) + ("-" + s) == "-" + p && YearText(y) + ("-" + t) == "-" + q;
      BelowJoin("-", "-", p, q);
      BelowJoin("-", "-", q, p);
      BelowItself("-");
    } else {
      assert IsDigit(Pad(y, 4)[0]);
    }
  }

  /** For instants of any two years: the text orders them as time does exactly when their years
      sort, and two instants are printed alike only if they are one. */
  lemma TextOrderIff(a: Date, s: nat, b: Date, t: nat)
    requires ValidDate(a) && ValidDate(b) && s < 86400 && t < 86400
    ensures (Below(InstantText(a, s), InstantText(b, t)) <==> DayNumber(a) * 86400 + s < DayNumber(b) * 86400 + t)
        <==> YearsSort(a.year, b.year)
    ensures InstantText(a, s) == InstantText(b, t) <==> DayNumber(a) * 86400 + s == DayNumber(b) * 86400 + t
  {
    var x, y := YearText(a.year) + ("-" + TextOf(AfterYear(a, s))), YearText(b.year) + ("-" + TextOf(AfterYear(b, t)));
    assert InstantText(a, s) == x && InstantText(b, t) == y;
    DayNumberOrders(a, b);
    DayNumberOrders(b, a);
    BelowItself(x);
    if a.year == b.year {
      RestOrders(a, s, b, t);
      RestOrders(b, t, a, s);
      hide Below, TextOf, AfterYear, DayNumber, ValidDate, YearText, InstantText;
      SameYear(YearText(a.year), TextOf(AfterYear(a, s)), TextOf(AfterYear(b, t)));
      SameYear(YearText(a.year), TextOf(AfterYear(b, t)), TextOf(AfterYear(a, s)));
    } else {
      hide Below, TextOf, AfterYear, DayNumber, ValidDate, YearText, InstantText, YearsSort;
      if a.year < b.year {
        YearTextOrder(a.year, b.year, TextOf(AfterYear(a, s)), TextOf(AfterYear(b, t)));
      } else {
        YearTextOrder(b.year, a.year, TextOf(AfterYear(b, t)), TextOf(AfterYear(a, s)));
        YearsSortBothWays(a.year, b.year);
      }
    }
  }

  lemma YearsSortBothWays(x: int, y: int)
    ensures YearsSort(x, y) <==> YearsSort(y, x)
  {}

  lemma SameYear(year: string, s: string, t: string)
    ensures Below(year + ("-" + s), year + ("-" + t)) <==> Below(s, t)
  {
    BelowJoin(year, year, "-" + s, "-" + t);
    BelowJoin("-", "-", s, t);
    BelowItself(year);
    BelowItself("-");
  }

  /** Around the years 0000-9999, an interval of years sorts throughout exactly when it adds
      no more than the year -1. */
  lemma SortedYears(first: int, last: int)
    requires first <= 0 && 9999 <= last
    ensures (forall x, y :: first <= x < y <= last ==> YearsSort(x, y)) <==> -1 <= first && last <= 9999
  {
    if -1 <= first && last <= 9999 {
      forall x, y | first <= x < y <= last ensures YearsSort(x, y) {
        if x >= 0 { FourDigitsSort(x, y); }
      }
    } else if last > 9999 {
      FiveDigitYearsMisorder();
    } else {
      assert !YearsSort(-2, -1) by {
        assert |Pad(1, 3)| == |Pad(2, 3)| == 3 by { PadThree(); }
        assert Pow10(0) == 1;
      }
    }
  }

  lemma PadThree()
    ensures |Pad(1, 3)| == |Pad(2, 3)| == 3
  {
    assert Pow10(3) == 1000 by { assert Pow10(2) == 100; }
    PadWidth(1, 3);
    PadWidth(2, 3);
  }

  lemma FourDigitsSort(x: nat, y: nat)
    requires x < y <= 9999
    ensures YearsSort(x, y)
  {
    Powers();
    hide Pow10, Pad;
    PadWidth(x, 4);
    PadWidth(y, 4);
  }

  /** The year 10000 sorts before the year 9999. */
  lemma FiveDigitYearsMisorder()
    ensures !YearsSort(9999, 10000)
  {
    Powers();
    PadWidth(9999, 4);
    NumberOfPad(10000, 4);
    var q := Pad(10000, 4);
    PadOfNumber(q);
    assert |q| == 5 by {
      assert Pad(10000, 4) == Pad(1000, 3) + ['0'];
      assert Pad(1000, 3) == Pad(100, 2) + ['0'];
      assert Pad(100, 2) == Pad(10, 1) + ['0'];
    }
  }

  const YearZero := -62_167_219_200        // 0000-01-01T00:00:00Z
  const YearTenThousand := 253_402_300_800 // 10000-01-01T00:00:00Z

  predicate FourDigitYear(year: int) { 0 <= year <= 9999 }

  lemma FourDigitsInRange(timestamp: int)
    requires I64Min <= timestamp <= I64Max
    ensures YearZero <= timestamp < YearTenThousand <==> FourDigitYear(DateAt(timestamp).year)
  {
    UnixSecondsPrint(timestamp);
    var d := DateAt(timestamp);
    YearEdges();
    hide DateAt, UnixSecondsToUtc, DayNumber, InstantText, ValidDate;
    DayNumberOrders(d, Date(0, 1, 1));
    DayNumberOrders(d, Date(10000, 1, 1));
    ValidFirst(d);
  }

  lemma ValidFirst(d: Date)
    requires ValidDate(d)
    ensures d.month >= 1 && d.day >= 1
  {}

  lemma YearEdges()
    ensures ValidDate(Date(0, 1, 1)) && ValidDate(Date(10000, 1, 1))
    ensures DayNumber(Date(0, 1, 1)) * 86400 == YearZero && DayNumber(Date(10000, 1, 1)) * 86400 == YearTenThousand
  {}

  /** Any two printed timestamps compare as their instants exactly when their years sort. */
  lemma UnixTextOrdersIff(a: int, b: int)
    requires I64Min <= a <= I64Max && I64Min <= b <= I64Max
    ensures UnixSecondsToUtc(a).Some? && UnixSecondsToUtc(b).Some?
    ensures (Below(UnixSecondsToUtc(a).value, UnixSecondsToUtc(b).value) <==> a < b)
        <==> YearsSort(DateAt(a).year, DateAt(b).year)
    ensures UnixSecondsToUtc(a) == UnixSecondsToUtc(b) <==> a == b
  {
    assert a == b ==> YearsSort(DateAt(a).year, DateAt(b).year);
    hide DateAt, UnixSecondsToUtc, DayNumber, InstantText, ValidDate, Below, YearsSort;
    UnixSecondsPrint(a);
    UnixSecondsPrint(b);
    TextOrderIff(DateAt(a), a % 86400, DateAt(b), b % 86400);
  }

  /** Within the years 0000-9999 they always do. */
  lemma UnixTextOrders(a: int, b: int)
    requires YearZero <= a < YearTenThousand && YearZero <= b < YearTenThousand
    ensures UnixSecondsToUtc(a).Some? && UnixSecondsToUtc(b).Some?
    ensures Below(UnixSecondsToUtc(a).value, UnixSecondsToUtc(b).value) <==> a < b
    ensures UnixSecondsToUtc(a) == UnixSecondsToUtc(b) <==> a == b
  {
    UnixTextOrdersIff(a, b);
    FourDigitsInRange(a);
    FourDigitsInRange(b);
    var x, y := DateAt(a).year, DateAt(b).year;
    hide DateAt, UnixSecondsToUtc, Below, FirstDigits;
    if x < y { FourDigitsSort(x, y); } else if y < x { FourDigitsSort(y, x); YearsSortBothWays(x, y); }
  }

  // ---- Stepping a date as text ----

  const U32Max := 0xffff_ffff

  function Split(text: string, c: char): (parts: seq<string>)
    ensures |parts| >= 1
    decreases |text|
  {
    var at := Find(text, c);
    if at == |text| then [text] else [text[..at]] + Split(text[at + 1..], c)
  }

  /** Rust's `u32` parser: an optional plus sign, then at least one digit. */
  function ParseU32(text: string): Option<nat> {
    var digits := if text != "" && text[0] == '+' then text[1..] else text;
    if digits == "" || !AllDigits(digits) || Number(digits) > U32Max then None else Some(Number(digits))
  }

  /** `{year:04}-{month:02}-{day:02}` */
  function DateText(d: Date): string
    requires d.year >= 0 && d.month >= 0 && d.day >= 0
  {
    Pad(d.year, 4) + "-" + (Pad(d.month, 2) + "-" + Pad(d.day, 2))
  }

  function DateOfText(value: string): (r: Option<Date>)
    ensures r.Some? ==> 0 <= r.value.year <= U32Max && r.value.month >= 0 && r.value.day >= 0
  {
    var parts := Split(value, '-');
    if |parts| != 3 || ParseU32(parts[0]).None? || ParseU32(parts[1]).None? || ParseU32(parts[2]).None? then None
    else Some(Date(ParseU32(parts[0]).value, ParseU32(parts[1]).value, ParseU32(parts[2]).value))
  }

  /** The text of the following day; nothing for text that names no day, or past the last year. */
  function DayAfterText(value: string): Result<string> {
    var d := DateOfText(value);
    if d.None? || !ValidDate(d.value) || NextDay(d.value).year > U32Max then Failure
    else Success(DateText(NextDay(d.value)))
  }

  method ReadDate(value: string) returns (r: Option<Date>)
    ensures r == DateOfText(value)
  {
    hide ParseU32, Split;
    var parts := Split(value, '-');
    var year := ParseU32(parts[0]);
    if year.None? || |parts| < 2 { return None; }
    var month := ParseU32(parts[1]);
    if month.None? || |parts| < 3 { return None; }
    var day := ParseU32(parts[2]);
    if day.None? || |parts| > 3 { return None; }
    r := Some(Date(year.value, month.value, day.value));
  }

  method NextDate(value: string) returns (r: Result<string>)
    ensures r == DayAfterText(value)
  {
    hide IsLeap, Pad, DateOfText, DateText;
    var read := ReadDate(value);
    if read.None? { return Failure; }
    var year, month, day := read.value.year, read.value.month, read.value.day;
    if !(1 <= month <= 12) { return Failure; }
    var daysInMonth := if month == 2 then (if IsLeap(year) then 29 else 28)
                       else if month in {4, 6, 9, 11} then 30 else 31;
    if day == 0 || day > daysInMonth { return Failure; }
    if day < daysInMonth {
      day := day + 1;
    } else if month < 12 {
      month := month + 1;
      day := 1;
    } else {
      if year + 1 > U32Max { return Failure; }
      year := year + 1;
      month := 1;
      day := 1;
    }
    r := Success(DateText(Date(year, month, day)));
  }

  lemma SplitJoin(a: string, c: char, rest: string)
    requires c !in a
    ensures Split(a + [c] + rest, c) == [a] + Split(rest, c)
  {
    var text := a + [c] + rest;
    assert text[..|a|] == a;
    FindIs(text, c, |a|);
    assert text[|a| + 1..] == rest;
  }

  lemma SplitNone(a: string, c: char)
    requires c !in a
    ensures Split(a, c) == [a]
  {
    assert forall i :: 0 <= i < |a| ==> a[i] in a;
  }

  lemma ParsePad(n: nat, width: nat)
    requires n <= U32Max
    ensures ParseU32(Pad(n, width)) == Some(n) && '-' !in Pad(n, width)
  {
    NumberOfPad(n, width);
    var text := Pad(n, width);
    assert IsDigit(text[0]);
    forall i | 0 <= i < |text| ensures text[i] != '-' { assert IsDigit(text[i]); }
  }

  lemma DateRoundTrip(d: Date)
    requires ValidDate(d) && 0 <= d.year <= U32Max
    ensures DateOfText(DateText(d)) == Some(d)
  {
    hide ParseU32, Split, Pad, ValidDate, IsLeap;
    SmallMonth(d);
    ParsePad(d.year, 4);
    ParsePad(d.month, 2);
    ParsePad(d.day, 2);
    ThreeParts(Pad(d.year, 4), Pad(d.month, 2), Pad(d.day, 2));
  }

  lemma SmallMonth(d: Date)
    requires ValidDate(d)
    ensures 1 <= d.month <= 12 && 1 <= d.day <= 31
  {}

  lemma ThreeParts(a: string, b: string, c: string)
    requires '-' !in a && '-' !in b && '-' !in c
    ensures Split(a + "-" + (b + "-" + c), '-') == [a, b, c]
  {
    hide Split;
    SplitJoin(a, '-', b + "-" + c);
    SplitJoin(b, '-', c);
    SplitNone(c, '-');
  }

  /** Decimal digits, with a plus sign or without, for a number of 32 bits. */
  predicate Numeral(text: string, n: int) {
    && 0 <= n <= U32Max
    && ((text != "" && AllDigits(text) && Number(text) == n)
        || (|text| >= 2 && text[0] == '+' && AllDigits(text[1..]) && Number(text[1..]) == n))
  }

  lemma NumeralIff(text: string, n: nat)
    ensures ParseU32(text) == Some(n) <==> Numeral(text, n)
    ensures Numeral(text, n) ==> '-' !in text
  {
    if text != "" && text[0] == '+' { assert !IsDigit(text[0]); }
    if Numeral(text, n) {
      var digits := if text[0] == '+' then text[1..] else text;
      forall i | 0 <= i < |digits| ensures digits[i] != '-' { assert IsDigit(digits[i]); }
      if text[0] == '+' { assert text == ['+'] + digits; }
    }
  }

  lemma SplitOnce(text: string, c: char)
    ensures var parts := Split(text, c);
      if c !in text then parts == [text]
      else text == parts[0] + [c] + text[|parts[0]| + 1..] && parts[1..] == Split(text[|parts[0]| + 1..], c)
  {
    var at := Find(text, c);
    if at < |text| {
      assert text[at] == c;
      assert text == text[..at] + [c] + text[at + 1..];
    } else {
      assert text[..at] == text;
    }
  }

  ghost predicate Spells(value: string, d: Date, a: string, b: string, c: string) {
    value == a + "-" + (b + "-" + c) && Numeral(a, d.year) && Numeral(b, d.month) && Numeral(c, d.day)
  }

  /** Text names a date exactly when it is three numerals with dashes between them. */
  lemma DateOfTextIff(value: string, d: Date)
    requires d.year >= 0 && d.month >= 0 && d.day >= 0
    ensures DateOfText(value) == Some(d) <==> exists a, b, c :: Spells(value, d, a, b, c)
  {
    hide Numeral, Split, ParseU32;
    var parts := Split(value, '-');
    if DateOfText(value) == Some(d) {
      ThreeRejoin(value, '-');
      NumeralIff(parts[0], d.year);
      NumeralIff(parts[1], d.month);
      NumeralIff(parts[2], d.day);
      assert Spells(value, d, parts[0], parts[1], parts[2]);
    }
    if a, b, c :| Spells(value, d, a, b, c) {
      NumeralIff(a, d.year);
      NumeralIff(b, d.month);
      NumeralIff(c, d.day);
      ThreeParts(a, b, c);
    }
  }

  lemma ThreeRejoin(value: string, c: char)
    requires |Split(value, c)| == 3
    ensures var parts := Split(value, c); value == parts[0] + [c] + (parts[1] + [c] + parts[2])
  {
    hide Split;
    var parts := Split(value, c);
    SplitOnce(value, c);
    var rest := value[|parts[0]| + 1..];
    SplitOnce(rest, c);
    SplitOnce(rest[|parts[1]| + 1..], c);
  }

  /** A date is stepped exactly when it is a day of the calendar and the next day's year has 32
      bits; any other text is refused. */
  lemma StepsIff(value: string)
    ensures DayAfterText(value).Success? <==> exists d, a, b, c ::
      Spells(value, d, a, b, c) && ValidDate(d) && !(d.year == U32Max && d.month == 12 && d.day == 31)
    ensures forall d, a, b, c :: Spells(value, d, a, b, c) && DayAfterText(value).Success? ==>
      DayAfterText(value) == Success(DateText(NextDay(d)))
  {
    hide Spells, DateOfText, DateText;
    forall d, a, b, c | Spells(value, d, a, b, c) ensures DateOfText(value) == Some(d) {
      SpelledDate(value, d, a, b, c);
      DateOfTextIff(value, d);
    }
    if DateOfText(value).Some? { DateOfTextIff(value, DateOfText(value).value); }
  }

  lemma SpelledDate(value: string, d: Date, a: string, b: string, c: string)
    requires Spells(value, d, a, b, c)
    ensures d.year >= 0 && d.month >= 0 && d.day >= 0
  {}

  /** Stepping a printed day is printing the next day of the era formula; the last day of the
      last 32-bit year is the one that fails. */
  lemma DayTextFollowsCalendar(n: int)
    requires n < I64Max - 719_468 && CivilFromDays(n).Some? && 0 <= CivilFromDays(n).value.year <= U32Max
    ensures var d := CivilFromDays(n).value;
      && ValidDate(d) && CivilFromDays(n + 1) == Some(NextDay(d))
      && DayAfterText(DateText(d)) == if NextDay(d).year > U32Max then Failure else Success(DateText(NextDay(d)))
  {
    hide CivilFromDays, DateText, DayAfterText, NextDay, ValidDate, DayNumber;
    CivilIsGregorian(n);
    CivilSteps(n);
    DayAfterPrinted(CivilFromDays(n).value);
  }

  lemma DayAfterPrinted(d: Date)
    requires ValidDate(d) && 0 <= d.year <= U32Max
    ensures DayAfterText(DateText(d)) == if NextDay(d).year > U32Max then Failure else Success(DateText(NextDay(d)))
  {
    DateRoundTrip(d);
    hide DateText, DateOfText, NextDay, ValidDate;
  }

  /** A usage day's bounds, built from date text, are the midnights of its Unix days. */
  lemma MidnightText(d: Date)
    requires ValidDate(d) && d.year >= 0
    ensures DateText(d) + "T00:00:00Z" == InstantText(d, 0)
  {
    assert Pad(0, 2) == "00" by { assert Pad(0, 1) == "0"; }
    hide ValidDate, Pad;
    var day, month := Field(d.day, 2, 'T'), Field(d.month, 2, '-');
    var clock := [Field(0, 2, ':'), Field(0, 2, ':'), Field(0, 2, 'Z')];
    assert AfterYear(d, 0) == [month] + ([day] + clock);
    MidnightClock();
    TextOfMore(day, clock);
    TextOfMore(month, [day] + clock);
  }

  lemma MidnightClock()
    requires Pad(0, 2) == "00"
    ensures TextOf([Field(0, 2, ':'), Field(0, 2, ':'), Field(0, 2, 'Z')]) == "00:00:00Z"
  {
    hide Pad;
    var x, z := Field(0, 2, ':'), Field(0, 2, 'Z');
    assert [x, x, z] == [x] + ([x] + ([z] + []));
    TextOfMore(z, []);
    TextOfMore(x, [z] + []);
    TextOfMore(x, [x] + ([z] + []));
  }
}

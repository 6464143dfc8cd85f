/** RFC 3339 reset times with an offset, normalized to UTC by borrowing or carrying one day.
    The reference is the other path through the code: count days, subtract the offset, print. */
module ClaudeTimestamps {
  import opened Wrappers
  import opened Digits
  import opened Calendar
  import opened Timestamps

  // ---- What a timestamp says ----

  ghost predicate IsFraction(text: string) {
    text == "" || (|text| >= 2 && text[0] == '.' && AllDigits(text[1..]))
  }

  /** `Z`, or a sign, hours and minutes east of UTC. */
  ghost predicate IsZone(text: string, offset: int) {
    || (text == "Z" && offset == 0)
    || exists hours: nat, minutes: nat :: SignedZone(text, offset, hours, minutes)
  }

  predicate SignedZone(text: string, offset: int, hours: nat, minutes: nat) {
    && hours <= 23 && minutes <= 59 && |text| == 6
    && text[1..3] == Pad(hours, 2) && text[3] == ':' && text[4..6] == Pad(minutes, 2)
    && ((text[0] == '+' && offset == hours * 3600 + minutes * 60)
        || (text[0] == '-' && offset == -(hours * 3600 + minutes * 60)))
  }

  predicate Head(text: string, d: Date, second: nat)
    requires ValidDate(d) && FourDigitYear(d.year)
  {
    && |text| >= 19
    && text[..4] == Pad(d.year, 4) && text[4] == '-' && text[5..7] == Pad(d.month, 2) && text[7] == '-'
    && text[8..10] == Pad(d.day, 2) && text[10] == 'T' && text[11..13] == Pad(second / 3600, 2) && text[13] == ':'
    && text[14..16] == Pad(second % 3600 / 60, 2) && text[16] == ':' && text[17..19] == Pad(second % 60, 2)
  }

  ghost predicate Tail(text: string, offset: int) {
    exists k :: 0 <= k <= |text| && IsFraction(text[..k]) && IsZone(text[k..], offset)
  }

  /** `text` is the local date and clock time `offset` seconds east of UTC, with any fraction. */
  ghost predicate Denotes(text: string, d: Date, second: nat, offset: int) {
    ValidDate(d) && FourDigitYear(d.year) && second < 86400 && Head(text, d, second) && Tail(text[19..], offset)
  }

  /** The instant's own text, if its UTC year still has four digits. */
  function UtcOf(instant: int): Result<string> {
    if YearZero <= instant < YearTenThousand && UnixSecondsToUtc(instant).Some? then Success(UnixSecondsToUtc(instant).value)
    else Failure
  }

  // ---- Borrow and carry ----

  function DayBefore(d: Date): Date {
    if d.day > 1 then d.(day := d.day - 1)
    else if d.month == 1 then Date(d.year - 1, 12, DaysInMonth(d.year - 1, 12))
    else Date(d.year, d.month - 1, DaysInMonth(d.year, d.month - 1))
  }

  lemma DayBeforeCounts(d: Date)
    requires ValidDate(d)
    ensures ValidDate(DayBefore(d)) && DayNumber(DayBefore(d)) == DayNumber(d) - 1
  {
    assert ValidDate(DayBefore(d)) && NextDay(DayBefore(d)) == d by { hide IsLeap; }
    NextDayCounts(DayBefore(d));
    hide DayNumber, DayBefore, NextDay, ValidDate;
  }

  method ToUtc(d: Date, second: nat, offset: int) returns (r: Result<string>)
    requires ValidDate(d) && FourDigitYear(d.year) && second < 86400 && -86400 < offset < 86400
    ensures r == UtcOf(DayNumber(d) * 86400 + second - offset)
  {
    hide IsLeap, DayNumber, InstantText, UtcOf;
    DayBeforeCounts(d);
    NextDayCounts(d);
    var year, month, day := d.year, d.month, d.day;
    var seconds := second - offset;
    if seconds < 0 {
      seconds := seconds + 86400;
      day := day - 1;
      if day == 0 {
        if month == 1 {
          year := year - 1;
          month := 12;
        } else {
          month := month - 1;
        }
        day := DaysInMonth(year, month);
      }
      assert Date(year, month, day) == DayBefore(d);
    } else if seconds >= 86400 {
      seconds := seconds - 86400;
      day := day + 1;
      if day > DaysInMonth(year, month) {
        day := 1;
        month := month + 1;
        if month == 13 {
          year := year + 1;
          month := 1;
        }
      }
      assert Date(year, month, day) == NextDay(d);
    }
    ghost var e := Date(year, month, day);
    assert ValidDate(e) && DayNumber(e) * 86400 + seconds == DayNumber(d) * 86400 + second - offset;
    hide DaysInMonth, ValidDate, DayBefore, NextDay;
    PrintsInstant(e, seconds);
    if !(0 <= year <= 9999) { return Failure; }
    r := Success(InstantText(Date(year, month, day), seconds));
  }

  lemma PrintsInstant(e: Date, second: int)
    requires ValidDate(e) && -1 <= e.year <= 10000 && 0 <= second < 86400
    ensures UtcOf(DayNumber(e) * 86400 + second) == if FourDigitYear(e.year) then Success(InstantText(e, second)) else Failure
  {
    hide ValidDate, DayNumber, InstantText, CivilFromDays, UnixSecondsToUtc, DateAt;
    DayRange(e);
    AtInstant(e, second);
    var t := DayNumber(e) * 86400 + second;
    FourDigitsInRange(t);
    UnixSecondsPrint(t);
  }

  lemma AtInstant(e: Date, second: int)
    requires ValidDate(e) && 0 <= second < 86400 && DayNumber(e) <= Calendar.I64Max - 719_468
    ensures var t := DayNumber(e) * 86400 + second; DateAt(t) == e && t % 86400 == second
  {
    hide ValidDate, DayNumber, CivilFromDays;
    DivisionIs(DayNumber(e) * 86400 + second, 86400, DayNumber(e), second);
    CivilOfDayNumber(e);
  }

  lemma DayRange(e: Date)
    requires ValidDate(e) && -1 <= e.year <= 10000
    ensures -719_528 - 366 <= DayNumber(e) <= 2_932_896 + 366
  {
    WithinYear(e);
    hide ValidDate, IsLeap;
  }

  // ---- Reading ----

  predicate IsAscii(text: string) { forall i :: 0 <= i < |text| ==> text[i] as int < 128 }

  /** What the parser's fixed-position checks establish. */
  predicate Shaped(text: string) {
    && |text| >= 20 && IsAscii(text)
    && text[4] == '-' && text[7] == '-' && text[10] == 'T' && text[13] == ':' && text[16] == ':'
    && AllDigits(text[..4]) && AllDigits(text[5..7]) && AllDigits(text[8..10])
    && AllDigits(text[11..13]) && AllDigits(text[14..16]) && AllDigits(text[17..19])
  }

  function SecondOf(text: string): nat
    requires Shaped(text)
  {
    Number(text[11..13]) * 3600 + Number(text[14..16]) * 60 + Number(text[17..19])
  }

  function DateOf(text: string): Date
    requires Shaped(text)
  {
    Date(Number(text[..4]), Number(text[5..7]), Number(text[8..10]))
  }

  predicate InRange(text: string)
    requires Shaped(text)
  {
    ValidDate(DateOf(text)) && Number(text[11..13]) <= 23 && Number(text[14..16]) <= 59 && Number(text[17..19]) <= 59
  }

  lemma ReadsField(text: string, n: nat)
    requires n < Pow10(|text|) && |text| >= 1
    ensures text == Pad(n, |text|) <==> AllDigits(text) && Number(text) == n
  {
    NumberOfPad(n, |text|);
    if AllDigits(text) { PadOfNumber(text); }
  }

  lemma ReadsPair(text: string, n: nat)
    requires |text| == 2 && n < 100
    ensures text == Pad(n, 2) <==> AllDigits(text) && Number(text) == n
  {
    Powers();
    ReadsField(text, n);
  }

  /** A fixed-position reading is the local time, and only it. */
  lemma HeadReads(text: string, d: Date, second: nat)
    requires ValidDate(d) && FourDigitYear(d.year) && second < 86400
    requires |text| >= 20 && IsAscii(text)
    ensures Head(text, d, second) <==> Shaped(text) && InRange(text) && DateOf(text) == d && SecondOf(text) == second
  {
    Powers();
    SmallMonth(d);
    ClockParts(second);
    ReadsField(text[..4], d.year);
    ReadsPair(text[5..7], d.month);
    ReadsPair(text[8..10], d.day);
    ReadsPair(text[11..13], second / 3600);
    ReadsPair(text[14..16], second % 3600 / 60);
    ReadsPair(text[17..19], second % 60);
    hide ValidDate, Pad, Number, AllDigits, IsAscii;
    if Shaped(text) && InRange(text) && SecondOf(text) == second {
      ClockIs(Number(text[11..13]), Number(text[14..16]), Number(text[17..19]));
    }
  }

  lemma ClockIs(h: nat, m: nat, s: nat)
    requires h <= 23 && m <= 59 && s <= 59
    ensures var t := h * 3600 + m * 60 + s; t < 86400 && t / 3600 == h && t % 3600 / 60 == m && t % 60 == s
  {
    DivisionIs(h * 3600 + m * 60 + s, 3600, h, m * 60 + s);
    DivisionIs(h * 3600 + m * 60 + s, 60, h * 60 + m, s);
  }

  lemma ShapedFits(text: string)
    requires Shaped(text) && InRange(text)
    ensures FourDigitYear(DateOf(text).year) && SecondOf(text) < 86400
  {
    Powers();
    PadOfNumber(text[..4]);
    hide ValidDate;
  }

  /** What the zone text says, if anything. */
  function ZoneOffset(zone: string): Option<int> {
    if zone == "Z" then Some(0)
    else if |zone| != 6 || !(zone[0] == '+' || zone[0] == '-') || zone[3] != ':' then None
    else if !AllDigits(zone[1..3]) || !AllDigits(zone[4..6]) then None
    else
      var hours, minutes := Number(zone[1..3]), Number(zone[4..6]);
      if hours > 23 || minutes > 59 then None
      else
        var seconds := hours * 3600 + minutes * 60;
        Some(if zone[0] == '+' then seconds else -seconds)
  }

  lemma ZoneReads(zone: string, offset: int)
    ensures IsZone(zone, offset) <==> ZoneOffset(zone) == Some(offset)
    ensures IsZone(zone, offset) ==> -86400 < offset < 86400 && zone != "" && !IsDigit(zone[0]) && zone[0] != '.'
  {
    if ZoneOffset(zone) == Some(offset) && zone != "Z" {
      ReadsPair(zone[1..3], Number(zone[1..3]));
      ReadsPair(zone[4..6], Number(zone[4..6]));
      assert SignedZone(zone, offset, Number(zone[1..3]), Number(zone[4..6]));
    }
    forall hours: nat, minutes: nat | SignedZone(zone, offset, hours, minutes) ensures ZoneOffset(zone) == Some(offset) {
      ReadsPair(zone[1..3], hours);
      ReadsPair(zone[4..6], minutes);
    }
  }

  lemma AsciiJoin(text: string, k: nat)
    requires k <= |text| && IsAscii(text[..k]) && IsAscii(text[k..])
    ensures IsAscii(text)
  {
    forall i | 0 <= i < |text| ensures text[i] as int < 128 {
      assert text[i] == if i < k then text[..k][i] else text[k..][i - k];
    }
  }

  lemma PadAscii(n: nat, width: nat)
    ensures IsAscii(Pad(n, width))
  {
    assert AllDigits(Pad(n, width));
  }

  lemma TailAscii(text: string, offset: int)
    requires Tail(text, offset)
    ensures IsAscii(text) && text != ""
  {
    var k :| 0 <= k <= |text| && IsFraction(text[..k]) && IsZone(text[k..], offset);
    ZoneReads(text[k..], offset);
    assert IsAscii(text[..k]) by {
      forall i | 1 <= i < k ensures IsDigit(text[i]) { assert text[..k][1..][i - 1] == text[i]; }
    }
    ZoneAscii(text[k..], offset);
    AsciiJoin(text, k);
  }

  lemma ZoneAscii(zone: string, offset: int)
    requires ZoneOffset(zone) == Some(offset)
    ensures IsAscii(zone)
  {
    if zone != "Z" {
      assert IsAscii(zone[..1]) && IsAscii(zone[1..3]) && IsAscii(zone[3..4]) && IsAscii(zone[4..6]);
      assert zone[1..6][..2] == zone[1..3] && zone[1..6][2..] == zone[3..6];
      assert zone[3..6][..1] == zone[3..4] && zone[3..6][1..] == zone[4..6];
      AsciiJoin(zone[3..6], 1);
      AsciiJoin(zone[1..6], 2);
      assert zone[1..] == zone[1..6];
      AsciiJoin(zone, 1);
    }
  }

  lemma HeadAscii(text: string, d: Date, second: nat)
    requires ValidDate(d) && FourDigitYear(d.year) && Head(text, d, second)
    ensures IsAscii(text[..19])
  {
    PadAscii(d.year, 4);
    PadAscii(d.month, 2);
    PadAscii(d.day, 2);
    PadAscii(second / 3600, 2);
    PadAscii(second % 3600 / 60, 2);
    PadAscii(second % 60, 2);
    hide ValidDate, Pad;
    var t := text[..19];
    forall i | 0 <= i < 19 ensures t[i] as int < 128 {
      if i < 4 { assert t[i] == text[..4][i]; }
      else if 5 <= i < 7 { assert t[i] == text[5..7][i - 5]; }
      else if 8 <= i < 10 { assert t[i] == text[8..10][i - 8]; }
      else if 11 <= i < 13 { assert t[i] == text[11..13][i - 11]; }
      else if 14 <= i < 16 { assert t[i] == text[14..16][i - 14]; }
      else if 17 <= i < 19 { assert t[i] == text[17..19][i - 17]; }
    }
  }

  /** What a timestamp denotes is exactly what the parser reads, so it denotes one time. */
  lemma DenotesReads(text: string, d: Date, second: nat, offset: int)
    requires Denotes(text, d, second, offset)
    ensures Shaped(text) && InRange(text) && DateOf(text) == d && SecondOf(text) == second
  {
    hide ValidDate, Tail, IsAscii;
    assert |text| >= 19;
    hide Head;
    TailAscii(text[19..], offset);
    HeadAscii(text, d, second);
    AsciiJoin(text, 19);
    HeadReads(text, d, second);
  }

  method ReadTail(tail: string) returns (offset: Option<int>)
    ensures offset.Some? ==> Tail(tail, offset.value)
    ensures forall o :: Tail(tail, o) ==> offset == Some(o)
  {
    hide ZoneOffset;
    var k := 0;
    if tail != "" && tail[0] == '.' {
      var fraction := tail[1..];
      var end := 0;
      while end < |fraction| && IsDigit(fraction[end])
        invariant end <= |fraction| && AllDigits(fraction[..end])
      {
        end := end + 1;
      }
      TailSplits(tail, end + 1);
      if end == |fraction| || end == 0 { return None; }
      k := end + 1;
      assert tail[..k][1..] == fraction[..end] && fraction[end..] == tail[k..];
      assert IsFraction(tail[..k]);
    } else {
      TailSplits(tail, 0);
      assert IsFraction(tail[..0]);
    }
    offset := ZoneOffset(tail[k..]);
    if offset.Some? { ZoneReads(tail[k..], offset.value); }
  }

  /** A tail splits where its digits end. */
  lemma TailSplits(tail: string, k: nat)
    requires k <= |tail|
    requires if k == 0 then tail == "" || tail[0] != '.'
             else tail[0] == '.' && AllDigits(tail[1..][..k - 1]) && (k < |tail| ==> !IsDigit(tail[k]))
    ensures forall o :: Tail(tail, o) ==> k < |tail| && k != 1 && ZoneOffset(tail[k..]) == Some(o)
  {
    hide ZoneOffset;
    forall o | Tail(tail, o) ensures k < |tail| && k != 1 && ZoneOffset(tail[k..]) == Some(o) {
      var j :| 0 <= j <= |tail| && IsFraction(tail[..j]) && IsZone(tail[j..], o);
      ZoneReads(tail[j..], o);
      assert tail[j..][0] == tail[j];
      if j > 0 {
        assert tail[..j][0] == tail[0];
        forall i | 1 <= i < j ensures IsDigit(tail[i]) { assert tail[..j][1..][i - 1] == tail[i]; }
        forall i | 1 <= i < k ensures IsDigit(tail[i]) { assert tail[1..][..k - 1][i - 1] == tail[i]; }
      }
      assert j == k;
    }
  }

  method ReadLocal(text: string) returns (r: Option<(Date, nat, int)>)
    ensures r.Some? ==> Denotes(text, r.value.0, r.value.1, r.value.2)
    ensures forall d, second: nat, offset :: Denotes(text, d, second, offset) ==> r == Some((d, second, offset))
  {
    forall d, second: nat, offset | Denotes(text, d, second, offset)
      ensures Shaped(text) && InRange(text) && DateOf(text) == d && SecondOf(text) == second && Tail(text[19..], offset)
    {
      DenotesReads(text, d, second, offset);
    }
    hide ValidDate, Tail, Head;
    if |text| < 20 || !IsAscii(text) || text[4] != '-' || text[7] != '-' || text[10] != 'T' || text[13] != ':' || text[16] != ':' {
      return None;
    }
    if !AllDigits(text[..4]) || !AllDigits(text[5..7]) || !AllDigits(text[8..10]) || !AllDigits(text[11..13])
      || !AllDigits(text[14..16]) || !AllDigits(text[17..19]) {
      return None;
    }
    hide IsAscii, AllDigits;
    var d, second := DateOf(text), SecondOf(text);
    if !InRange(text) { return None; }
    var offset := ReadTail(text[19..]);
    if offset.None? { return None; }
    ShapedFits(text);
    HeadReads(text, d, second);
    r := Some((d, second, offset.value));
  }

  /** Local time minus the offset, fraction dropped; failure exactly when the text denotes no
      time or its UTC year leaves 0000-9999. */
  method ParseTimestamp(value: string) returns (r: Result<string>)
    ensures forall d, second: nat, offset :: Denotes(value, d, second, offset) ==> r == UtcOf(DayNumber(d) * 86400 + second - offset)
    ensures (forall d, second: nat, offset :: !Denotes(value, d, second, offset)) ==> r == Failure
  {
    hide *;
    var local := ReadLocal(value);
    if local.None? { return Failure; }
    OffsetFits(value, local.value.0, local.value.1, local.value.2);
    r := ToUtc(local.value.0, local.value.1, local.value.2);
  }

  lemma OffsetFits(text: string, d: Date, second: nat, offset: int)
    requires Denotes(text, d, second, offset)
    ensures ValidDate(d) && FourDigitYear(d.year) && second < 86400 && -86400 < offset < 86400
  {
    hide ValidDate;
    var tail := text[19..];
    hide Head;
    var k :| 0 <= k <= |tail| && IsFraction(tail[..k]) && IsZone(tail[k..], offset);
    ZoneReads(tail[k..], offset);
  }

  // ---- What this gives ----

  /** A timestamp denotes one local time and one instant. */
  lemma DenotesOnce(text: string, d: Date, second: nat, offset: int, d': Date, second': nat, offset': int)
    requires Denotes(text, d, second, offset) && Denotes(text, d', second', offset')
    ensures d == d' && second == second' && offset == offset'
  {
    DenotesReads(text, d, second, offset);
    DenotesReads(text, d', second', offset');
    TailOnce(text[19..], offset, offset');
  }

  lemma TailOnce(tail: string, offset: int, offset': int)
    requires Tail(tail, offset) && Tail(tail, offset')
    ensures offset == offset'
  {
    hide ZoneOffset;
    var k :| 0 <= k <= |tail| && IsFraction(tail[..k]) && IsZone(tail[k..], offset);
    ZoneReads(tail[k..], offset);
    if k > 0 { assert tail[..k][1..] == tail[1..][..k - 1]; }
    TailSplits(tail, k);
  }

  lemma Peel(a: string, c: char, rest: string)
    ensures var text := a + [c] + rest; text[..|a|] == a && text[|a|] == c && text[|a| + 1..] == rest
  {}

  lemma PeelTwice(text: string, at: nat, a: string, c: char, rest: string)
    requires at <= |text| && text[at..] == a + [c] + rest
    ensures at + |a| + 1 <= |text| && text[at..at + |a|] == a && text[at + |a|] == c && text[at + |a| + 1..] == rest
  {
    Peel(a, c, rest);
    assert text[at..at + |a|] == text[at..][..|a|] && text[at + |a|] == text[at..][|a|];
    assert text[at + |a| + 1..] == text[at..][|a| + 1..];
  }

  lemma PairWidth(n: nat)
    requires n < 100
    ensures |Pad(n, 2)| == 2
  {
    Powers();
    PadWidth(n, 2);
  }

  /** An instant's own text denotes it at offset zero. */
  lemma InstantDenotes(d: Date, second: nat)
    requires ValidDate(d) && FourDigitYear(d.year) && second < 86400
    ensures Denotes(InstantText(d, second), d, second, 0)
  {
    var text := InstantText(d, second);
    Powers();
    SmallMonth(d);
    ClockParts(second);
    PadWidth(d.year, 4);
    PairWidth(d.month);
    PairWidth(d.day);
    PairWidth(second / 3600);
    PairWidth(second % 3600 / 60);
    PairWidth(second % 60);
    Spelled(d, second);
    hide Pad, ValidDate, InstantText, Pow10;
    Clock(text, Pad(d.year, 4), Pad(d.month, 2), Pad(d.day, 2), Pad(second / 3600, 2), Pad(second % 3600 / 60, 2),
          Pad(second % 60, 2));
    ZuluTail(text[19..]);
    assert Head(text, d, second);
  }

  lemma Clock(text: string, y: string, mo: string, da: string, h: string, mi: string, s: string)
    requires |y| == 4 && |mo| == |da| == |h| == |mi| == |s| == 2
    requires text == y + "-" + (mo + "-" + (da + "T" + (h + ":" + (mi + ":" + (s + "Z")))))
    ensures |text| == 20 && text[..4] == y && text[4] == '-' && text[5..7] == mo && text[7] == '-' && text[8..10] == da
    ensures text[10] == 'T' && text[11..13] == h && text[13] == ':' && text[14..16] == mi && text[16] == ':'
    ensures text[17..19] == s && text[19..] == "Z"
  {
    var clock := h + ":" + (mi + ":" + (s + "Z"));
    assert text[0..] == text && text[..4] == text[0..4];
    PeelTwice(text, 0, y, '-', mo + "-" + (da + "T" + clock));
    PeelTwice(text, 5, mo, '-', da + "T" + clock);
    PeelTwice(text, 8, da, 'T', clock);
    ClockSlices(clock, h, mi, s);
    assert text[11..][0..2] == text[11..13] && text[11..][3..5] == text[14..16] && text[11..][6..8] == text[17..19];
    assert text[11..][2] == text[13] && text[11..][5] == text[16] && text[11..][8..] == text[19..];
  }

  lemma ClockSlices(clock: string, h: string, mi: string, s: string)
    requires |h| == |mi| == |s| == 2 && clock == h + ":" + (mi + ":" + (s + "Z"))
    ensures |clock| == 9 && clock[0..2] == h && clock[2] == ':' && clock[3..5] == mi && clock[5] == ':' && clock[6..8] == s
    ensures clock[8..] == "Z"
  {
    assert clock[0..] == clock;
    PeelTwice(clock, 0, h, ':', mi + ":" + (s + "Z"));
    PeelTwice(clock, 3, mi, ':', s + "Z");
    assert clock[6..8] == clock[6..][..2] && clock[8..] == clock[6..][2..];
  }

  lemma ZuluTail(tail: string)
    requires tail == "Z"
    ensures Tail(tail, 0)
  {
    assert IsFraction(tail[..0]) && IsZone(tail[0..], 0);
  }

  lemma Spelled(d: Date, second: nat)
    requires ValidDate(d) && FourDigitYear(d.year)
    ensures InstantText(d, second) == Pad(d.year, 4) + "-" + (Pad(d.month, 2) + "-" + (Pad(d.day, 2) + "T" + (
              Pad(second / 3600, 2) + ":" + (Pad(second % 3600 / 60, 2) + ":" + (Pad(second % 60, 2) + "Z")))))
  {
    var s, mi := Field(second % 60, 2, 'Z'), Field(second % 3600 / 60, 2, ':');
    var h, da := Field(second / 3600, 2, ':'), Field(d.day, 2, 'T');
    var mo := Field(d.month, 2, '-');
    assert AfterYear(d, second) == [mo] + ([da] + ([h] + ([mi] + ([s] + []))));
    hide Pad, ValidDate, AfterYear;
    TextOfMore(s, []);
    TextOfMore(mi, [s] + []);
    TextOfMore(h, [mi] + ([s] + []));
    TextOfMore(da, [h] + ([mi] + ([s] + [])));
    TextOfMore(mo, [da] + ([h] + ([mi] + ([s] + []))));
  }

  // ---- The texts that denote a time ----

  function LocalText(d: Date, second: nat): string
    requires ValidDate(d) && FourDigitYear(d.year)
  {
    Pad(d.year, 4) + "-" + (Pad(d.month, 2) + "-" + (Pad(d.day, 2) + "T" + (
      Pad(second / 3600, 2) + ":" + (Pad(second % 3600 / 60, 2) + ":" + Pad(second % 60, 2)))))
  }

  /** `Z`, or hours up to 23 and minutes up to 59 ahead of UTC or behind it. */
  predicate IsOffset(zone: string, offset: int, hours: nat, minutes: nat) {
    || (zone == "Z" && offset == 0)
    || (hours <= 23 && minutes <= 59
        && ((zone == "+" + Pad(hours, 2) + ":" + Pad(minutes, 2) && offset == 3600 * hours + 60 * minutes)
            || (zone == "-" + Pad(hours, 2) + ":" + Pad(minutes, 2) && offset == -3600 * hours - 60 * minutes)))
  }

  /** Nothing, or a point and at least one digit. */
  predicate IsFractionText(fraction: string) {
    fraction == "" || (|fraction| >= 2 && fraction[0] == '.' && forall i :: 1 <= i < |fraction| ==> '0' <= fraction[i] <= '9')
  }

  ghost predicate WrittenAs(text: string, d: Date, second: nat, offset: int, fraction: string, zone: string,
      hours: nat, minutes: nat)
    requires ValidDate(d) && FourDigitYear(d.year)
  {
    text == LocalText(d, second) + (fraction + zone) && IsFractionText(fraction) && IsOffset(zone, offset, hours, minutes)
  }

  /** A timestamp is the printed date and clock time, then any fraction, then `Z` or an offset. */
  lemma DenotesIff(text: string, d: Date, second: nat, offset: int)
    requires ValidDate(d) && FourDigitYear(d.year) && second < 86400
    ensures Denotes(text, d, second, offset) <==>
      exists fraction, zone, hours: nat, minutes: nat :: WrittenAs(text, d, second, offset, fraction, zone, hours, minutes)
  {
    if Denotes(text, d, second, offset) { HeadJoins(text, d, second); }
    HeadLength(d, second);
    hide ValidDate, Head, LocalText;
    if Denotes(text, d, second, offset) {
      var tail := text[19..];
      var k :| 0 <= k <= |tail| && IsFraction(tail[..k]) && IsZone(tail[k..], offset);
      FractionIff(tail[..k]);
      var hours, minutes := ZoneJoins(tail[k..], offset);
      assert tail == tail[..k] + tail[k..];
      assert WrittenAs(text, d, second, offset, tail[..k], tail[k..], hours, minutes);
    }
    if fraction, zone, hours: nat, minutes: nat :| WrittenAs(text, d, second, offset, fraction, zone, hours, minutes) {
      HeadWritten(text, d, second, fraction + zone);
      FractionIff(fraction);
      ZoneWritten(zone, offset, hours, minutes);
      var tail := text[19..];
      assert tail == fraction + zone && tail[..|fraction|] == fraction && tail[|fraction|..] == zone;
    }
  }

  lemma FractionIff(fraction: string)
    ensures IsFraction(fraction) <==> IsFractionText(fraction)
  {
    if |fraction| >= 2 {
      var digits := fraction[1..];
      assert forall i :: 1 <= i < |fraction| ==> fraction[i] == digits[i - 1];
      assert forall i :: 0 <= i < |digits| ==> digits[i] == fraction[i + 1];
    }
  }

  lemma ZoneJoins(zone: string, offset: int) returns (hours: nat, minutes: nat)
    requires IsZone(zone, offset)
    ensures IsOffset(zone, offset, hours, minutes)
  {
    hours, minutes := 0, 0;
    if !(zone == "Z" && offset == 0) {
      hours, minutes :| SignedZone(zone, offset, hours, minutes);
      hide Pad;
      assert zone == [zone[0]] + zone[1..3] + [zone[3]] + zone[4..6];
    }
  }

  lemma ZoneWritten(zone: string, offset: int, hours: nat, minutes: nat)
    requires IsOffset(zone, offset, hours, minutes)
    ensures IsZone(zone, offset)
  {
    if !(zone == "Z" && offset == 0) {
      PairWidth(hours);
      PairWidth(minutes);
      hide Pad;
      assert zone[1..3] == Pad(hours, 2) && zone[3] == ':' && zone[4..6] == Pad(minutes, 2);
      assert SignedZone(zone, offset, hours, minutes);
    }
  }

  lemma HeadLength(d: Date, second: nat)
    requires ValidDate(d) && FourDigitYear(d.year) && second < 86400
    ensures |LocalText(d, second)| == 19
  {
    Powers();
    SmallMonth(d);
    ClockParts(second);
    PadWidth(d.year, 4);
    PairWidth(d.month);
    PairWidth(d.day);
    PairWidth(second / 3600);
    PairWidth(second % 3600 / 60);
    PairWidth(second % 60);
    hide Pad, ValidDate;
  }

  lemma HeadJoins(text: string, d: Date, second: nat)
    requires ValidDate(d) && FourDigitYear(d.year) && Head(text, d, second)
    ensures text == LocalText(d, second) + text[19..]
  {
    hide Pad, ValidDate;
    var clock := text[11..13] + ":" + (text[14..16] + ":" + text[17..19]);
    assert clock == text[11..19];
    assert text[5..7] + "-" + (text[8..10] + "T" + clock) == text[5..19];
    assert text[..4] + "-" + text[5..19] == text[..19];
  }

  lemma HeadWritten(text: string, d: Date, second: nat, rest: string)
    requires ValidDate(d) && FourDigitYear(d.year) && second < 86400 && text == LocalText(d, second) + rest
    ensures Head(text, d, second) && text[19..] == rest
  {
    HeadLength(d, second);
    Powers();
    SmallMonth(d);
    ClockParts(second);
    PadWidth(d.year, 4);
    PairWidth(d.month);
    PairWidth(d.day);
    PairWidth(second / 3600);
    PairWidth(second % 3600 / 60);
    PairWidth(second % 60);
    hide Pad, ValidDate;
    Sliced(LocalText(d, second), Pad(d.year, 4), Pad(d.month, 2), Pad(d.day, 2), Pad(second / 3600, 2),
           Pad(second % 3600 / 60, 2), Pad(second % 60, 2));
    hide LocalText;
    var local := LocalText(d, second);
    assert text[..19] == local && forall i, j :: 0 <= i <= j <= 19 ==> text[i..j] == local[i..j];
  }

  lemma Sliced(local: string, y: string, mo: string, da: string, h: string, mi: string, s: string)
    requires |y| == 4 && |mo| == |da| == |h| == |mi| == |s| == 2
    requires local == y + "-" + (mo + "-" + (da + "T" + (h + ":" + (mi + ":" + s))))
    ensures |local| == 19 && local[..4] == y && local[4] == '-' && local[5..7] == mo && local[7] == '-' && local[8..10] == da
    ensures local[10] == 'T' && local[11..13] == h && local[13] == ':' && local[14..16] == mi && local[16] == ':'
    ensures local[17..19] == s
  {
    var text := local + "Z";
    assert text == y + "-" + (mo + "-" + (da + "T" + (h + ":" + (mi + ":" + (s + "Z")))));
    Clock(text, y, mo, da, h, mi, s);
    assert forall i, j :: 0 <= i <= j <= 19 ==> text[i..j] == local[i..j];
  }

  /** Results are fixed points: what the parser returns denotes the same instant in UTC. */
  lemma ResultIsFixedPoint(instant: int)
    requires UtcOf(instant).Success?
    ensures var text, d, second := UtcOf(instant).value, DateAt(instant), instant % 86400;
      Denotes(text, d, second, 0) && UtcOf(DayNumber(d) * 86400 + second - 0) == Success(text)
  {
    hide DayNumber, CivilFromDays, Denotes, InstantText, UnixSecondsToUtc, DateAt, ValidDate;
    UnixSecondsPrint(instant);
    FourDigitsInRange(instant);
    InstantDenotes(DateAt(instant), instant % 86400);
  }

  /** Inputs naming one whole-second instant give one text, and later instants give later text. */
  lemma TextFollowsInstant(text: string, d: Date, second: nat, offset: int, text': string, d': Date, second': nat,
      offset': int)
    requires Denotes(text, d, second, offset) && Denotes(text', d', second', offset')
    ensures var t, t' := DayNumber(d) * 86400 + second - offset, DayNumber(d') * 86400 + second' - offset';
      && (t == t' ==> UtcOf(t) == UtcOf(t'))
      && (UtcOf(t).Success? && UtcOf(t').Success? ==>
            (Below(UtcOf(t).value, UtcOf(t').value) <==> t < t') && (UtcOf(t) == UtcOf(t') <==> t == t'))
  {
    hide Denotes, DayNumber, UnixSecondsToUtc, Below;
    var t, t' := DayNumber(d) * 86400 + second - offset, DayNumber(d') * 86400 + second' - offset';
    if UtcOf(t).Success? && UtcOf(t').Success? { UnixTextOrders(t, t'); }
  }

  /** At most one day is borrowed or carried. */
  lemma AtMostOneDay(text: string, d: Date, second: nat, offset: int)
    requires Denotes(text, d, second, offset)
    ensures var day := (DayNumber(d) * 86400 + second - offset) / 86400; DayNumber(d) - 1 <= day <= DayNumber(d) + 1
  {
    OffsetFits(text, d, second, offset);
    hide Denotes, DayNumber;
  }

  /** A denoted time is refused exactly when its UTC year leaves four digits. */
  lemma RefusedIff(text: string, d: Date, second: nat, offset: int)
    requires Denotes(text, d, second, offset)
    ensures UtcOf(DayNumber(d) * 86400 + second - offset).Failure? <==>
            (d.year == 0 && d.month == 1 && d.day == 1 && second < offset)
            || (d.year == 9999 && d.month == 12 && d.day == 31 && second - offset >= 86400)
  {
    hide Denotes, UnixSecondsToUtc, DayNumber, ValidDate, InstantText;
    OffsetFits(text, d, second, offset);
    EdgeDays(d);
    var t := DayNumber(d) * 86400 + second - offset;
    if YearZero <= t < YearTenThousand { UnixSecondsPrint(t); }
    EdgeInstants(DayNumber(d), second - offset);
  }

  lemma EdgeInstants(day: int, offset: int)
    requires YearZero <= day * 86400 && day * 86400 + 86400 <= YearTenThousand && -86400 < offset < 172800
    ensures YearZero <= day * 86400 + offset < YearTenThousand <==>
            !(day * 86400 == YearZero && offset < 0) && !(day * 86400 + 86400 == YearTenThousand && offset >= 86400)
  {}

  lemma EdgeDays(d: Date)
    requires ValidDate(d) && FourDigitYear(d.year)
    ensures YearZero <= DayNumber(d) * 86400 && DayNumber(d) * 86400 + 86400 <= YearTenThousand
    ensures DayNumber(d) * 86400 == YearZero <==> d.month == 1 && d.day == 1 && d.year == 0
    ensures DayNumber(d) * 86400 + 86400 == YearTenThousand <==> d.month == 12 && d.day == 31 && d.year == 9999
  {
    YearEdges();
    var last := Date(9999, 12, 31);
    NextDayCounts(last);
    assert NextDay(last) == Date(10000, 1, 1) && ValidDate(last);
    SmallMonth(d);
    hide DayNumber, ValidDate, NextDay;
    DayNumberOrders(Date(0, 1, 1), d);
    DayNumberOrders(d, Date(0, 1, 1));
    DayNumberOrders(d, last);
    DayNumberOrders(last, d);
  }
}

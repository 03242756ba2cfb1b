/** Timestamps as text, section 5.6 of RFC 3339: what Time.MarshalJSON prints and what
    time.Parse reads back, nanoseconds included. */
module Rfc3339 {
  import opened Prelude
  import opened Numerals
  import opened Timestamps

  function Abs(n: int): nat { if n < 0 then -n else n }

  /** The offset as it can be written down: whole minutes, cut towards zero. */
  function WholeMinutes(offset: int): int {
    if offset < 0 then -(-offset / 60 * 60) else offset / 60 * 60
  }

  /** Time.MarshalJSON refuses other years and other offsets. */
  predicate Printable(t: Time) {
    0 <= t.year <= 9999 && Abs(t.offset) / 3600 < 24
  }

  function TrimZeros(s: string): (r: string)
    ensures |r| <= |s| && r == s[..|r|]
    ensures r != "" ==> r[|r| - 1] != '0'
  {
    if s != "" && s[|s| - 1] == '0' then TrimZeros(s[..|s| - 1]) else s
  }

  function FractionText(nanos: nat): string {
    if nanos == 0 then "" else "." + TrimZeros(Numeral(nanos, 10, 9))
  }

  function ZoneText(offset: int): string {
    if offset == 0 then "Z"
    else
      var minutes := Abs(offset) / 60;
      [if WholeMinutes(offset) < 0 then '-' else '+'] + Numeral(minutes / 60, 10, 2) + ":" + Numeral(minutes % 60, 10, 2)
  }

  function DateText(t: Time): string
    requires 0 <= t.year <= 9999
  {
    Numeral(t.year, 10, 4) + "-" + Numeral(t.month, 10, 2) + "-" + Numeral(t.day, 10, 2)
  }

  function ClockText(t: Time): string {
    Numeral(t.hour, 10, 2) + ":" + Numeral(t.minute, 10, 2) + ":" + Numeral(t.second, 10, 2)
  }

  /** RFC3339Nano. */
  function Print(t: Time): string
    requires Printable(t)
  {
    DateText(t) + "T" + ClockText(t) + (FractionText(t.nanos) + ZoneText(t.offset))
  }

  // ---------------------------------------------------------------------
  // Reading

  /** A number of digits only, in a range. */
  function Within(s: string, low: nat, high: nat): Option<nat> {
    var n := Number(s, 10);
    if n.Some? && low <= n.value <= high then n else None
  }

  datatype Date = Date(year: nat, month: nat, day: nat)

  function ParseDate(s: string): (d: Option<Date>)
    ensures d.Some? ==>
      && d.value.year <= 9999 && 1 <= d.value.month <= 12
      && 1 <= d.value.day <= DaysIn(d.value.month, d.value.year)
  {
    if |s| != 10 || s[4] != '-' || s[7] != '-' then None
    else
      var year, month := Within(s[..4], 0, 9999), Within(s[5..7], 1, 12);
      if year.None? || month.None? then None
      else
        var day := Within(s[8..], 1, DaysIn(month.value, year.value));
        if day.None? then None else Some(Date(year.value, month.value, day.value))
  }

  datatype HourMinuteSecond = HourMinuteSecond(hour: nat, minute: nat, second: nat)

  function ParseClock(s: string): (c: Option<HourMinuteSecond>)
    ensures c.Some? ==> c.value.hour < 24 && c.value.minute < 60 && c.value.second < 60
  {
    if |s| != 8 || s[2] != ':' || s[5] != ':' then None
    else
      var hour, minute, second := Within(s[..2], 0, 23), Within(s[3..5], 0, 59), Within(s[6..], 0, 59);
      if hour.None? || minute.None? || second.None? then None
      else Some(HourMinuteSecond(hour.value, minute.value, second.value))
  }

  /** How many digits s begins with. */
  function DigitRun(s: string): (n: nat)
    ensures n <= |s| && forall i :: 0 <= i < n ==> IsDigit(s[i])
  {
    if s == "" || !IsDigit(s[0]) then 0 else 1 + DigitRun(s[1..])
  }

  function Zeros(n: nat): (z: string)
    ensures |z| == n && forall i :: 0 <= i < n ==> z[i] == '0'
  {
    seq(n, _ => '0')
  }

  /** The first nine digits, as if there were nine. */
  function NineDigits(digits: string): string {
    if |digits| >= 9 then digits[..9] else digits + Zeros(9 - |digits|)
  }

  datatype Fraction = Fraction(nanos: nat, rest: string)

  lemma {:induction false} DigitsNumber(s: string)
    requires forall i :: 0 <= i < |s| ==> IsDigit(s[i])
    ensures Number(s, 10).Some?
  {
    if s != "" { DigitsNumber(s[..|s| - 1]); }
  }

  lemma BillionPow()
    ensures Pow(10, 9) == 1_000_000_000 && Pow(10, 4) == 10_000 && Pow(10, 2) == 100
  {
  }

  /** A point followed by digits is the fraction of a second; anything else is left
      for the zone. */
  function ParseFraction(s: string): (f: Fraction)
    ensures f.nanos < 1_000_000_000
  {
    if |s| < 2 || s[0] != '.' || !IsDigit(s[1]) then Fraction(0, s)
    else
      var n := DigitRun(s[1..]);
      var nine := NineDigits(s[1..][..n]);
      DigitsNumber(nine);
      NumberFits(nine, 10);
      BillionPow();
      Fraction(Number(nine, 10).value, s[1..][n..])
  }

  function ParseZone(s: string): Option<int> {
    if s == "Z" then Some(0)
    else if |s| != 6 || s[0] !in "+-" || s[3] != ':' then None
    else
      var hours, minutes := Within(s[1..3], 0, 23), Within(s[4..], 0, 59);
      if hours.None? || minutes.None? then None
      else
        var offset := (hours.value * 60 + minutes.value) * 60;
        Some(if s[0] == '-' then -offset else offset)
  }

  function Parse(s: string): Option<Time> {
    if |s| < 19 || s[10] != 'T' then None
    else
      var date, clock, fraction := ParseDate(s[..10]), ParseClock(s[11..19]), ParseFraction(s[19..]);
      var zone := ParseZone(fraction.rest);
      if date.None? || clock.None? || zone.None? then None
      else
        Some(Clock(date.value.year, date.value.month, date.value.day,
                   clock.value.hour, clock.value.minute, clock.value.second, fraction.nanos, zone.value))
  }

  // ---------------------------------------------------------------------
  // Round trip

  lemma WithinNumeral(n: nat, width: nat, low: nat, high: nat)
    requires n < Pow(10, width) && low <= n <= high
    ensures Within(Numeral(n, 10, width), low, high) == Some(n)
  {
    NumberOfNumeral(n, 10, width);
  }

  lemma ParseDateText(t: Time)
    requires 0 <= t.year <= 9999
    ensures ParseDate(DateText(t)) == Some(Date(t.year, t.month, t.day))
  {
    BillionPow();
    WithinNumeral(t.year, 4, 0, 9999);
    WithinNumeral(t.month, 2, 1, 12);
    WithinNumeral(t.day, 2, 1, DaysIn(t.month, t.year));
    var s := DateText(t);
    assert s[..4] == Numeral(t.year, 10, 4) && s[5..7] == Numeral(t.month, 10, 2) && s[8..] == Numeral(t.day, 10, 2);
  }

  lemma ParseClockText(t: Time)
    ensures ParseClock(ClockText(t)) == Some(HourMinuteSecond(t.hour, t.minute, t.second))
  {
    BillionPow();
    WithinNumeral(t.hour, 2, 0, 23);
    WithinNumeral(t.minute, 2, 0, 59);
    WithinNumeral(t.second, 2, 0, 59);
    var s := ClockText(t);
    assert s[..2] == Numeral(t.hour, 10, 2) && s[3..5] == Numeral(t.minute, 10, 2) && s[6..] == Numeral(t.second, 10, 2);
  }

  lemma ParseZoneText(offset: int)
    requires Abs(offset) / 3600 < 24
    ensures ParseZone(ZoneText(offset)) == Some(WholeMinutes(offset))
  {
    if offset != 0 {
      var minutes := Abs(offset) / 60;
      BillionPow();
      WithinNumeral(minutes / 60, 2, 0, 23);
      WithinNumeral(minutes % 60, 2, 0, 59);
      var s := ZoneText(offset);
      assert s[1..3] == Numeral(minutes / 60, 10, 2) && s[4..] == Numeral(minutes % 60, 10, 2);
    }
  }

  lemma {:induction false} RunOfDigits(digits: string, rest: string)
    requires forall i :: 0 <= i < |digits| ==> IsDigit(digits[i])
    requires rest == "" || !IsDigit(rest[0])
    ensures DigitRun(digits + rest) == |digits|
  {
    if digits == "" {
      assert digits + rest == rest;
    } else {
      assert (digits + rest)[1..] == digits[1..] + rest;
      RunOfDigits(digits[1..], rest);
    }
  }

  lemma {:induction false} TrimmedZeros(s: string)
    ensures s == TrimZeros(s) + Zeros(|s| - |TrimZeros(s)|)
  {
    if s != "" && s[|s| - 1] == '0' {
      TrimmedZeros(s[..|s| - 1]);
      assert s == s[..|s| - 1] + [s[|s| - 1]];
    }
  }

  lemma {:induction false} ZeroNumber(n: nat)
    ensures Number(Zeros(n), 10) == Some(0)
  {
    if n > 0 {
      assert Zeros(n)[..n - 1] == Zeros(n - 1);
      ZeroNumber(n - 1);
    }
  }

  /** Trailing zeros of the fraction are not printed and not missed. */
  lemma ParseFractionText(nanos: nat, rest: string)
    requires nanos < 1_000_000_000
    requires rest != "" && !IsDigit(rest[0]) && rest[0] != '.'
    ensures ParseFraction(FractionText(nanos) + rest) == Fraction(nanos, rest)
  {
    if nanos == 0 {
      assert FractionText(nanos) + rest == rest;
    } else {
      var digits := TrimmedDigits(nanos);
      assert FractionText(nanos) + rest == "." + digits + rest;
      ParseDigits(digits, rest);
    }
  }

  lemma ParseDigits(digits: string, rest: string)
    requires digits != "" && forall i :: 0 <= i < |digits| ==> IsDigit(digits[i])
    requires rest != "" && !IsDigit(rest[0])
    requires Number(NineDigits(digits), 10).Some?
    ensures ParseFraction("." + digits + rest) == Fraction(Number(NineDigits(digits), 10).value, rest)
  {
    var s := "." + digits + rest;
    RunOfDigits(digits, rest);
    assert s[1..] == digits + rest;
    assert s[1..][..|digits|] == digits && s[1..][|digits|..] == rest;
    assert s[1] == digits[0];
  }

  lemma TrimmedDigits(nanos: nat) returns (digits: string)
    requires 0 < nanos < 1_000_000_000
    ensures FractionText(nanos) == "." + digits && digits != ""
    ensures forall i :: 0 <= i < |digits| ==> IsDigit(digits[i])
    ensures Number(NineDigits(digits), 10) == Some(nanos)
  {
    var nine := Numeral(nanos, 10, 9);
    digits := TrimZeros(nine);
    BillionPow();
    NumberOfNumeral(nanos, 10, 9);
    TrimmedZeros(nine);
    if digits == "" { ZeroNumber(9); }
    forall i | 0 <= i < |digits| ensures IsDigit(digits[i]) {
      assert digits[i] == nine[i] && nine[i] in nine;
    }
    assert NineDigits(digits) == nine;
  }

  /** The time that comes back: the same reading of the clock, in a zone of whole
      minutes. */
  function Rounded(t: Time): Time { t.(offset := WholeMinutes(t.offset)) }

  lemma ParsePrint(t: Time)
    requires Printable(t)
    ensures Parse(Print(t)) == Some(Rounded(t))
  {
    var rest := FractionText(t.nanos) + ZoneText(t.offset);
    var s := Print(t);
    ParseDateText(t);
    ParseClockText(t);
    ParseFractionText(t.nanos, ZoneText(t.offset));
    ParseZoneText(t.offset);
    PartsOf(DateText(t), ClockText(t), rest);
    assert s == DateText(t) + "T" + ClockText(t) + rest;
  }

  lemma PartsOf(date: string, clock: string, rest: string)
    requires |date| == 10 && |clock| == 8
    ensures var s := date + "T" + clock + rest;
      |s| >= 19 && s[10] == 'T' && s[..10] == date && s[11..19] == clock && s[19..] == rest
  {
  }

  lemma ZoneEnds(offset: int)
    ensures ZoneText(offset) != ""
    ensures ZoneText(offset)[|ZoneText(offset)| - 1] == 'Z' <==> offset == 0
  {
    if offset != 0 {
      var minutes := Numeral(Abs(offset) / 60 % 60, 10, 2);
      assert minutes[1] in minutes;
      assert ZoneText(offset)[5] == minutes[1];
    }
  }

  lemma SameZoneText(a: int, b: int)
    requires WholeMinutes(a) == WholeMinutes(b) && (a == 0 <==> b == 0)
    ensures ZoneText(a) == ZoneText(b)
  {
    assert Abs(a) / 60 == Abs(WholeMinutes(a)) / 60;
    assert Abs(b) / 60 == Abs(WholeMinutes(b)) / 60;
  }

  /** Times with the same text: the zero offset alone is written as a letter. */
  lemma SamePrintIff(a: Time, b: Time)
    requires Printable(a) && Printable(b)
    ensures Print(a) == Print(b) <==> Rounded(a) == Rounded(b) && (a.offset == 0 <==> b.offset == 0)
  {
    ParsePrint(a);
    ParsePrint(b);
    ZoneEnds(a.offset);
    ZoneEnds(b.offset);
    if Rounded(a) == Rounded(b) && (a.offset == 0 <==> b.offset == 0) {
      SameZoneText(a.offset, b.offset);
    } else if Print(a) == Print(b) {
      PrintEnds(a);
      PrintEnds(b);
    }
  }

  lemma PrintEnds(t: Time)
    requires Printable(t)
    ensures Print(t) != "" && ZoneText(t.offset) != ""
    ensures Print(t)[|Print(t)| - 1] == ZoneText(t.offset)[|ZoneText(t.offset)| - 1]
  {
    ZoneEnds(t.offset);
  }

  /** What is lost is the seconds of the offset: the text has no place for them. */
  lemma RoundedShifts(t: Time)
    ensures Instant(Rounded(t)) == Instant(t) + (t.offset - WholeMinutes(t.offset)) * 1_000_000_000
  {
  }

  lemma WholeMinutesIff(offset: int)
    ensures offset == WholeMinutes(offset) <==> offset % 60 == 0
  {
  }

  lemma SameInstantIff(t: Time)
    ensures Instant(Rounded(t)) == Instant(t) <==> t.offset % 60 == 0
  {
    RoundedShifts(t);
    WholeMinutesIff(t.offset);
  }

  // ---------------------------------------------------------------------
  // Which texts are read, and as what

  /** Seconds may have a fraction: a point and digits, of which nine count. */
  predicate FractionSpells(s: string, nanos: nat) {
    if s == "" then nanos == 0
    else
      && |s| >= 2 && s[0] == '.' && (forall i :: 1 <= i < |s| ==> '0' <= s[i] <= '9')
      && Spells((s[1..] + "000000000")[..9], nanos)
  }

  /** Z, or hours and minutes with a sign, east positive. */
  ghost predicate ZoneSpells(s: string, offset: int) {
    || (s == "Z" && offset == 0)
    || (exists hours: nat, minutes: nat ::
          && |s| == 6 && s[0] in "+-" && s[3] == ':' && hours <= 23 && minutes <= 59
          && Spells(s[1..3], hours) && Spells(s[4..], minutes)
          && offset == if s[0] == '-' then -(hours * 3600 + minutes * 60) else hours * 3600 + minutes * 60)
  }

  predicate DateSpells(s: string, year: nat, month: nat, day: nat) {
    |s| == 10 && s[4] == '-' && s[7] == '-' && Spells(s[..4], year) && Spells(s[5..7], month) && Spells(s[8..], day)
  }

  predicate ClockSpells(s: string, hour: nat, minute: nat, second: nat) {
    |s| == 8 && s[2] == ':' && s[5] == ':' && Spells(s[..2], hour) && Spells(s[3..5], minute) && Spells(s[6..], second)
  }

  /** The date, a T, the clock, the fraction and the zone of the time. */
  ghost predicate SpellsTime(s: string, t: Time) {
    exists k :: 19 <= k <= |s| && SpellsTimeAt(s, t, k)
  }

  ghost predicate SpellsTimeAt(s: string, t: Time, k: nat)
    requires 19 <= k <= |s|
  {
    && t.year >= 0 && DateSpells(s[..10], t.year, t.month, t.day)
    && s[10] == 'T' && ClockSpells(s[11..19], t.hour, t.minute, t.second)
    && FractionSpells(s[19..k], t.nanos) && ZoneSpells(s[k..], t.offset)
  }

  lemma WithinIff(s: string, low: nat, high: nat, n: nat)
    requires s != ""
    ensures Within(s, low, high) == Some(n) <==> low <= n <= high && Spells(s, n)
  {
    SpellsIff(s, n);
  }

  lemma DateIff(s: string, d: Date)
    ensures ParseDate(s) == Some(d) <==>
      DateSpells(s, d.year, d.month, d.day) && 1 <= d.month <= 12 && 1 <= d.day <= DaysIn(d.month, d.year)
  {
    if |s| == 10 {
      BillionPow();
      WithinIff(s[..4], 0, 9999, d.year);
      WithinIff(s[5..7], 1, 12, d.month);
      if 1 <= d.month <= 12 { WithinIff(s[8..], 1, DaysIn(d.month, d.year), d.day); }
    }
  }

  lemma ClockIff(s: string, c: HourMinuteSecond)
    ensures ParseClock(s) == Some(c) <==>
      ClockSpells(s, c.hour, c.minute, c.second) && c.hour < 24 && c.minute < 60 && c.second < 60
  {
    if |s| == 8 {
      WithinIff(s[..2], 0, 23, c.hour);
      WithinIff(s[3..5], 0, 59, c.minute);
      WithinIff(s[6..], 0, 59, c.second);
    }
  }

  lemma ZoneIff(s: string, offset: int)
    ensures ParseZone(s) == Some(offset) <==> ZoneSpells(s, offset)
  {
    if |s| == 6 {
      forall n: nat ensures Within(s[1..3], 0, 23) == Some(n) <==> n <= 23 && Spells(s[1..3], n) {
        WithinIff(s[1..3], 0, 23, n);
      }
      forall n: nat ensures Within(s[4..], 0, 59) == Some(n) <==> n <= 59 && Spells(s[4..], n) {
        WithinIff(s[4..], 0, 59, n);
      }
    }
  }

  lemma NineOf(digits: string)
    ensures NineDigits(digits) == (digits + "000000000")[..9]
  {
    assert Zeros(9) == "000000000";
    assert |digits| < 9 ==> "000000000"[..9 - |digits|] == Zeros(9 - |digits|);
  }

  /** A fraction ends where the zone begins. */
  lemma FractionThenZone(fraction: string, zone: string, nanos: nat)
    requires FractionSpells(fraction, nanos) && zone != "" && zone[0] in "Z+-"
    ensures ParseFraction(fraction + zone) == Fraction(nanos, zone)
  {
    if fraction == "" {
      assert fraction + zone == zone;
    } else {
      var digits := fraction[1..];
      NineOf(digits);
      SpellsIff(NineDigits(digits), nanos);
      ParseDigits(digits, zone);
      assert fraction == "." + digits;
    }
  }

  lemma FractionSplits(s: string) returns (fraction: string)
    ensures s == fraction + ParseFraction(s).rest && FractionSpells(fraction, ParseFraction(s).nanos)
  {
    if |s| < 2 || s[0] != '.' || !IsDigit(s[1]) {
      fraction := "";
      assert s == fraction + s;
    } else {
      var n := DigitRun(s[1..]);
      assert s[1..][0] == s[1];
      fraction := s[..n + 1];
      var digits := s[1..][..n];
      assert fraction == "." + digits && fraction[1..] == digits;
      DigitsNumber(NineDigits(digits));
      NineOf(digits);
      SpellsIff(NineDigits(digits), ParseFraction(s).nanos);
      assert s == fraction + s[1..][n..];
    }
  }

  /** Exactly the texts of that form are read, each as the one time it spells. */
  lemma ParseIff(s: string, t: Time)
    ensures Parse(s) == Some(t) <==> SpellsTime(s, t)
  {
    if Parse(s) == Some(t) { ReadIsSpelled(s, t); }
    if SpellsTime(s, t) {
      var k :| 19 <= k <= |s| && SpellsTimeAt(s, t, k);
      SpelledIsRead(s, t, k);
    }
  }

  lemma ReadIsSpelled(s: string, t: Time)
    requires Parse(s) == Some(t)
    ensures SpellsTime(s, t)
  {
    var rest := ParseFraction(s[19..]).rest;
    var fraction := FractionSplits(s[19..]);
    var k := 19 + |fraction|;
    assert s[19..] == fraction + rest;
    assert s[19..k] == fraction && s[k..] == rest;
    DateIff(s[..10], Date(t.year, t.month, t.day));
    ClockIff(s[11..19], HourMinuteSecond(t.hour, t.minute, t.second));
    ZoneIff(rest, t.offset);
    assert SpellsTimeAt(s, t, k);
  }

  lemma ZoneBegins(zone: string, offset: int)
    requires ZoneSpells(zone, offset)
    ensures zone != "" && zone[0] in "Z+-"
  {
  }

  lemma ReadInParts(s: string, t: Time, fraction: string, zone: string)
    requires |s| >= 19 && s[10] == 'T' && s[19..] == fraction + zone
    requires t.year >= 0 && ParseDate(s[..10]) == Some(Date(t.year, t.month, t.day))
    requires ParseClock(s[11..19]) == Some(HourMinuteSecond(t.hour, t.minute, t.second))
    requires ParseFraction(fraction + zone) == Fraction(t.nanos, zone) && ParseZone(zone) == Some(t.offset)
    ensures Parse(s) == Some(t)
  {
  }

  lemma DateAndClock(date: string, clock: string, t: Time)
    requires t.year >= 0 && DateSpells(date, t.year, t.month, t.day) && ClockSpells(clock, t.hour, t.minute, t.second)
    ensures ParseDate(date) == Some(Date(t.year, t.month, t.day))
    ensures ParseClock(clock) == Some(HourMinuteSecond(t.hour, t.minute, t.second))
  {
    DateIff(date, Date(t.year, t.month, t.day));
    ClockIff(clock, HourMinuteSecond(t.hour, t.minute, t.second));
  }

  lemma FractionAndZone(fraction: string, zone: string, t: Time)
    requires FractionSpells(fraction, t.nanos) && ZoneSpells(zone, t.offset)
    ensures ParseFraction(fraction + zone) == Fraction(t.nanos, zone) && ParseZone(zone) == Some(t.offset)
  {
    ZoneIff(zone, t.offset);
    ZoneBegins(zone, t.offset);
    FractionThenZone(fraction, zone, t.nanos);
  }

  lemma Halves(s: string, i: nat, k: nat)
    requires i <= k <= |s|
    ensures s[i..] == s[i..k] + s[k..]
  {
  }

  lemma SpelledIsRead(s: string, t: Time, k: nat)
    requires 19 <= k <= |s| && SpellsTimeAt(s, t, k)
    ensures Parse(s) == Some(t)
  {
    DateAndClock(s[..10], s[11..19], t);
    FractionAndZone(s[19..k], s[k..], t);
    Halves(s, 19, k);
    ReadInParts(s, t, s[19..k], s[k..]);
  }

  /** What is printed is in that form too, and written short: a Z for the zone exactly
      when the offset is zero. */
  lemma PrintSpells(t: Time)
    requires Printable(t)
    ensures SpellsTime(Print(t), Rounded(t))
    ensures Print(t) != "" && (Print(t)[|Print(t)| - 1] == 'Z' <==> t.offset == 0)
  {
    ParsePrint(t);
    ParseIff(Print(t), Rounded(t));
    PrintEnds(t);
    ZoneEnds(t.offset);
  }
}

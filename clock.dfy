/** Wall-clock times of day as the itinerary service handles them: `HH:MM`
    strings, converted to and from minutes since midnight
    (`time_to_minutes` and `minutes_to_time`). */
module Clock {
  import opened PyStr

  /** The canonical `HH:MM` form: zero-padded 24-hour time, as
      `minutes_to_time` writes it. */
  predicate ValidHHMM(s: string)
  {
    && |s| == 5
    && IsDigit(s[0]) && IsDigit(s[1]) && s[2] == ':' && IsDigit(s[3]) && IsDigit(s[4])
    && DigitValue(s[0]) * 10 + DigitValue(s[1]) < 24
    && DigitValue(s[3]) * 10 + DigitValue(s[4]) < 60
  }

  /** A one-digit field, as `%H` or `%M` reads it. */
  function Field1(c: char): Option<nat>
  {
    if IsDigit(c) then Some(DigitValue(c)) else None
  }

  /** A two-digit field. */
  function Field2(c0: char, c1: char): Option<nat>
  {
    if IsDigit(c0) && IsDigit(c1) then Some(DigitValue(c0) * 10 + DigitValue(c1)) else None
  }

  /** The minutes of an hour field and a minute field, if both are in range. */
  function ClockFields(hour: Option<nat>, minute: Option<nat>): (r: Option<nat>)
    ensures r.Some? ==> r.value < 1440
  {
    if hour.Some? && minute.Some? && hour.value < 24 && minute.value < 60
    then Some(hour.value * 60 + minute.value)
    else None
  }

  /** `datetime.strptime(s, "%H:%M")`: an hour of one or two digits below 24,
      a colon, a minute of one or two digits below 60, and nothing else
      ("9:5" is 09:05). None where the parser raises. */
  function ParseClock(s: string): (r: Option<nat>)
    ensures r.Some? ==> r.value < 1440
  {
    if |s| == 3 && s[1] == ':' then ClockFields(Field1(s[0]), Field1(s[2]))
    else if |s| == 4 && s[1] == ':' then ClockFields(Field1(s[0]), Field2(s[2], s[3]))
    else if |s| == 4 && s[2] == ':' then ClockFields(Field2(s[0], s[1]), Field1(s[3]))
    else if |s| == 5 && s[2] == ':' then ClockFields(Field2(s[0], s[1]), Field2(s[3], s[4]))
    else None
  }

  /** `time_to_minutes`: hour * 60 + minute for a time the parser accepts;
      anything it rejects yields 0 instead of an error. */
  function TimeToMinutes(s: string): (m: nat)
    ensures m < 1440
    ensures ParseClock(s).None? ==> m == 0
  {
    match ParseClock(s)
    case Some(m) => m
    case None => 0
  }

  function HourOf(s: string): nat
    requires ValidHHMM(s)
  {
    DigitValue(s[0]) * 10 + DigitValue(s[1])
  }

  function MinuteOf(s: string): nat
    requires ValidHHMM(s)
  {
    DigitValue(s[3]) * 10 + DigitValue(s[4])
  }

  /** A canonical time is read as its hour and minute fields. */
  lemma TimeToMinutesCanonical(s: string)
    requires ValidHHMM(s)
    ensures TimeToMinutes(s) == HourOf(s) * 60 + MinuteOf(s)
  {
  }

  /** f"{n:02d}": at least two characters, zero-padded after any sign. */
  function Pad2(n: int): (s: string)
    ensures |s| >= 2
  {
    if n < 0 then "-" + Digits(-n)
    else if n < 10 then "0" + Digits(n)
    else Digits(n)
  }

  /** f"{hours:02d}:{mins:02d}" */
  function Format(hours: int, mins: int): string
  {
    Pad2(hours) + ":" + Pad2(mins)
  }

  /** `minutes_to_time`: Python's `//` and `%` by 60 floor, as Dafny's do for a
      positive divisor. */
  function MinutesToTime(minutes: int): string
  {
    Format(minutes / 60, minutes % 60)
  }

  /** Every minute of the day is written in canonical form and read back. */
  lemma TimeToMinutesOfMinutesToTime(minutes: int)
    requires 0 <= minutes < 1440
    ensures ValidHHMM(MinutesToTime(minutes))
    ensures TimeToMinutes(MinutesToTime(minutes)) == minutes
  {
    var r := MinutesToTime(minutes);
    Pad2Small(minutes / 60);
    Pad2Small(minutes % 60);
    TimeToMinutesCanonical(r);
  }

  lemma Pad2Small(n: int)
    requires 0 <= n < 100
    ensures |Pad2(n)| == 2 && AllDigits(Pad2(n))
    ensures DigitValue(Pad2(n)[0]) == n / 10 && DigitValue(Pad2(n)[1]) == n % 10
  {
    if n >= 10 {
      assert Digits(n) == Digits(n / 10) + [DigitChar(n % 10)];
    }
  }

  // ---------------------------------------------------------------------------
  // Properties

  lemma DivMod60(q: int, r: int)
    requires 0 <= r < 60
    ensures (q * 60 + r) / 60 == q && (q * 60 + r) % 60 == r
  {
  }

  lemma DivMod10(q: int, r: int)
    requires 0 <= r < 10
    ensures (q * 10 + r) / 10 == q && (q * 10 + r) % 10 == r
  {
  }

  /** The value of a two-digit string. */
  lemma TwoDigitsValue(p: string)
    requires |p| == 2 && AllDigits(p)
    ensures DigitsValue(p) == DigitValue(p[0]) * 10 + DigitValue(p[1])
  {
    var first := p[..1];
    assert first[..0] == [] && first[0] == p[0];
    assert DigitsValue(first) == DigitValue(p[0]);
  }

  /** Formatting minutes `h * 60 + m` writes the two fields back. */
  lemma MinutesToTimeOfFields(h: int, m: int)
    requires 0 <= h < 24 && 0 <= m < 60
    ensures MinutesToTime(h * 60 + m) == Format(h, m)
  {
    DivMod60(h, m);
  }

  /** Two digits, zero-padded, are written back as they were. */
  lemma Pad2OfDigits(c0: char, c1: char)
    requires IsDigit(c0) && IsDigit(c1)
    ensures Pad2(DigitValue(c0) * 10 + DigitValue(c1)) == [c0, c1]
  {
    var n := DigitValue(c0) * 10 + DigitValue(c1);
    DivMod10(DigitValue(c0), DigitValue(c1));
    Pad2Small(n);
    assert Pad2(n)[0] == c0 && Pad2(n)[1] == c1;
  }

  /** A canonical time is its two fields, zero-padded around a colon. */
  lemma CanonicalFields(s: string)
    requires ValidHHMM(s)
    ensures HourOf(s) < 24 && MinuteOf(s) < 60
    ensures s == Format(HourOf(s), MinuteOf(s))
  {
    Pad2OfDigits(s[0], s[1]);
    Pad2OfDigits(s[3], s[4]);
    assert s == [s[0], s[1]] + ":" + [s[3], s[4]];
  }

  /** Formatting a valid time's minutes gives the time back. */
  lemma MinutesToTimeOfTimeToMinutes(s: string)
    requires ValidHHMM(s)
    ensures MinutesToTime(TimeToMinutes(s)) == s
  {
    CanonicalFields(s);
    TimeToMinutesCanonical(s);
    MinutesToTimeOfFields(HourOf(s), MinuteOf(s));
  }

  /** For any minute count of zero or more, the text has an hours field of at
      least two digits and a minutes field of exactly two, which read back
      as `minutes // 60` and `minutes % 60`. */
  lemma MinutesToTimeZeroPads(minutes: int)
    requires minutes >= 0
    ensures var s := MinutesToTime(minutes);
      && |s| >= 5 && s[|s| - 3] == ':'
      && AllDigits(s[..|s| - 3]) && DigitsValue(s[..|s| - 3]) == minutes / 60
      && AllDigits(s[|s| - 2..]) && DigitsValue(s[|s| - 2..]) == minutes % 60
  {
    var h, m := minutes / 60, minutes % 60;
    var s := MinutesToTime(minutes);
    Pad2Small(m);
    TwoDigitsValue(Pad2(m));
    assert s[|s| - 2..] == Pad2(m);
    assert s[..|s| - 3] == Pad2(h);
    DigitsValueOfDigits(h);
    if h < 10 {
      assert Pad2(h) == ['0', DigitChar(h)];
      TwoDigitsValue(Pad2(h));
    }
  }

  /** Python's `<` on two strings of the form `dd:dd`, spelled out. */
  lemma LessOnTimes(a: string, b: string)
    requires |a| == 5 && |b| == 5 && a[2] == b[2]
    ensures Less(a, b) <==>
      a[0] < b[0] || (a[0] == b[0] && (a[1] < b[1] || (a[1] == b[1] &&
      (a[3] < b[3] || (a[3] == b[3] && a[4] < b[4])))))
  {
    var a1, b1 := a[1..], b[1..];
    var a2, b2 := a1[1..], b1[1..];
    var a3, b3 := a2[1..], b2[1..];
    var a4, b4 := a3[1..], b3[1..];
    assert a4[1..] == [] && b4[1..] == [];
    assert Less(a4, b4) <==> a[4] < b[4];
    assert Less(a3, b3) <==> a[3] < b[3] || (a[3] == b[3] && a[4] < b[4]);
    assert Less(a2, b2) <==> Less(a3, b3);
  }

  /** On valid times, Python's string `<` agrees with the order of the minutes. */
  lemma LessIffEarlier(a: string, b: string)
    requires ValidHHMM(a) && ValidHHMM(b)
    ensures Less(a, b) <==> TimeToMinutes(a) < TimeToMinutes(b)
  {
    LessOnTimes(a, b);
    TimeToMinutesCanonical(a);
    TimeToMinutesCanonical(b);
  }

  /** The parser's leniency: single-digit fields are read, out-of-range and
      over-long fields are rejected and count as midnight. */
  lemma TimeToMinutesExamples()
    ensures TimeToMinutes("9:5") == 545
    ensures TimeToMinutes("23:59") == 1439
    ensures TimeToMinutes("24:00") == 0
    ensures TimeToMinutes("12:345") == 0
    ensures TimeToMinutes("noon") == 0
  {
  }

  /** Outside the canonical form, string order and clock order part ways:
      "10:00" sorts before "9:30" although it is later. */
  lemma UnpaddedOrderExample()
    ensures Less("10:00", "9:30") && TimeToMinutes("9:30") < TimeToMinutes("10:00")
  {
    TimeToMinutesCanonical("10:00");
  }
}

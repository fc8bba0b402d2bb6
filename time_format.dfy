/** How the clock writes times: the per-city time strings of
    `calculateTimeForTimezone` and the dial labels of `formatHourLabel`. */
module TimeFormat {
  import opened Optional
  import opened Text

  /** The 24-hour form `HH:MM`, both fields padded with zeros. */
  function Format24(hours: nat, mins: nat): (s: string)
    ensures hours < 100 && mins < 100 ==> |s| == 5 && s[2] == ':'
  {
    TwoDigits(hours) + ":" + TwoDigits(mins)
  }

  /** The hour shown in 12-hour form: 0 becomes 12, 13..23 lose 12. */
  function DisplayHour(hours: nat): (d: nat)
    ensures hours < 24 ==> 1 <= d <= 12 && d % 12 == hours % 12
  {
    if hours == 0 then 12 else if hours > 12 then hours - 12 else hours
  }

  /** `AM` before noon, `PM` from noon on. */
  function Meridiem(hours: nat): (m: string)
    ensures |m| == 2 && m[1] == 'M'
    ensures m[0] == 'A' <==> hours < 12
  {
    if hours < 12 then "AM" else "PM"
  }

  /** The 12-hour form `H:MM AM`: the hour unpadded, the minutes padded. */
  function Format12(hours: nat, mins: nat): (s: string)
    ensures |s| >= 3 && s[|s| - 3] == ' ' && s[|s| - 1] == 'M'
    ensures s[|s| - 2] == 'A' <==> hours < 12
  {
    Dial12(hours, mins) + " " + Meridiem(hours)
  }

  /** The `H:MM` part of the 12-hour form. */
  function Dial12(hours: nat, mins: nat): string {
    Decimal(DisplayHour(hours)) + ":" + TwoDigits(mins)
  }

  /** The time string for one city, in the chosen format. */
  function FormatClock(hours: nat, mins: nat, use24Hour: bool): (s: string)
    ensures hours < 24 && mins < 60 ==>
      |s| > 0 && (use24Hour <==> s[|s| - 1] != 'M') &&
      (use24Hour ==> |s| == 5) && (!use24Hour ==> 7 <= |s| <= 8)
  {
    if use24Hour then Format24(hours, mins) else Format12(hours, mins)
  }

  /** Recovers the 24-hour hour from what the 12-hour form shows. */
  function HourFrom12(displayHour: nat, isAm: bool): (h: nat)
    ensures h < 24
  {
    if isAm then displayHour % 12 else displayHour % 12 + 12
  }

  /** `formatHourLabel(hour)`: the text of the dial label for an hour. */
  function FormatHourLabel(hour: nat, use24Hour: bool): (s: string)
    ensures use24Hour ==> |s| >= 4 && s[|s| - 3] == ':' && s[|s| - 2] == '0' && s[|s| - 1] == '0'
    ensures !use24Hour ==> |s| >= 3 && s[|s| - 1] == 'm' && (s[|s| - 2] == 'a' <==> hour < 12)
  {
    if use24Hour then
      if hour == 0 then "24:00" else Decimal(hour) + ":00"
    else if hour == 0 then "12am"
    else if hour == 12 then "12pm"
    else if hour < 12 then Decimal(hour) + "am"
    else Decimal(hour - 12) + "pm"
  }

  /** The 24-hour form is five characters: two digits, a colon, two digits. */
  lemma Format24Shape(hours: nat, mins: nat)
    requires hours < 100 && mins < 100
    ensures var s := Format24(hours, mins);
      |s| == 5 && s[2] == ':' && AllDigits(s[..2]) && AllDigits(s[3..])
  {
    var s := Format24(hours, mins);
    assert s[..2] == TwoDigits(hours) && s[3..] == TwoDigits(mins);
  }

  /** Reading the 24-hour form back, by splitting it at `:` and taking each
      field's `Number` in the manner of `time.split(':').map(Number)`, gives
      the hours and minutes: the form loses nothing, which is what makes it
      injective. */
  lemma {:induction false} Format24RoundTrip(hours: nat, mins: nat)
    requires hours < 100 && mins < 100
    ensures ParseFields(Split(Format24(hours, mins), ':')) == [Some(hours), Some(mins)]
  {
    var a, b := TwoDigits(hours), TwoDigits(mins);
    assert Format24(hours, mins) == a + [':'] + b;
    DigitsFreeOf(a, ':');
    DigitsFreeOf(b, ':');
    SplitAtSeparator(a, ':', b);
    SplitWithoutSeparator(b, ':');
    TwoDigitsRoundTrip(hours);
    TwoDigitsRoundTrip(mins);
    ReadTwoFields(a, b, ':');
  }

  /** The 12-hour hour and the AM/PM marker together determine the hour of
      the day: AM exactly for hours 0..11. */
  lemma {:induction false} TwelveHourDeterminesHour(hours: nat)
    requires hours < 24
    ensures HourFrom12(DisplayHour(hours), Meridiem(hours) == "AM") == hours
    ensures Meridiem(hours) == "AM" <==> hours < 12
  {
    assert "PM" != "AM" by { assert "PM"[0] != "AM"[0]; }
  }

  /** The 12-hour form ends in its AM/PM marker, after a space and the
      `H:MM` part. */
  lemma Format12Parts(hours: nat, mins: nat)
    ensures var s := Format12(hours, mins);
      |s| >= 3 && s[|s| - 2..] == Meridiem(hours) && s[|s| - 3] == ' ' &&
      s[..|s| - 3] == Dial12(hours, mins)
  {
    var s := Format12(hours, mins);
    assert |Meridiem(hours)| == 2;
    assert s[|s| - 2..] == Meridiem(hours);
  }

  /** The `H:MM` part of the 12-hour form reads back as the displayed hour
      and the minutes. */
  lemma Dial12Reads(hours: nat, mins: nat)
    requires hours < 24 && mins < 60
    ensures ParseFields(Split(Dial12(hours, mins), ':')) == [Some(DisplayHour(hours)), Some(mins)]
  {
    var d := Decimal(DisplayHour(hours));
    var m := TwoDigits(mins);
    assert Dial12(hours, mins) == d + [':'] + m;
    DigitsFreeOf(d, ':');
    DigitsFreeOf(m, ':');
    SplitTwo(d, ':', m);
    DecimalRoundTrip(DisplayHour(hours));
    TwoDigitsRoundTrip(mins);
    ReadTwoFields(d, m, ':');
  }

  /** Different times of day never share a 12-hour string. */
  lemma {:induction false} Format12Injective(h1: nat, m1: nat, h2: nat, m2: nat)
    requires h1 < 24 && m1 < 60 && h2 < 24 && m2 < 60
    requires Format12(h1, m1) == Format12(h2, m2)
    ensures h1 == h2 && m1 == m2
  {
    Format12Parts(h1, m1);
    Format12Parts(h2, m2);
    Dial12Reads(h1, m1);
    Dial12Reads(h2, m2);
    TwelveHourDeterminesHour(h1);
    TwelveHourDeterminesHour(h2);
  }

  /** Different times of day never share a 24-hour string. */
  lemma {:induction false} Format24Injective(h1: nat, m1: nat, h2: nat, m2: nat)
    requires h1 < 100 && m1 < 100 && h2 < 100 && m2 < 100
    requires Format24(h1, m1) == Format24(h2, m2)
    ensures h1 == h2 && m1 == m2
  {
    Format24RoundTrip(h1, m1);
    Format24RoundTrip(h2, m2);
  }

  /** In 24-hour mode a label names its hour, with midnight drawn as 24. */
  lemma {:induction false} HourLabel24Reads(hour: nat)
    requires hour < 24
    ensures ParseFields(Split(FormatHourLabel(hour, true), ':'))
            == [Some(if hour == 0 then 24 else hour), Some(0)]
  {
    var d := Decimal(if hour == 0 then 24 else hour);
    assert Decimal(24) == "24";
    assert FormatHourLabel(hour, true) == d + [':'] + "00";
    DigitsFreeOf(d, ':');
    SplitAtSeparator(d, ':', "00");
    SplitWithoutSeparator("00", ':');
    DecimalRoundTrip(if hour == 0 then 24 else hour);
    assert DigitsValue("00") == 0;
  }

  /** In 12-hour mode a label shows the same hour as the time strings do,
      followed by `am` exactly for hours 0..11. */
  lemma {:induction false} HourLabel12AgreesWithClock(hour: nat)
    requires hour < 24
    ensures FormatHourLabel(hour, false)
            == Decimal(DisplayHour(hour)) + (if hour < 12 then "am" else "pm")
  {
    assert Decimal(12) == "12";
  }

  /** The labels for midnight, noon and 1 pm. */
  lemma HourLabelExamples()
    ensures FormatHourLabel(0, true) == "24:00"
    ensures FormatHourLabel(0, false) == "12am"
    ensures FormatHourLabel(12, false) == "12pm"
    ensures FormatHourLabel(13, false) == "1pm"
  {
  }
}

/** `calculateTimeForTimezone` and `updateSelectedTimeDisplay`: a minute of
    the day on the reference (first) city's clock, shown on every city's
    clock. UTC offsets come from `offset`, whole hours per timezone
    identifier, read at one instant. */
module TimeConversion {
  import opened JsMath
  import opened Angles
  import opened Text
  import opened TimeFormat

  /** The display shown when no city is selected. */
  const NoTime: string := "--:--"

  /** Hours the timezone is ahead of the reference city: what has to be
      added to the reference city's offset to reach the timezone's. */
  function OffsetDifference(cities: seq<string>, offset: string -> int, timezone: string): (d: int)
    requires |cities| > 0
    ensures timezone == cities[0] ==> d == 0
    ensures offset(cities[0]) + d == offset(timezone)
  {
    offset(timezone) - offset(cities[0])
  }

  /** `((x % 1440) + 1440) % 1440`: the minute of the day that x falls on. */
  function WrapDay(x: real): (r: real)
    ensures r == FloorMod(x, 1440.0)
    ensures 0.0 <= r < 1440.0
  {
    WrapIsFloorMod(x, 1440.0);
    JsRem(JsRem(x, 1440.0) + 1440.0, 1440.0)
  }

  /** The minute of the day in `timezone` when the reference city's clock
      shows `baseMinutes`. */
  function CityMinutes(cities: seq<string>, offset: string -> int, timezone: string, baseMinutes: real): (r: real)
    requires |cities| > 0
    ensures 0.0 <= r < 1440.0
    ensures r == FloorMod(baseMinutes + (OffsetDifference(cities, offset, timezone) * 60) as real, 1440.0)
  {
    WrapDay(baseMinutes + (OffsetDifference(cities, offset, timezone) * 60) as real)
  }

  datatype ClockTime = ClockTime(hours: nat, mins: nat)

  /** `Math.floor(m / 60)` and `Math.floor(m % 60)`: the hour and the whole
      minute on a clock face showing minute m of the day. */
  function ClockParts(minutes: real): (t: ClockTime)
    requires 0.0 <= minutes < 1440.0
    ensures t.hours < 24 && t.mins < 60
    ensures (t.hours * 60 + t.mins) as real <= minutes < (t.hours * 60 + t.mins + 1) as real
  {
    var h := (minutes / 60.0).Floor;
    var r := JsRem(minutes, 60.0);
    ClockTime(h, r.Floor)
  }

  /** `calculateTimeForTimezone(timezone, baseMinutes)`. */
  function CalculateTimeForTimezone(cities: seq<string>, use24Hour: bool, offset: string -> int,
                                    timezone: string, baseMinutes: real): (s: string)
    ensures |cities| == 0 ==> s == NoTime
    ensures |cities| > 0 ==>
      var t := ClockParts(FloorMod(baseMinutes + (OffsetDifference(cities, offset, timezone) * 60) as real, 1440.0));
      s == FormatClock(t.hours, t.mins, use24Hour)
  {
    if |cities| == 0 then NoTime
    else
      var t := ClockParts(CityMinutes(cities, offset, timezone, baseMinutes));
      if use24Hour then Format24(t.hours, t.mins) else Format12(t.hours, t.mins)
  }

  /** Each of `texts` is `cityTime` of the city in the same position. */
  predicate ShowsEach(texts: seq<string>, cities: seq<string>, cityTime: string -> string) {
    |texts| == |cities| && forall i :: 0 <= i < |cities| ==> texts[i] == cityTime(cities[i])
  }

  /** `calculateTimeForTimezone(_, minutes)` for the current city list. */
  function CityTimeAt(cities: seq<string>, use24Hour: bool, offset: string -> int, minutes: real): string -> string {
    tz => CalculateTimeForTimezone(cities, use24Hour, offset, tz, minutes)
  }

  /** Every city's display shows its own time at reference minute `minutes`. */
  predicate ShowsCityTimes(texts: seq<string>, cities: seq<string>, use24Hour: bool,
                           offset: string -> int, minutes: real) {
    ShowsEach(texts, cities, CityTimeAt(cities, use24Hour, offset, minutes))
  }

  /** `updateSelectedTimeDisplay`'s walk over the cities: the text for every
      city, in list order; `CityTimeAt` supplies the text. */
  method CityTimeTexts(cities: seq<string>, cityTime: string -> string)
    returns (texts: seq<string>)
    ensures ShowsEach(texts, cities, cityTime)
  {
    texts := [];
    var i := 0;
    while i < |cities|
      invariant 0 <= i <= |cities|
      invariant |texts| == i
      invariant forall j :: 0 <= j < i ==> texts[j] == cityTime(cities[j])
    {
      texts := texts + [cityTime(cities[i])];
      i := i + 1;
    }
  }

  /** The reference city sees its own minute, taken into the day. */
  lemma {:induction false} ReferenceCityUnshifted(cities: seq<string>, offset: string -> int, baseMinutes: real)
    requires |cities| > 0
    ensures CityMinutes(cities, offset, cities[0], baseMinutes) == FloorMod(baseMinutes, 1440.0)
    ensures 0.0 <= baseMinutes < 1440.0 ==> CityMinutes(cities, offset, cities[0], baseMinutes) == baseMinutes
  {
    assert baseMinutes + (OffsetDifference(cities, offset, cities[0]) * 60) as real == baseMinutes;
    if 0.0 <= baseMinutes < 1440.0 {
      FloorModUnique(baseMinutes, 1440.0, baseMinutes, 0);
    }
  }

  /** Converting from the reference city to A and from A on to B gives the
      same minute as converting straight to B. */
  lemma {:induction false} ConversionComposes(r: string, a: string, b: string, offset: string -> int, baseMinutes: real)
    ensures CityMinutes([a], offset, b, CityMinutes([r], offset, a, baseMinutes))
            == CityMinutes([r], offset, b, baseMinutes)
  {
    var da := (offset(a) - offset(r)) * 60;
    var db := (offset(b) - offset(a)) * 60;
    var x := baseMinutes + da as real;
    var m := CityMinutes([r], offset, a, baseMinutes);
    assert m == FloorMod(x, 1440.0);
    var k := (x / 1440.0).Floor;
    assert m + db as real == (baseMinutes + (da + db) as real) + (-k) as real * 1440.0;
    FloorModShift(baseMinutes + (da + db) as real, 1440.0, -k);
  }

  /** Converting to a city and back returns the original minute of the day. */
  lemma {:induction false} ConversionRoundTrip(r: string, t: string, offset: string -> int, baseMinutes: real)
    requires 0.0 <= baseMinutes < 1440.0
    ensures CityMinutes([t], offset, r, CityMinutes([r], offset, t, baseMinutes)) == baseMinutes
  {
    ConversionComposes(r, t, r, offset, baseMinutes);
    ReferenceCityUnshifted([r], offset, baseMinutes);
  }

  /** The live clock's reading, shown in the reference city, is the hour and
      minute it was read as. */
  lemma {:induction false} LiveTimeShownAsRead(cities: seq<string>, offset: string -> int,
                                               hours: nat, mins: nat, secs: nat)
    requires |cities| > 0 && hours < 24 && mins < 60 && secs < 60
    ensures ClockParts(CityMinutes(cities, offset, cities[0], LiveMinutes(hours, mins, secs)))
            == ClockTime(hours, mins)
  {
    var m := LiveMinutes(hours, mins, secs);
    ReferenceCityUnshifted(cities, offset, m);
    var t := ClockParts(m);
    assert t.hours * 60 + t.mins == hours * 60 + mins;
  }

  /** After a live update the reference city's display reads the wall
      clock's hour and minute, in the chosen format. */
  lemma {:induction false} ReferenceDisplayShowsLiveTime(texts: seq<string>, cities: seq<string>, use24Hour: bool,
                                                         offset: string -> int, hours: nat, mins: nat, secs: nat)
    requires ShowsCityTimes(texts, cities, use24Hour, offset, LiveMinutes(hours, mins, secs))
    requires |cities| > 0 && hours < 24 && mins < 60 && secs < 60
    ensures texts[0] == FormatClock(hours, mins, use24Hour)
  {
    LiveTimeShownAsRead(cities, offset, hours, mins, secs);
  }

  /** A city nine hours behind the reference, at ten past midnight there:
      ten past three in the afternoon of the day before. */
  lemma WrapBackwardExample(offset: string -> int)
    requires offset("America/Los_Angeles") == -8 && offset("Europe/Berlin") == 1
    ensures CityMinutes(["Europe/Berlin"], offset, "America/Los_Angeles", 10.0) == 910.0
    ensures CalculateTimeForTimezone(["Europe/Berlin"], true, offset, "America/Los_Angeles", 10.0) == "15:10"
  {
    FloorModUnique(-530.0, 1440.0, 910.0, -1);
    assert ClockParts(910.0) == ClockTime(15, 10);
    assert TwoDigits(15) == "15" && TwoDigits(10) == "10";
  }
}

/** `renderDials` and `createDial`: one dial per selected city, nested by
    size, each turned by its city's offset from the first city, with 24
    hour markers and 8 upright hour labels. */
module DialGeometry {
  import opened Angles
  import opened TimeFormat
  import opened TimeConversion
  import opened JsMath

  /** The diameter of the outermost dial, in pixels. */
  const BaseSize: real := 600.0

  /** Degrees the dial turns per hour of offset. */
  const DegreesPerHour: int := 15

  datatype HourMarker = HourMarker(hour: nat, angle: int, major: bool)

  /** A label's text, its place on the dial (degrees clockwise from the top)
      and the turn applied to the text itself. */
  datatype HourLabel = HourLabel(hour: nat, text: string, angle: int, rotation: int)

  /** What `createDial` builds for one city. */
  datatype DialView = DialView(
    timezone: string,
    size: real,
    rotation: int,
    markers: seq<HourMarker>,
    labels: seq<HourLabel>)

  /** The rotation of dial i as script.js computes it: zero for the first
      dial, otherwise 15 degrees per hour that its city is ahead of the
      first city, applied clockwise. */
  function DialRotationAsWritten(cities: seq<string>, offset: string -> int, i: nat): (r: int)
    requires i < |cities|
    ensures i == 0 ==> r == 0
    ensures r as real == MinutesToAngle((OffsetDifference(cities, offset, cities[i]) * 60) as real)
  {
    if |cities| > 0 && i > 0 then
      (offset(cities[i]) - offset(cities[0])) * DegreesPerHour
    else
      0
  }

  /** The corrected rotation: the same amount the other way, 15 degrees
      anticlockwise per hour ahead, so that the indicator crosses each dial
      at its city's time (`DialReadsCityTime`). The dials are drawn with
      `DialRotationAsWritten`. */
  function DialRotation(cities: seq<string>, offset: string -> int, i: nat): (r: int)
    requires i < |cities|
    ensures i == 0 ==> r == 0
    ensures r == -DialRotationAsWritten(cities, offset, i)
  {
    if |cities| > 0 && i > 0 then
      (offset(cities[0]) - offset(cities[i])) * DegreesPerHour
    else
      0
  }

  /** Where the indicator, turned to `minutes`, crosses a dial turned by
      `rotation`: degrees clockwise from the dial's own top. */
  function DialReading(minutes: real, rotation: int): (angle: real)
    ensures 0.0 <= angle < 360.0
  {
    FloorMod(MinutesToAngle(minutes) - rotation as real, 360.0)
  }

  /** A quarter of a minute count is its angle, and the day wrap becomes
      the turn wrap. */
  lemma {:induction false} AngleOfWrappedDay(x: real)
    ensures MinutesToAngle(FloorMod(x, 1440.0)) == FloorMod(MinutesToAngle(x), 360.0)
  {
    FloorModUnique(MinutesToAngle(x), 360.0, MinutesToAngle(FloorMod(x, 1440.0)), (x / 1440.0).Floor);
  }

  /** With the corrected rotation every dial reads its own city's time
      under the indicator: the place where the indicator crosses dial i is
      the angle of the minute `calculateTimeForTimezone` shows for city i. */
  lemma {:induction false} DialReadsCityTime(cities: seq<string>, offset: string -> int, i: nat, minutes: real)
    requires i < |cities|
    ensures DialReading(minutes, DialRotation(cities, offset, i))
            == MinutesToAngle(CityMinutes(cities, offset, cities[i], minutes))
  {
    var x := minutes + (OffsetDifference(cities, offset, cities[i]) * 60) as real;
    assert MinutesToAngle(minutes) - DialRotation(cities, offset, i) as real == MinutesToAngle(x);
    AngleOfWrappedDay(x);
  }

  /** With the rotation as written dial i reads the time as many hours
      behind the reference city as its city is ahead of it. */
  lemma {:induction false} WrittenDialReadsMirroredTime(cities: seq<string>, offset: string -> int, i: nat, minutes: real)
    requires i < |cities|
    ensures DialReading(minutes, DialRotationAsWritten(cities, offset, i))
            == MinutesToAngle(FloorMod(minutes - (OffsetDifference(cities, offset, cities[i]) * 60) as real, 1440.0))
  {
    var x := minutes - (OffsetDifference(cities, offset, cities[i]) * 60) as real;
    assert MinutesToAngle(minutes) - DialRotationAsWritten(cities, offset, i) as real == MinutesToAngle(x);
    AngleOfWrappedDay(x);
  }

  /** Two minute counts 2d hours apart fall on the same minute of the day
      exactly when d is a whole number of half days. */
  lemma {:induction false} HalfDaysApart(minutes: real, d: int)
    ensures FloorMod(minutes - (d * 60) as real, 1440.0) == FloorMod(minutes + (d * 60) as real, 1440.0)
            <==> d % 12 == 0
  {
    var ahead := minutes + (d * 60) as real;
    var behind := minutes - (d * 60) as real;
    if d % 12 == 0 {
      var q := d / 12;
      assert behind + q as real * 1440.0 == ahead;
      FloorModShift(behind, 1440.0, q);
    }
    if FloorMod(behind, 1440.0) == FloorMod(ahead, 1440.0) {
      var k1 := (ahead / 1440.0).Floor;
      var k2 := (behind / 1440.0).Floor;
      assert ahead - behind == (k1 - k2) as real * 1440.0;
      assert (d * 120) as real == ((k1 - k2) * 1440) as real;
      assert d == 12 * (k1 - k2);
    }
  }

  /** The rotation as written shows the city's time only for cities a whole
      number of half days away from the reference city. */
  lemma {:induction false} WrittenDialAgreesIff(cities: seq<string>, offset: string -> int, i: nat, minutes: real)
    requires i < |cities|
    ensures DialReading(minutes, DialRotationAsWritten(cities, offset, i))
              == MinutesToAngle(CityMinutes(cities, offset, cities[i], minutes))
            <==> OffsetDifference(cities, offset, cities[i]) % 12 == 0
  {
    var d := OffsetDifference(cities, offset, cities[i]);
    WrittenDialReadsMirroredTime(cities, offset, i, minutes);
    HalfDaysApart(minutes, d);
  }

  /** New York first and London (five hours ahead) second, at noon in New
      York: as written, the indicator lies over London's hour-7 marker
      while London's display reads 17:00; turned the other way, it lies
      over hour 17. */
  lemma WrittenDialMisreadsExample(offset: string -> int)
    requires offset("America/New_York") == -5 && offset("Europe/London") == 0
    ensures var cities := ["America/New_York", "Europe/London"];
      MinutesToAngle(720.0) == 180.0 &&
      7 * DegreesPerHour + DialRotationAsWritten(cities, offset, 1) == 180 &&
      CityMinutes(cities, offset, "Europe/London", 720.0) == 1020.0 &&
      17 * DegreesPerHour + DialRotation(cities, offset, 1) == 180
  {
    FloorModUnique(1020.0, 1440.0, 1020.0, 0);
  }

  /** `600 - (n - 1 - i) * (600 / (n + 1))`: the diameter of dial i of n. */
  function DialSize(n: nat, i: nat): (size: real)
    requires i < n
    ensures 0.0 < size <= BaseSize
    ensures i == n - 1 ==> size == BaseSize
    ensures i == 0 ==> size == 2.0 * BaseSize / (n + 1) as real
  {
    var step := BaseSize / (n + 1) as real;
    DialSizeBounds(n, i, step);
    BaseSize - (n - 1 - i) as real * step
  }

  lemma DialSizeBounds(n: nat, i: nat, step: real)
    requires i < n && step == BaseSize / (n + 1) as real
    ensures 0.0 < BaseSize - (n - 1 - i) as real * step <= BaseSize
    ensures i == 0 ==> BaseSize - (n - 1 - i) as real * step == 2.0 * BaseSize / (n + 1) as real
  {
    var total := (n + 1) as real;
    assert step * total == BaseSize;
    assert 0.0 < step;
    MulLess((n - 1 - i) as real, total, step);
    MulLess(0.0, total, step);
    if (n - 1 - i) > 0 {
      MulLess(0.0, (n - 1 - i) as real, step);
    }
    if i == 0 {
      assert (n - 1) as real * step == total * step - 2.0 * step;
    }
  }

  lemma MulLess(a: real, b: real, c: real)
    requires a < b && 0.0 < c
    ensures a * c < b * c
  {
  }

  /** Later cities get strictly larger dials, so the dials nest. */
  lemma {:induction false} DialSizesIncrease(n: nat, i: nat, j: nat)
    requires i < j < n
    ensures DialSize(n, i) < DialSize(n, j)
  {
    var step := BaseSize / (n + 1) as real;
    MulLess((n - 1 - j) as real, (n - 1 - i) as real, step);
  }

  /** What a dial for a city shows, marker by marker and label by label: a
      marker every 15 degrees, the hour the indicator reaches at that angle,
      a heavier one every third hour; a label on every major marker, turned
      back by exactly the dial's rotation. */
  predicate DialFace(d: DialView, use24Hour: bool) {
    |d.markers| == 24 &&
    (forall h :: 0 <= h < 24 ==>
      d.markers[h].hour == h &&
      d.markers[h].angle as real == MinutesToAngle((h * 60) as real) &&
      d.markers[h].major == (h % 3 == 0)) &&
    |d.labels| == 8 &&
    (forall k :: 0 <= k < 8 ==>
      d.labels[k].hour == 3 * k &&
      d.labels[k].text == FormatHourLabel(3 * k, use24Hour) &&
      d.labels[k].angle == d.markers[3 * k].angle &&
      d.labels[k].rotation + d.rotation == 0)
  }

  /** `createDial(timezone, size, dialIndex)` for city `dialIndex`. */
  method CreateDial(cities: seq<string>, offset: string -> int, use24Hour: bool, dialIndex: nat, size: real)
    returns (d: DialView)
    requires dialIndex < |cities|
    ensures d.timezone == cities[dialIndex] && d.size == size
    ensures d.rotation == DialRotationAsWritten(cities, offset, dialIndex)
    ensures DialFace(d, use24Hour)
  {
    var rotation := DialRotationAsWritten(cities, offset, dialIndex);

    var markers: seq<HourMarker> := [];
    var hour := 0;
    while hour < 24
      invariant 0 <= hour <= 24 && |markers| == hour
      invariant forall h :: 0 <= h < hour ==> markers[h] == HourMarker(h, h * DegreesPerHour, h % 3 == 0)
    {
      markers := markers + [HourMarker(hour, hour * DegreesPerHour, hour % 3 == 0)];
      hour := hour + 1;
    }

    var labels: seq<HourLabel> := [];
    hour := 0;
    while hour < 24
      invariant 0 <= hour <= 24 && hour % 3 == 0 && |labels| == hour / 3
      invariant forall k :: 0 <= k < |labels| ==>
        labels[k] == HourLabel(3 * k, FormatHourLabel(3 * k, use24Hour), 3 * k * DegreesPerHour, -rotation)
    {
      labels := labels + [HourLabel(hour, FormatHourLabel(hour, use24Hour), hour * DegreesPerHour, -rotation)];
      hour := hour + 3;
    }

    d := DialView(cities[dialIndex], size, rotation, markers, labels);
  }

  /** The dials `renderDials` puts on the page, in document order: from the
      last city (largest, at the bottom) to the first (smallest, on top). */
  predicate Rendered(dials: seq<DialView>, cities: seq<string>, offset: string -> int, use24Hour: bool) {
    |dials| == |cities| &&
    forall k :: 0 <= k < |dials| ==>
      var i := |cities| - 1 - k;
      dials[k].timezone == cities[i] &&
      dials[k].size == DialSize(|cities|, i) &&
      dials[k].rotation == DialRotationAsWritten(cities, offset, i) &&
      DialFace(dials[k], use24Hour)
  }

  /** `renderDials()`: no dial for an empty list, otherwise one per city. */
  method RenderDials(cities: seq<string>, offset: string -> int, use24Hour: bool)
    returns (dials: seq<DialView>)
    ensures Rendered(dials, cities, offset, use24Hour)
  {
    dials := [];
    if |cities| == 0 {
      return;
    }
    var n := |cities|;
    var i := n - 1;
    while i >= 0
      invariant -1 <= i < n
      invariant |dials| == n - 1 - i
      invariant forall k :: 0 <= k < |dials| ==>
        dials[k].timezone == cities[n - 1 - k] &&
        dials[k].size == DialSize(n, n - 1 - k) &&
        dials[k].rotation == DialRotationAsWritten(cities, offset, n - 1 - k) &&
        DialFace(dials[k], use24Hour)
    {
      var size := BaseSize - (n - 1 - i) as real * (BaseSize / (n + 1) as real);
      var dial := CreateDial(cities, offset, use24Hour, i, size);
      dials := dials + [dial];
      i := i - 1;
    }
  }

  /** The first city's dial is drawn last (on top), is the smallest and is
      not turned. */
  lemma {:induction false} ReferenceDialOnTop(dials: seq<DialView>, cities: seq<string>, offset: string -> int, use24Hour: bool)
    requires Rendered(dials, cities, offset, use24Hour) && |cities| > 0
    ensures var top := dials[|dials| - 1];
      top.timezone == cities[0] && top.rotation == 0 &&
      forall k :: 0 <= k < |dials| - 1 ==> top.size < dials[k].size
  {
    var n := |cities|;
    forall k | 0 <= k < n - 1
      ensures dials[n - 1].size < dials[k].size
    {
      DialSizesIncrease(n, 0, n - 1 - k);
    }
  }

  /** On any dial, when the indicator crosses the dial's own frame at hour
      h, the indicator points at that dial's hour-h marker on screen. */
  lemma {:induction false} MarkerUnderIndicator(d: DialView, use24Hour: bool, minutes: real, h: nat)
    requires DialFace(d, use24Hour) && h < 24
    requires DialReading(minutes, d.rotation) == MinutesToAngle((h * 60) as real)
    ensures FloorMod((d.markers[h].angle + d.rotation) as real, 360.0) == FloorMod(MinutesToAngle(minutes), 360.0)
  {
    var onScreen := (d.markers[h].angle + d.rotation) as real;
    var k := ((MinutesToAngle(minutes) - d.rotation as real) / 360.0).Floor;
    assert MinutesToAngle(minutes) == onScreen + k as real * 360.0;
    FloorModShift(onScreen, 360.0, k);
  }

  /** On a dial turned by the corrected rotation, when city i's time is a
      whole hour h, the indicator points at that dial's hour-h marker. */
  lemma {:induction false} CityHourUnderIndicator(d: DialView, cities: seq<string>, offset: string -> int,
                                                  use24Hour: bool, i: nat, minutes: real, h: nat)
    requires i < |cities| && d.rotation == DialRotation(cities, offset, i) && DialFace(d, use24Hour)
    requires h < 24 && CityMinutes(cities, offset, cities[i], minutes) == (h * 60) as real
    ensures FloorMod((d.markers[h].angle + d.rotation) as real, 360.0) == FloorMod(MinutesToAngle(minutes), 360.0)
  {
    DialReadsCityTime(cities, offset, i, minutes);
    MarkerUnderIndicator(d, use24Hour, minutes, h);
  }

  /** On the dials `renderDials` draws, city i's dial has under the
      indicator the hour as many hours behind the reference minute as the
      city is ahead of the reference city. */
  lemma {:induction false} DrawnDialHourUnderIndicator(dials: seq<DialView>, cities: seq<string>, offset: string -> int,
                                                       use24Hour: bool, i: nat, minutes: real, h: nat)
    requires Rendered(dials, cities, offset, use24Hour) && i < |cities|
    requires h < 24 && FloorMod(minutes - (OffsetDifference(cities, offset, cities[i]) * 60) as real, 1440.0) == (h * 60) as real
    ensures var d := dials[|cities| - 1 - i];
      FloorMod((d.markers[h].angle + d.rotation) as real, 360.0) == FloorMod(MinutesToAngle(minutes), 360.0)
  {
    var d := dials[|cities| - 1 - i];
    assert d.rotation == DialRotationAsWritten(cities, offset, i) && DialFace(d, use24Hour);
    WrittenDialReadsMirroredTime(cities, offset, i, minutes);
    MarkerUnderIndicator(d, use24Hour, minutes, h);
  }

  /** Swapping the reference city with city i turns dial i the other way,
      both as written and corrected. */
  lemma RotationAntisymmetric(cities: seq<string>, offset: string -> int, i: nat)
    requires 0 < i < |cities|
    ensures DialRotationAsWritten(cities[0 := cities[i]][i := cities[0]], offset, i) == -DialRotationAsWritten(cities, offset, i)
    ensures DialRotation(cities[0 := cities[i]][i := cities[0]], offset, i) == -DialRotation(cities, offset, i)
  {
  }

}

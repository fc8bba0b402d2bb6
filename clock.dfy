/** The page's state and its event handlers: the city list, the format flag,
    the indicator (`isDragging`, `selectedTime`) and what is on screen (the
    indicator's angle, each city's time text, the dials). UTC offsets and
    the live wall-clock reading are inputs of the handlers that need them. */
module Clock {
  import opened Optional
  import opened Angles
  import opened TimeConversion
  import opened DialGeometry
  import opened CitySelection
  import opened Preferences

  /** The indicator's part of the state. `selectedTime == None` is `null`. */
  datatype IndicatorState = IndicatorState(isDragging: bool, selectedTime: Option<real>)

  /** What reaches the indicator: mouse or touch drags, clicks on the dials
      (`onDial` is false when the click hit something else) and the 1 Hz
      timer. Pointer positions arrive as atan2 degrees. */
  datatype IndicatorEvent =
    | DragStart
    | DragMove(atanDegrees: real)
    | DragEnd
    | Click(onDial: bool, atanDegrees: real)
    | Tick

  /** The live-update guard `!selectedTime`: true for `null` and for 0,
      which JavaScript treats as false as well. */
  predicate FollowsLiveClock(s: IndicatorState)
    // the only selection the tick overrides is the one at the top of the dial
    ensures FollowsLiveClock(s) && s.selectedTime.Some? ==> MinutesToAngle(s.selectedTime.value) == 0.0
  {
    s.selectedTime == None || s.selectedTime == Some(0.0)
  }

  /** The minute of the day a pointer position selects. */
  function PointerMinutes(atanDegrees: real): (minutes: real)
    ensures -180.0 <= atanDegrees <= 180.0 ==> 0.0 <= minutes < 1440.0
    ensures MinutesToAngle(minutes) == PointerAngle(atanDegrees)
  {
    AngleRoundTrip(PointerAngle(atanDegrees));
    AngleToMinutes(PointerAngle(atanDegrees))
  }

  /** A selected time, when there is one, is a minute of the day. */
  predicate InDay(s: IndicatorState) {
    s.selectedTime.Some? ==> 0.0 <= s.selectedTime.value < 1440.0
  }

  /** What each event does to `isDragging` and `selectedTime`. */
  function Step(s: IndicatorState, e: IndicatorEvent): (r: IndicatorState)
    // only a drag start begins a drag, and only a drag end finishes one
    ensures r.isDragging <==> e.DragStart? || (s.isDragging && !e.DragEnd?)
    // the selection changes only on a drag start, a move while dragging or a click on a dial
    ensures r.selectedTime != s.selectedTime ==>
      e.DragStart? || (e.DragMove? && s.isDragging) || (e.Click? && e.onDial)
    // a pointer position from atan2 selects a minute of the day
    ensures InDay(s) && FromAtan2(e) ==> InDay(r)
  {
    match e
    case DragStart => IndicatorState(true, Some(0.0))
    case DragMove(d) => if s.isDragging then s.(selectedTime := Some(PointerMinutes(d))) else s
    case DragEnd => s.(isDragging := false)
    case Click(onDial, d) => if onDial then s.(selectedTime := Some(PointerMinutes(d))) else s
    case Tick => s
  }

  /** The state after a sequence of events, in order. */
  function Run(s: IndicatorState, events: seq<IndicatorEvent>): (r: IndicatorState)
    // a drag under way at the end was under way at the start or began with a drag start
    ensures r.isDragging ==> s.isDragging || exists i :: 0 <= i < |events| && events[i].DragStart?
    decreases |events|
  {
    if events == [] then s
    else
      var r := Run(Step(s, events[0]), events[1..]);
      assert r.isDragging && !Step(s, events[0]).isDragging ==>
        exists i :: 0 <= i < |events| && events[i].DragStart? by {
        if r.isDragging && !Step(s, events[0]).isDragging {
          var j :| 0 <= j < |events[1..]| && events[1..][j].DragStart?;
          assert events[j + 1].DragStart?;
        }
      }
      r
  }

  /** Pointer positions that `Math.atan2` can produce. */
  predicate FromAtan2(e: IndicatorEvent) {
    match e
    case DragMove(d) => -180.0 <= d <= 180.0
    case Click(_, d) => -180.0 <= d <= 180.0
    case _ => true
  }

  /** A move changes nothing unless a drag is under way. */
  lemma MoveWithoutDragIgnored(s: IndicatorState, d: real)
    requires !s.isDragging
    ensures Step(s, DragMove(d)) == s
  {
  }

  /** Ending a drag keeps the selected time. */
  lemma DragEndKeepsSelection(s: IndicatorState)
    ensures Step(s, DragEnd).selectedTime == s.selectedTime && !Step(s, DragEnd).isDragging
  {
  }

  /** Starting a drag sets `selectedTime` to 0, which the timer reads as
      "not set": the live clock keeps moving the indicator until the first
      move. */
  lemma DragStartStillFollowsLiveClock(s: IndicatorState)
    ensures Step(s, DragStart).isDragging && FollowsLiveClock(Step(s, DragStart))
  {
  }

  /** After a move the live clock takes over again exactly when the move
      went to straight up (minute 0), or when no drag was under way and it
      already had. */
  lemma {:induction false} MoveFollowsLiveClockIff(s: IndicatorState, d: real)
    requires -180.0 <= d <= 180.0
    ensures FollowsLiveClock(Step(s, DragMove(d)))
            <==> if s.isDragging then d == -90.0 else FollowsLiveClock(s)
  {
    PointerAtMidnight(d);
  }

  /** Every selected time is a minute of the day, whatever the events. */
  lemma {:induction false} SelectionStaysInDay(s: IndicatorState, events: seq<IndicatorEvent>)
    requires InDay(s)
    requires forall i :: 0 <= i < |events| ==> FromAtan2(events[i])
    ensures InDay(Run(s, events))
    decreases |events|
  {
    if events != [] {
      assert FromAtan2(events[0]);
      SelectionStaysInDay(Step(s, events[0]), events[1..]);
    }
  }

  /** Once a time has been selected there is no way back to `null`. */
  lemma {:induction false} SelectionIsSticky(s: IndicatorState, events: seq<IndicatorEvent>)
    requires s.selectedTime.Some?
    ensures Run(s, events).selectedTime.Some?
    decreases |events|
  {
    if events != [] {
      SelectionIsSticky(Step(s, events[0]), events[1..]);
    }
  }

  /** Without a drag start and a click on a dial, no event changes the
      indicator's state. */
  lemma {:induction false} IdleWithoutDragStartOrClick(s: IndicatorState, events: seq<IndicatorEvent>)
    requires !s.isDragging
    requires forall i :: 0 <= i < |events| ==> !events[i].DragStart? && !(events[i].Click? && events[i].onDial)
    ensures Run(s, events) == s
    decreases |events|
  {
    if events != [] {
      assert !events[0].DragStart?;
      IdleWithoutDragStartOrClick(Step(s, events[0]), events[1..]);
    }
  }

  class Clock {
    var selectedCities: seq<string>
    var use24Hour: bool
    var selectedTime: Option<real>
    var isDragging: bool
    /** The indicator's rotation, in degrees. */
    var indicatorAngle: real
    /** Each city's time display; a fresh selector shows "". */
    var cityTimes: seq<string>
    var dials: seq<DialView>

    function Indicator(): IndicatorState
      reads this
    {
      IndicatorState(isDragging, selectedTime)
    }

    ghost predicate Valid()
      reads this
    {
      |cityTimes| == |selectedCities| && InDay(Indicator())
    }

    /** `initializeApp` from the saved preferences, with its first
        `updateCurrentTime` at wall-clock time liveHours:liveMins:liveSecs
        in the first city. Timers and listeners are not modelled. */
    constructor (savedCities: Option<seq<string>>, savedFormat: Option<string>, offset: string -> int,
                 liveHours: nat, liveMins: nat, liveSecs: nat)
      ensures selectedCities == ResolveCities(savedCities)
      ensures use24Hour == ResolveFormat(savedFormat, true)
      ensures Indicator() == IndicatorState(false, None)
      ensures Rendered(dials, selectedCities, offset, use24Hour)
      ensures indicatorAngle == MinutesToAngle(LiveMinutes(liveHours, liveMins, liveSecs))
      ensures ShowsCityTimes(cityTimes, selectedCities, use24Hour, offset, LiveMinutes(liveHours, liveMins, liveSecs))
      ensures Valid()
    {
      var cities := ResolveCities(savedCities);
      var format := ResolveFormat(savedFormat, true);
      var rendered := RenderDials(cities, offset, format);
      var minutes := LiveMinutes(liveHours, liveMins, liveSecs);
      var texts := CityTimeTexts(cities, CityTimeAt(cities, format, offset, minutes));
      selectedCities := cities;
      use24Hour := format;
      selectedTime := None;
      isDragging := false;
      dials := rendered;
      indicatorAngle := MinutesToAngle(minutes);
      cityTimes := texts;
    }

    /** `updateTimeIndicator(minutes)`: turn the indicator and rewrite every
        city's time. */
    method UpdateTimeIndicator(minutes: real, offset: string -> int)
      requires Valid()
      modifies this`indicatorAngle, this`cityTimes
      ensures Valid()
      ensures indicatorAngle == MinutesToAngle(minutes)
      ensures ShowsCityTimes(cityTimes, selectedCities, use24Hour, offset, minutes)
    {
      indicatorAngle := MinutesToAngle(minutes);
      cityTimes := CityTimeTexts(selectedCities, CityTimeAt(selectedCities, use24Hour, offset, minutes));
    }

    /** `updateCurrentTime()`, the 1 Hz tick: follow the live clock unless a
        time is selected (or the list is empty). */
    method UpdateCurrentTime(liveHours: nat, liveMins: nat, liveSecs: nat, offset: string -> int)
      requires Valid()
      modifies this`indicatorAngle, this`cityTimes
      ensures Valid() && Indicator() == Step(old(Indicator()), Tick)
      ensures FollowsLiveClock(Indicator()) && |selectedCities| > 0 ==>
        var live := LiveMinutes(liveHours, liveMins, liveSecs);
        indicatorAngle == MinutesToAngle(live) &&
        ShowsCityTimes(cityTimes, selectedCities, use24Hour, offset, live)
      ensures !(FollowsLiveClock(Indicator()) && |selectedCities| > 0) ==>
        indicatorAngle == old(indicatorAngle) && cityTimes == old(cityTimes)
    {
      if FollowsLiveClock(Indicator()) && |selectedCities| > 0 {
        UpdateTimeIndicator(LiveMinutes(liveHours, liveMins, liveSecs), offset);
      }
    }

    /** `handleDragStart`. */
    method HandleDragStart()
      requires Valid()
      modifies this`isDragging, this`selectedTime
      ensures Valid() && Indicator() == Step(old(Indicator()), DragStart)
    {
      isDragging := true;
      selectedTime := Some(0.0);
    }

    /** `handleDragMove`: while dragging, select the minute under the
        pointer and show it. */
    method HandleDragMove(atanDegrees: real, offset: string -> int)
      requires Valid() && -180.0 <= atanDegrees <= 180.0
      modifies this`selectedTime, this`indicatorAngle, this`cityTimes
      ensures Valid() && Indicator() == Step(old(Indicator()), DragMove(atanDegrees))
      ensures old(isDragging) ==>
        indicatorAngle == PointerAngle(atanDegrees) &&
        ShowsCityTimes(cityTimes, selectedCities, use24Hour, offset, PointerMinutes(atanDegrees))
      ensures !old(isDragging) ==> indicatorAngle == old(indicatorAngle) && cityTimes == old(cityTimes)
    {
      if !isDragging {
        return;
      }
      var minutes := PointerMinutes(atanDegrees);
      selectedTime := Some(minutes);
      UpdateTimeIndicator(minutes, offset);
    }

    /** `handleDragEnd`. */
    method HandleDragEnd()
      requires Valid()
      modifies this`isDragging
      ensures Valid() && Indicator() == Step(old(Indicator()), DragEnd)
    {
      if isDragging {
        isDragging := false;
      }
    }

    /** The click handler: a click on a dial selects the minute under the
        pointer, dragging or not. */
    method HandleClick(onDial: bool, atanDegrees: real, offset: string -> int)
      requires Valid() && -180.0 <= atanDegrees <= 180.0
      modifies this`selectedTime, this`indicatorAngle, this`cityTimes
      ensures Valid() && Indicator() == Step(old(Indicator()), Click(onDial, atanDegrees))
      ensures onDial ==>
        indicatorAngle == PointerAngle(atanDegrees) &&
        ShowsCityTimes(cityTimes, selectedCities, use24Hour, offset, PointerMinutes(atanDegrees))
      ensures !onDial ==> indicatorAngle == old(indicatorAngle) && cityTimes == old(cityTimes)
    {
      if onDial {
        var minutes := PointerMinutes(atanDegrees);
        selectedTime := Some(minutes);
        UpdateTimeIndicator(minutes, offset);
      }
    }

    /** `handleCitySelection(index, timezone)`: edit the list, then rebuild
        the selectors (whose time displays start out empty) and the dials. */
    method HandleCitySelection(index: nat, timezone: string, offset: string -> int)
      requires Valid()
      modifies this`selectedCities, this`dials, this`cityTimes
      ensures Valid()
      ensures selectedCities == ApplySelection(old(selectedCities), index, timezone)
      ensures Rendered(dials, selectedCities, offset, use24Hour)
      ensures forall i :: 0 <= i < |cityTimes| ==> cityTimes[i] == ""
    {
      selectedCities := ApplySelection(selectedCities, index, timezone);
      cityTimes := seq(|selectedCities|, _ => "");
      dials := RenderDials(selectedCities, offset, use24Hour);
    }

    /** The format toggle: switch format and redraw the dial labels; the
        city times keep their old format until the next update. */
    method ToggleFormat(checked: bool, offset: string -> int)
      requires Valid()
      modifies this`use24Hour, this`dials
      ensures Valid() && use24Hour == checked
      ensures Rendered(dials, selectedCities, offset, use24Hour)
    {
      use24Hour := checked;
      dials := RenderDials(selectedCities, offset, use24Hour);
    }
  }
}

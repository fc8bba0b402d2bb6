# World-clock dials in Dafny

A model of the dial and time engine of a browser "world clock". The clock
draws one dial per selected city, nests the dials by size and turns each
one by its city's UTC offset from the first (reference) city. A time
indicator runs over the dials. It follows the live clock of the reference
city while no time is selected, and a selected minute of 0 counts as none:
a drag start alone, or a drag or click that lands on minute 0, leaves the
live clock in control. A drag move or a click on a dial selects the minute
under the pointer. Each update of the indicator, live or selected, shows
every city's time at the indicator's minute in that city's selector. The
user can add, replace and remove cities and switch between 24-hour and
12-hour display. A city edit rebuilds the selectors with blank time
displays, and a format switch leaves the displayed times in the old
format. Both last until the next update, which, while a time is selected,
comes only with the next drag move or click on a dial.

The model is written against `script.js`:

- `jsmath.dfy` (module `JsMath`): JavaScript's truncating `%` and the floored modulo it builds.
- `text.dfy` (modules `Optional`, `Text`): `String(n)`, `padStart`, `split` and `Number`.
- `time_format.dfy` (module `TimeFormat`): the 24-hour and 12-hour time strings and `formatHourLabel`.
- `angles.dfy` (module `Angles`): minutes to degrees and back, the pointer normalisation, the live-clock minute.
- `time_conversion.dfy` (module `TimeConversion`): `calculateTimeForTimezone` and `updateSelectedTimeDisplay`.
- `dial_geometry.dfy` (module `DialGeometry`): `renderDials` and `createDial`, that is the rotations, sizes, markers and labels.
- `preferences.dfy` (module `Preferences`): the defaults and format flag that `initializeApp` resolves.
- `city_selection.dfy` (module `CitySelection`): the list edit made by `handleCitySelection`.
- `clock.dfy` (module `Clock`): the page's global state as a class, with its event handlers.
  - The indicator's state machine, `Step`/`Run`, sits beside the class.
  - Its lemmas cover whole event sequences.

Some things are parameters rather than part of the model:

- UTC offsets are a parameter `offset: string -> int`. `script.js` takes them from the browser's timezone database and rounds them to whole hours (script.js:371).
- The live wall-clock reading is a parameter: hours, minutes and seconds in the reference city.
- A pointer position is given as the degrees `Math.atan2` returns.

Minutes and angles are Dafny `real`s, which idealise JavaScript's doubles: rounding is not modelled.

Two facts about `script.js` shape the model:

- `getTimezoneOffset` rounds every offset to a whole hour (script.js:371), so offsets are integers here, also for cities such as Kolkata whose real offset is fractional.
- A city 9 hours behind the reference city, at reference minute 10, is at `((-530 % 1440) + 1440) % 1440 = 910`, that is 15:10 on the previous day. `TimeConversion.WrapBackwardExample` proves that value.

`Text.Split`, `Text.ParseNumber` and `Text.ParseFields` read a time string back the way `timeStr.split(':').map(Number)` does (script.js:393). The model applies them only to the strings it formats itself, to prove that both time formats lose nothing and are injective. The live clock's own string is not parsed: its fields are parameters.

## Model

| member | source | states |
|---|---|---|
| JsMath.JsRem | script.js:437 | JavaScript's `%` on the clock's moduli: the result has the sign of the dividend, is smaller than the modulus in magnitude, and differs from the dividend by a whole (truncated) number of moduli |
| JsMath.Trunc | script.js:437 | rounding toward zero: the integer between 0 and y that is less than one away from y |
| JsMath.FloorMod | script.js:437 | floored modulo: lies in [0, m) and differs from x by a whole number of m |
| JsMath.FloorModUnique | script.js:437 | any r in [0, m) that differs from x by a whole number of m is the floored modulo |
| JsMath.WrapIsFloorMod | script.js:437 | `((x % m) + m) % m` is the floored modulo of x for every x, negative ones included |
| JsMath.FloorModShift | script.js:437 | the floored modulo ignores whole turns: `FloorMod(x + k*m) == FloorMod(x)` |
| Text.Decimal | script.js:443-447 | `String(n)` is a non-empty run of digits with no leading zero, one digit exactly below 10 |
| Text.DecimalRoundTrip | script.js:443-447 | reading `String(n)` back as a number gives n |
| Text.ParseNumber | script.js:393 | on fields of digits, `Number` gives their value, the empty field 0; other fields give no number (weaker than `Number`, see Left out) |
| Text.ParseFields | script.js:393 | `.map(Number)`: one reading per field, each the number of that field |
| Text.PadStart | script.js:443 | `padStart(width)` gives a string of length `max(|s|, width)` |
| Text.PadStartParts | script.js:443 | the padded string is fill characters followed by the original string |
| Text.TwoDigits | script.js:443 | `String(n).padStart(2, '0')` is two digits for every n < 100 |
| Text.TwoDigitsRoundTrip | script.js:443 | the two padded digits read back as n |
| Text.Split | script.js:393 | `split` always yields at least one field |
| Text.SplitAtSeparator | script.js:393 | splitting `a + sep + b`, with no separator in `a`, gives `a` and then the fields of `b` |
| Text.SplitWithoutSeparator | script.js:393 | a string without the separator splits into itself |
| TimeFormat.Format24 | script.js:442-443 | the 24-hour time of an hour and minute below 100 is five characters with `:` in the middle |
| TimeFormat.Meridiem | script.js:446 | two characters ending in `M`; `AM` exactly before noon |
| TimeFormat.Format12 | script.js:444-448 | ends in a space and `AM` or `PM`, with `AM` exactly before noon |
| TimeFormat.FormatClock | script.js:442-448 | for a time of day, the 24-hour form is five characters and does not end in `M`; the 12-hour form is 7 or 8 characters and ends in `M` |
| TimeFormat.FormatHourLabel | script.js:356-364 | in 24-hour mode the label ends in `:00`; in 12-hour mode it ends in `am` or `pm`, with `am` exactly before noon |
| TimeFormat.DisplayHour | script.js:445 | the 12-hour display hour is in 1..12 and agrees with the hour modulo 12 |
| TimeFormat.Format24Shape | script.js:443 | the 24-hour time is `HH:MM`: two digits, a colon, two digits |
| TimeFormat.Format24RoundTrip | script.js:443 | splitting the 24-hour time at `:` and reading the fields gives back the hours and the minutes |
| TimeFormat.Format24Injective | script.js:442-443 | distinct times never share a 24-hour string |
| TimeFormat.TwelveHourDeterminesHour | script.js:445-446 | `AM` exactly for hours 0..11, and the display hour with AM/PM recovers the hour |
| TimeFormat.Format12Parts | script.js:447 | the 12-hour time is `H:MM`, a space, then `AM` or `PM` |
| TimeFormat.Dial12Reads | script.js:445-447 | the `H:MM` part reads back as the display hour and the minutes |
| TimeFormat.Format12Injective | script.js:444-448 | distinct times never share a 12-hour string |
| TimeFormat.HourLabel24Reads | script.js:357-358 | in 24-hour mode a label reads as its hour and `:00`, with midnight shown as 24 |
| TimeFormat.HourLabel12AgreesWithClock | script.js:359-364 | a 12-hour label shows the same display hour as the time strings, with `am` exactly for hours 0..11 |
| TimeFormat.HourLabelExamples | script.js:356-364 | 0 gives `24:00` in 24-hour mode; 0, 12 and 13 give `12am`, `12pm` and `1pm` in 12-hour mode |
| Angles.MinutesToAngle | script.js:405 | minutes in [0, 1440) are exactly those whose angle lies in [0, 360) |
| Angles.AngleToMinutes | script.js:489 | angles in [0, 360) are exactly those whose minute lies in [0, 1440) |
| Angles.MinutesRoundTrip | script.js:405 | minutes to angle and back is the identity |
| Angles.AngleRoundTrip | script.js:489 | angle to minutes and back is the identity |
| Angles.MinutesToAngleMonotone | script.js:405 | later minutes are further round the dial |
| Angles.PointerNormalisation | script.js:473 | adding 360 before `%` makes JavaScript's `%` the floored modulo of `d + 90` for every angle from -450 on |
| Angles.PointerAngle | script.js:473 | the normalised pointer angle is the floored modulo of `d + 90`; for every atan2 result it lies in [0, 360), given in closed form |
| Angles.PointerDirections | script.js:466-473 | up, right, down and left select 00:00, 06:00, 12:00 and 18:00 |
| Angles.PointerAtMidnight | script.js:473 | only the straight-up pointer selects minute 0 |
| Angles.LiveMinutes | script.js:394 | `h*60 + m + s/60` lies in the minute h:m and stays inside the day |
| TimeConversion.WrapDay | script.js:437 | the day wrap is the floored modulo 1440 and lies in [0, 1440) |
| TimeConversion.OffsetDifference | script.js:429-431 | the reference city's offset plus the difference is the city's offset; zero for the reference city |
| TimeConversion.CityMinutes | script.js:429-437 | the converted minute is `base + 60 * (offset difference)` taken floored modulo 1440, so it lies in [0, 1440) |
| TimeConversion.ClockParts | script.js:439-440 | hours in 0..23 and minutes in 0..59, naming the minute that contains the input |
| TimeConversion.CalculateTimeForTimezone | script.js:424-449 | `--:--` for an empty list; otherwise the chosen format of the hour and minute of `(base + 60 * offset difference)` floored modulo 1440 |
| TimeConversion.CityTimeTexts | script.js:412-422 | one text per city, in list order, each the text computed for the city in that position; given `calculateTimeForTimezone` at a minute, every city shows its own time |
| TimeConversion.ReferenceCityUnshifted | script.js:427-437 | the reference city sees the base minute taken into the day, and the base minute itself when it is already in [0, 1440) |
| TimeConversion.ConversionComposes | script.js:429-437 | converting from R to A and then from A to B gives the same minute as converting from R to B |
| TimeConversion.ConversionRoundTrip | script.js:429-437 | converting to a city and back returns the original minute |
| TimeConversion.LiveTimeShownAsRead | script.js:394-440 | the live reading, shown in the reference city, is the hour and minute it was read as |
| TimeConversion.ReferenceDisplayShowsLiveTime | script.js:380-440 | after a live update the reference city's display reads the wall clock's hour and minute in the chosen format |
| TimeConversion.WrapBackwardExample | script.js:434-443 | 10 minutes past midnight in UTC+1 is 15:10 in UTC-8 |
| DialGeometry.DialRotationAsWritten | script.js:227-233 | as written: the first dial is not turned; dial i turns clockwise by the angle of its offset difference, 15 degrees per hour |
| DialGeometry.DialRotation | script.js:227-233 | corrected (see Findings): the first dial is not turned; dial i turns by the same amount the other way |
| DialGeometry.DialReading | script.js:234-406 | where the indicator crosses a turned dial lies in [0, 360) |
| DialGeometry.DialReadsCityTime | script.js:227-437 | with the corrected rotation the indicator crosses every dial at the angle of the minute shown for its city |
| DialGeometry.WrittenDialReadsMirroredTime | script.js:227-406 | with the rotation as written dial i reads `m - 60 * d` instead of `m + 60 * d` |
| DialGeometry.HalfDaysApart | script.js:437 | `m - 60d` and `m + 60d` fall on the same minute of the day exactly when d is a multiple of 12 |
| DialGeometry.WrittenDialAgreesIff | script.js:227-437 | the rotation as written shows a city's time exactly when the city is a multiple of 12 hours from the reference city |
| DialGeometry.WrittenDialMisreadsExample | script.js:227-406 | New York first, London second, noon in New York: as written the indicator lies over London's hour-7 marker while London's display reads 17:00; the corrected rotation puts hour 17 there |
| DialGeometry.MarkerUnderIndicator | script.js:234-406 | on any dial, when the indicator crosses the dial's own frame at hour h, it points at the dial's hour-h marker on screen |
| DialGeometry.CityHourUnderIndicator | script.js:234-406 | on a dial turned by the corrected rotation, when the city's time is a whole hour h, the indicator points at that dial's hour-h marker |
| DialGeometry.DrawnDialHourUnderIndicator | script.js:190-406 | on the dials `renderDials` draws, the indicator at reference minute m points at city i's hour-h marker when `m - 60d` is h:00 (d the offset difference), not when the city's time is h:00 |
| DialGeometry.DialSize | script.js:201-210 | every diameter is positive and at most 600, the last city's is 600, and the first city's is `1200/(n+1)` |
| DialGeometry.DialSizesIncrease | script.js:210 | later cities get strictly larger dials |
| DialGeometry.CreateDial | script.js:219-354 | a dial has 24 markers at `hour*15` degrees, the ones on every third hour major, and 8 labels on those hours, each counter-turned by exactly the dial's rotation; the dial turns by the rotation as written |
| DialGeometry.RenderDials | script.js:190-217 | no dial for an empty list; otherwise one dial per city, in document order from the last city to the first, with its size and the rotation as written |
| DialGeometry.ReferenceDialOnTop | script.js:207-216 | the first city's dial comes last in document order, is not turned and is smaller than every other dial |
| DialGeometry.RotationAntisymmetric | script.js:228-232 | swapping the reference city with city i negates dial i's rotation, as written and corrected |
| Preferences.ResolveCities | script.js:43-47 | the saved list if it has a city, else New York and London; never empty |
| Preferences.ResolveFormat | script.js:50-54 | `12hr` gives the 12-hour clock, `24hr` the 24-hour clock, anything else keeps the current setting |
| Preferences.FormatFlag | script.js:17 | the stored flag is `24hr` exactly for the 24-hour clock and `12hr` exactly for the 12-hour clock |
| Preferences.FormatFlagRoundTrip | script.js:17-54 | a saved format flag reads back as the setting it was saved from |
| Preferences.ReloadKeepsResolvedCities | script.js:16-47 | saving the cities the page resolved and loading them again gives the same cities |
| CitySelection.ApplySelection | script.js:168-183 | the empty choice removes the slot (or changes nothing past the end); a city replaces the slot or is appended past the end; everything else stays in order |
| CitySelection.RemovalTakesOneCity | script.js:170-173 | a removal takes out exactly one copy of the chosen city |
| CitySelection.ChoosingReplacesOne | script.js:176-178 | a replacement swaps one city for the chosen one and keeps the rest |
| CitySelection.AppendKeepsPrefix | script.js:179-181 | an append keeps every earlier city in place |
| Clock.FollowsLiveClock | script.js:381 | the tick overrides only an unset selection or one at the top of the dial (minute 0) |
| Clock.Step | script.js:478-521 | the indicator's state after one event: dragging exactly after a drag start or during a drag not ended; the selection changes only on a drag start, a move during a drag or a click on a dial; a selection in the day stays in the day |
| Clock.Run | script.js:478-521 | after a sequence of events a drag is under way only if one was already or some event started one |
| Clock.PointerMinutes | script.js:473-489 | the minute selected by a pointer is in [0, 1440) and maps back to the pointer's angle |
| Clock.MoveWithoutDragIgnored | script.js:485-486 | a drag move without a drag under way changes nothing |
| Clock.DragEndKeepsSelection | script.js:496-501 | ending a drag clears `isDragging` and keeps the selected time |
| Clock.DragStartStillFollowsLiveClock | script.js:381-481 | a drag start sets `selectedTime` to 0, which the tick still reads as unset |
| Clock.MoveFollowsLiveClockIff | script.js:485-491 | after a move the tick follows the live clock again exactly when the pointer went straight up |
| Clock.SelectionStaysInDay | script.js:473-517 | after any events, a selected time lies in [0, 1440) |
| Clock.SelectionIsSticky | script.js:478-520 | once a time is selected, no event brings `selectedTime` back to `null` |
| Clock.IdleWithoutDragStartOrClick | script.js:478-520 | without a drag start or a click on a dial, no event changes the indicator's state |
| Clock.Clock.constructor | script.js:39-65 | resolves the saved cities and format, draws the dials as `renderDials` does (rotation as written), and shows the live time on the indicator and in every city |
| Clock.Clock.UpdateTimeIndicator | script.js:399-410 | turns the indicator to the minute's angle and shows every city's time at that minute |
| Clock.Clock.UpdateCurrentTime | script.js:380-397 | when the indicator follows the live clock and there is a city, shows the live minute; otherwise nothing changes |
| Clock.Clock.HandleDragStart | script.js:478-483 | starts a drag and sets the selected time to 0 |
| Clock.Clock.HandleDragMove | script.js:485-494 | while dragging, selects the minute under the pointer and shows it; otherwise nothing changes |
| Clock.Clock.HandleDragEnd | script.js:496-501 | ends the drag and keeps the selection |
| Clock.Clock.HandleClick | script.js:514-521 | a click on a dial selects the minute under the pointer and shows it; other clicks change nothing |
| Clock.Clock.HandleCitySelection | script.js:168-188 | the list becomes `ApplySelection` of the old list, the dials are redrawn for it as `renderDials` does, and every city's time display starts out empty |
| Clock.Clock.ToggleFormat | script.js:72-77 | sets the format and redraws the dials in it, as `renderDials` does |

## Findings

| source | as written | input that shows it | evidently intended | confidence | as-written member | corrected member |
|---|---|---|---|---|---|---|
| script.js:227-234 | dial i is turned clockwise by `(offset(city) - offset(first)) * 15` degrees | New York first, London second, reference minute 720: the indicator at 180 degrees lies over London's hour-7 marker, while London's display reads 17:00 | the turn the other way, `(offset(first) - offset(city)) * 15`, so that the marker under the indicator is the hour each display shows | not executed; medium, since it rests on CSS `rotate` turning clockwise like the indicator | DialGeometry.WrittenDialMisreadsExample | DialGeometry.DialReadsCityTime |

The model draws the dials as `script.js` does, with `DialGeometry.DialRotationAsWritten`: `CreateDial`, `RenderDials` and the `Clock` methods that redraw (the constructor, `HandleCitySelection`, `ToggleFormat`) use it, and `DialGeometry.DrawnDialHourUnderIndicator` states what those dials show. The corrected `DialGeometry.DialRotation` is stated beside it: `DialGeometry.DialReadsCityTime` and `DialGeometry.CityHourUnderIndicator` prove what a dial turned by it shows.

## Left out

- Element creation, styling, positions computed with `Math.sin`/`Math.cos`, the conic-gradient background and the city selector's option list are presentation only.
- `localStorage` and `JSON.parse` are browser I/O, as are `savePreferences` and `loadPreferences`. Saved values arrive already read: `None` stands for a missing entry. The saved list is taken as already parsed into strings.
- `getTimezoneOffset` consults the browser's timezone database, so offsets are the parameter `offset`. The model reads all offsets at one instant; `script.js` reads them afresh on each call.
- `toLocaleTimeString` and the splitting of its result are a foreign call. `Clock.Clock.UpdateCurrentTime` takes the hours, minutes and seconds it yields.
- `Math.atan2` is floating point. Pointer positions are given as its result in degrees.
- `setInterval` and the listener registration are event plumbing. Each handler is a method, and the timer tick is `UpdateCurrentTime`.
- `getCurrentCityName` is a lookup in the city table, which is not part of this model.
- The cursor style and `preventDefault` in the drag handlers are not modelled.
- Doubles are idealised as reals. Rounding in `minutes/1440*360` and its inverse is not modelled.
- `NaN` is not modelled: a `selectedTime` of `NaN` would also pass the `!selectedTime` test.
- `Clock.Clock.HandleDragMove`, `Clock.Clock.HandleClick`: take the pointer degrees in [-180, 180], the range of `Math.atan2`, rather than any double.
- `Text.PadStart`: states only the padded length. Its content is stated by `Text.PadStartParts`.
- `Text.ParseNumber`: reads only fields of decimal digits. JavaScript's `Number` also accepts surrounding blanks, a sign, a decimal point and an exponent; the model never parses such fields.
- `getTimezoneOffset` throws a `RangeError` for a name that is not a timezone (script.js:370), for example from a corrupted saved list (script.js:42-43). The model takes `offset` as total, so that error path is not modelled.

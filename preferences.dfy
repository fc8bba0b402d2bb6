/** The choices `initializeApp` makes from what was saved, and the format
    flag `savePreferences` writes. The saved values arrive already read and
    parsed: `None` is a missing entry. */
module Preferences {
  import opened Optional

  /** The cities shown when nothing usable was saved. */
  const DefaultCities: seq<string> := ["America/New_York", "Europe/London"]

  /** The saved city list if it has at least one city, else the defaults. */
  function ResolveCities(saved: Option<seq<string>>): (cities: seq<string>)
    ensures |cities| > 0
    ensures saved.Some? && |saved.value| > 0 ==> cities == saved.value
    ensures saved.None? || |saved.value| == 0 ==> cities == DefaultCities
  {
    if saved.Some? && |saved.value| > 0 then saved.value else DefaultCities
  }

  /** The stored format flag: `24hr` or `12hr`. */
  function FormatFlag(use24Hour: bool): (flag: string)
    ensures flag == "24hr" <==> use24Hour
    ensures flag == "12hr" <==> !use24Hour
  {
    assert "24hr" != "12hr" by { assert "24hr"[0] != "12hr"[0]; }
    if use24Hour then "24hr" else "12hr"
  }

  /** `12hr` turns the 24-hour clock off, `24hr` on; anything else keeps the
      current setting. */
  function ResolveFormat(saved: Option<string>, current: bool): (use24Hour: bool)
    ensures saved == Some("12hr") ==> !use24Hour
    ensures saved == Some("24hr") ==> use24Hour
    ensures saved != Some("12hr") && saved != Some("24hr") ==> use24Hour == current
  {
    if saved == Some("12hr") then false
    else if saved == Some("24hr") then true
    else current
  }

  /** A saved format flag reads back as the setting it was saved from. */
  lemma FormatFlagRoundTrip(use24Hour: bool, current: bool)
    ensures ResolveFormat(Some(FormatFlag(use24Hour)), current) == use24Hour
  {
    assert "24hr" != "12hr" by { assert "24hr"[0] != "12hr"[0]; }
  }

  /** Saving the cities the page started with and loading them again gives
      the same cities: the resolution is idempotent. */
  lemma ReloadKeepsResolvedCities(saved: Option<seq<string>>)
    ensures ResolveCities(Some(ResolveCities(saved))) == ResolveCities(saved)
  {
  }
}

/** `handleCitySelection(index, timezone)` as a change to the city list:
    the empty choice removes, a city overwrites or appends. */
module CitySelection {

  /** The city list after choosing `timezone` in the selector at `index`. */
  function ApplySelection(cities: seq<string>, index: nat, timezone: string): (r: seq<string>)
    // "Select City" in an existing slot removes that city; the others keep their order
    ensures timezone == "" && index < |cities| ==>
      |r| == |cities| - 1 &&
      (forall j :: 0 <= j < index ==> r[j] == cities[j]) &&
      (forall j :: index <= j < |r| ==> r[j] == cities[j + 1])
    // "Select City" past the end changes nothing
    ensures timezone == "" && index >= |cities| ==> r == cities
    // a city in an existing slot replaces just that slot
    ensures timezone != "" && index < |cities| ==>
      |r| == |cities| && r[index] == timezone &&
      (forall j :: 0 <= j < |r| && j != index ==> r[j] == cities[j])
    // a city anywhere past the end is appended, even if already listed
    ensures timezone != "" && index >= |cities| ==>
      |r| == |cities| + 1 && r[|cities|] == timezone &&
      (forall j :: 0 <= j < |cities| ==> r[j] == cities[j])
  {
    if timezone == "" then
      if index < |cities| then cities[..index] + cities[index + 1..] else cities
    else if index < |cities| then
      cities[index := timezone]
    else
      cities + [timezone]
  }

  /** Removal takes out exactly one copy of the chosen city and nothing else. */
  lemma {:induction false} RemovalTakesOneCity(cities: seq<string>, index: nat)
    requires index < |cities|
    ensures multiset(ApplySelection(cities, index, "")) + multiset{cities[index]} == multiset(cities)
  {
    assert cities == cities[..index] + [cities[index]] + cities[index + 1..];
  }

  /** Choosing a city changes the multiset of cities by at most that city
      in and the replaced one out. */
  lemma {:induction false} ChoosingReplacesOne(cities: seq<string>, index: nat, timezone: string)
    requires timezone != "" && index < |cities|
    ensures multiset(ApplySelection(cities, index, timezone)) + multiset{cities[index]}
            == multiset(cities) + multiset{timezone}
  {
    var r := ApplySelection(cities, index, timezone);
    assert cities == cities[..index] + [cities[index]] + cities[index + 1..];
    assert r == cities[..index] + [timezone] + cities[index + 1..];
  }

  /** The list only grows by one at the end, so a city added through the
      trailing empty selector keeps every earlier dial where it was. */
  lemma AppendKeepsPrefix(cities: seq<string>, index: nat, timezone: string)
    requires timezone != "" && index >= |cities|
    ensures ApplySelection(cities, index, timezone)[..|cities|] == cities
  {
  }
}

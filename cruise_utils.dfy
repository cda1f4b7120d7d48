/** src/utils/cruiseUtils.ts: reading the departure out of a date range, the
    arrival from the duration, the calendar and city options of the search form,
    and the minimal validation of an imported cruise.

    `new Date(text)` is the parameter `parse`: the day the text denotes, or
    `None` for an invalid date. */
module CruiseUtils {

  import opened Options
  import opened Lists
  import opened Strings
  import opened Sorting
  import opened Constants
  import opened CruiseTypes

  /** The text before the first `" - "` of a date range, trimmed. */
  function DepartureText(dateRangeStr: string): string {
    Trim(BeforeFirst(dateRangeStr, " - "))
  }

  /** A year token `'YY` becomes `20YY`; any other token is kept. */
  function ExpandYear(year: string): string {
    if year != [] && year[0] == '\'' then "20" + year[1..] else year
  }

  /** The `"DD MMM YYYY"` text built from a three-token start. */
  function DayMonthYear(parts: seq<string>): string
    requires |parts| == 3
  {
    PadStart(parts[0], 2, '0') + " " + parts[1] + " " + ExpandYear(parts[2])
  }

  /** `parseDepartureDate`: the first day of a range such as `"29 Aug '25 - 5 Sep '25"`. */
  function ParseDepartureDate(dateRangeStr: string, parse: string -> Option<Day>): (r: Option<Day>)
    ensures dateRangeStr == [] ==> r.None?
    ensures DepartureText(dateRangeStr) == [] ==> r.None?
  {
    if dateRangeStr == [] then None
    else
      var start := DepartureText(dateRangeStr);
      if start == [] then None
      else
        var parts := Split(start, ' ');
        var first := if |parts| == 3 then parse(DayMonthYear(parts)) else None;
        if first.Some? then first else parse(ReplaceAll(start, '\'', "20"))
  }

  /** `parseDepartureDate` as a value, for the lists that attach it to every cruise. */
  function DepartureParser(parse: string -> Option<Day>): string -> Option<Day> {
    s => ParseDepartureDate(s, parse)
  }

  /** Only the text before the first `" - "` decides the departure. */
  lemma DepartureUsesStartOnly(dateRangeStr: string, parse: string -> Option<Day>)
    ensures ParseDepartureDate(dateRangeStr, parse) == ParseDepartureDate(BeforeFirst(dateRangeStr, " - "), parse)
  {
    BeforeFirstIdempotent(dateRangeStr, " - ");
  }

  /** A start `D MMM 'YY` is handed to the date parser as `DD MMM 20YY`, and that
      reading wins whenever it is a valid date. */
  lemma ShortYearExpanded(dateRangeStr: string, parse: string -> Option<Day>, d: string, m: string, yy: string)
    requires Split(DepartureText(dateRangeStr), ' ') == [d, m, "'" + yy]
    requires parse(PadStart(d, 2, '0') + " " + m + " 20" + yy).Some?
    ensures ParseDepartureDate(dateRangeStr, parse) == parse(PadStart(d, 2, '0') + " " + m + " 20" + yy)
  {
    var start := DepartureText(dateRangeStr);
    assert |Split([], ' ')| == 1;
    assert start != [];
    assert DepartureText([]) == [];
    assert dateRangeStr != [];
    var parts := Split(start, ' ');
    assert ExpandYear(parts[2]) == "20" + yy;
    YearSuffix(PadStart(d, 2, '0') + " " + m, yy);
  }

  /** Appending the expanded year token is appending `" 20"` and the two digits. */
  lemma YearSuffix(prefix: string, yy: string)
    ensures prefix + " " + ("20" + yy) == prefix + " 20" + yy
  {
    var a := prefix + " " + ("20" + yy);
    var b := prefix + " 20" + yy;
    assert |a| == |b|;
    forall i | 0 <= i < |a| ensures a[i] == b[i] {
    }
  }

  /** Without three tokens, or when their reading is invalid, the whole start is
      parsed with every `'` replaced by `20`. */
  lemma DepartureFallback(dateRangeStr: string, parse: string -> Option<Day>)
    requires DepartureText(dateRangeStr) != []
    requires var parts := Split(DepartureText(dateRangeStr), ' ');
      |parts| != 3 || parse(DayMonthYear(parts)).None?
    ensures ParseDepartureDate(dateRangeStr, parse) == parse(ReplaceAll(DepartureText(dateRangeStr), '\'', "20"))
    ensures '\'' !in ReplaceAll(DepartureText(dateRangeStr), '\'', "20")
  {
  }

  /** The number of nights of a duration: its first run of digits (`parseInt` of
      the `/(\d+)/` match), or `None` without digits. */
  function Nights(duration: string): (r: Option<nat>)
    ensures r.None? <==> forall i :: 0 <= i < |duration| ==> !IsDigit(duration[i])
  {
    match FirstDigitRun(duration)
    case None => None
    case Some(run) => Some(DigitsValue(run))
  }

  /** "7 Nights" is seven nights. */
  lemma SevenNights()
    ensures Nights("7 Nights") == Some(7)
  {
    assert FirstDigitAt("7 Nights") == 0;
    assert "7 Nights"[0..] == "7 Nights";
    assert DigitSpan("7 Nights"[1..]) == [];
    assert DigitSpan("7 Nights") == "7";
  }

  /** A duration with no digit has no number of nights. */
  lemma NoNightsWithoutDigits()
    ensures Nights("TBD") == None
  {
  }

  /** `parseArrivalDate`: the departure plus the number of nights. */
  function ParseArrivalDate(departureDate: string, duration: string, parse: string -> Option<Day>): (r: Option<Day>)
    ensures r.Some? <==> (departureDate != [] && duration != []
      && ParseDepartureDate(departureDate, parse).Some? && Nights(duration).Some?)
    ensures r.Some? ==> r.value == ParseDepartureDate(departureDate, parse).value + Nights(duration).value
    ensures r.Some? ==> r.value >= ParseDepartureDate(departureDate, parse).value
  {
    if departureDate == [] || duration == [] then None
    else
      match ParseDepartureDate(departureDate, parse)
      case None => None
      case Some(dep) =>
        match Nights(duration)
        case None => None
        case Some(nights) => Some(dep + nights)
  }

  /** Called without a duration (which is falsy), `parseArrivalDate` gives no date. */
  lemma ArrivalNeedsDuration(departureDate: string, parse: string -> Option<Day>)
    ensures ParseArrivalDate(departureDate, [], parse).None?
  {
  }

  /** The days `getAvailableDates` adds for one cruise: departure through arrival
      when both parse, the departure alone when only it parses. */
  predicate CoversDay(c: Cruise, parse: string -> Option<Day>, d: Day) {
    var dep := ParseDepartureDate(c.departureDate, parse);
    var arr := ParseArrivalDate(c.departureDate, c.duration, parse);
    dep.Some? && (if arr.Some? then dep.value <= d <= arr.value else d == dep.value)
  }

  /** Some cruise among the first `n` covers day `d`. */
  predicate CoveredBefore(cruises: seq<Cruise>, parse: string -> Option<Day>, n: int, d: Day) {
    exists k :: 0 <= k < n && k < |cruises| && CoversDay(cruises[k], parse, d)
  }

  lemma CoveredBeforeNext(cruises: seq<Cruise>, parse: string -> Option<Day>, n: nat, d: Day)
    requires n < |cruises|
    ensures CoveredBefore(cruises, parse, n + 1, d) <==> CoveredBefore(cruises, parse, n, d) || CoversDay(cruises[n], parse, d)
  {
    if CoveredBefore(cruises, parse, n + 1, d) {
      var k :| 0 <= k < n + 1 && k < |cruises| && CoversDay(cruises[k], parse, d);
      if k < n {
        assert CoveredBefore(cruises, parse, n, d);
      }
    }
    if CoveredBefore(cruises, parse, n, d) {
      var k :| 0 <= k < n && k < |cruises| && CoversDay(cruises[k], parse, d);
      assert 0 <= k < n + 1 && k < |cruises| && CoversDay(cruises[k], parse, d);
    }
    if CoversDay(cruises[n], parse, d) {
      assert 0 <= n < n + 1 && n < |cruises| && CoversDay(cruises[n], parse, d);
    }
  }

  function DayKey(d: Day): int {
    d
  }

  /** The inner `while` of `getAvailableDates`: adds the days `lo..hi` to the set. */
  method AddDays(dates: seq<Day>, lo: Day, hi: Day) returns (r: seq<Day>)
    requires NoDup(dates)
    ensures NoDup(r)
    ensures forall d :: d in r <==> d in dates || lo <= d <= hi
  {
    r := dates;
    var current := lo;
    while current <= hi
      invariant current <= lo || current <= hi + 1
      invariant NoDup(r)
      invariant forall d :: d in r <==> d in dates || lo <= d < current
      decreases hi - current
    {
      r := AddToSet(r, current);
      current := current + 1;
    }
  }

  /** The body of the `forEach` of `getAvailableDates`: adds the days of one cruise. */
  method AddCruiseDays(dates: seq<Day>, c: Cruise, parse: string -> Option<Day>) returns (r: seq<Day>)
    requires NoDup(dates)
    ensures NoDup(r)
    ensures forall d :: d in r <==> d in dates || CoversDay(c, parse, d)
  {
    var departure := ParseDepartureDate(c.departureDate, parse);
    var arrival := ParseArrivalDate(c.departureDate, c.duration, parse);
    r := dates;
    if departure.Some? && arrival.Some? {
      r := AddDays(r, departure.value, arrival.value);
    } else if departure.Some? {
      r := AddToSet(r, departure.value);
    }
  }

  /** `getAvailableDates`: every day some cruise is at sea, ascending and without repeats. */
  method GetAvailableDates(cruises: seq<Cruise>, parse: string -> Option<Day>) returns (r: seq<Day>)
    ensures forall i, j :: 0 <= i < j < |r| ==> r[i] < r[j]
    ensures forall d :: d in r <==> CoveredBefore(cruises, parse, |cruises|, d)
  {
    var dates: seq<Day> := [];
    var i := 0;
    while i < |cruises|
      invariant 0 <= i <= |cruises|
      invariant NoDup(dates)
      invariant forall d :: d in dates <==> CoveredBefore(cruises, parse, i, d)
    {
      dates := AddCruiseDays(dates, cruises[i], parse);
      forall d ensures d in dates <==> CoveredBefore(cruises, parse, i + 1, d) {
        CoveredBeforeNext(cruises, parse, i, d);
      }
      i := i + 1;
    }
    r := SortDays(dates);
  }

  /** `Array.from(dates).sort((a, b) => a - b)` on distinct days: strictly ascending. */
  function SortDays(dates: seq<Day>): (r: seq<Day>)
    requires NoDup(dates)
    ensures forall i, j :: 0 <= i < j < |r| ==> r[i] < r[j]
    ensures forall d :: d in r <==> d in dates
  {
    var r := SortByKey(dates, DayKey);
    NoDupMultiset(dates, r);
    forall d ensures d in r <==> d in dates {
      assert d in r <==> d in multiset(r);
    }
    forall i, j | 0 <= i < j < |r| ensures r[i] < r[j] {
      assert DayKey(r[i]) <= DayKey(r[j]);
      assert r[i] != r[j];
    }
    r
  }

  /** `port.split(',')[0].trim()`: the city part of a port such as `"Barcelona, Spain"`. */
  function CityOf(port: string): (r: string)
    ensures ',' !in r
  {
    Trim(Split(port, ',')[0])
  }

  /** A city read off a port is its own city. */
  lemma CityOfIdempotent(port: string)
    ensures CityOf(CityOf(port)) == CityOf(port)
  {
    var city := CityOf(port);
    SplitWithoutSeparator(city, ',');
    TrimIdempotent(Split(port, ',')[0]);
  }

  /** The cities `getAvailableCities` takes from a cruise: its departure port and
      the ports of its stops, skipping empty ones. */
  predicate NamesCity(c: Cruise, city: string) {
    (c.departurePort != [] && CityOf(c.departurePort) == city)
    || (c.itinerary.Stops? && StopBefore(c.itinerary.stops, |c.itinerary.stops|, city))
  }

  predicate StopNamesCity(s: Stop, city: string) {
    s.port != [] && CityOf(s.port) == city
  }

  /** Some cruise among the first `n` names `city`. */
  predicate NamedBefore(cruises: seq<Cruise>, n: int, city: string) {
    exists k :: 0 <= k < n && k < |cruises| && NamesCity(cruises[k], city)
  }

  lemma NamedBeforeNext(cruises: seq<Cruise>, n: nat, city: string)
    requires n < |cruises|
    ensures NamedBefore(cruises, n + 1, city) <==> NamedBefore(cruises, n, city) || NamesCity(cruises[n], city)
  {
    if NamedBefore(cruises, n + 1, city) {
      var k :| 0 <= k < n + 1 && k < |cruises| && NamesCity(cruises[k], city);
      if k < n {
        assert NamedBefore(cruises, n, city);
      }
    }
    if NamedBefore(cruises, n, city) {
      var k :| 0 <= k < n && k < |cruises| && NamesCity(cruises[k], city);
      assert 0 <= k < n + 1 && k < |cruises| && NamesCity(cruises[k], city);
    }
    if NamesCity(cruises[n], city) {
      assert 0 <= n < n + 1 && n < |cruises| && NamesCity(cruises[n], city);
    }
  }

  /** Some stop among the first `n` names `city`. */
  predicate StopBefore(stops: seq<Stop>, n: int, city: string) {
    exists k :: 0 <= k < n && k < |stops| && StopNamesCity(stops[k], city)
  }

  /** The inner `forEach` of `getAvailableCities`: adds the city of every stop with a port. */
  method AddStopCities(cities: seq<string>, stops: seq<Stop>) returns (r: seq<string>)
    requires NoDup(cities)
    ensures NoDup(r)
    ensures forall city :: city in r <==> city in cities || StopBefore(stops, |stops|, city)
  {
    r := cities;
    var j := 0;
    while j < |stops|
      invariant 0 <= j <= |stops|
      invariant NoDup(r)
      invariant forall city :: city in r <==> city in cities || StopBefore(stops, j, city)
    {
      if stops[j].port != [] {
        r := AddToSet(r, CityOf(stops[j].port));
      }
      forall city ensures StopBefore(stops, j + 1, city) <==> StopBefore(stops, j, city) || StopNamesCity(stops[j], city) {
        if StopBefore(stops, j + 1, city) {
          var k :| 0 <= k < j + 1 && k < |stops| && StopNamesCity(stops[k], city);
          if k < j {
            assert StopBefore(stops, j, city);
          }
        }
        if StopNamesCity(stops[j], city) {
          assert 0 <= j < j + 1 && j < |stops| && StopNamesCity(stops[j], city);
        }
      }
      j := j + 1;
    }
  }

  /** `getAvailableCities`: every city some cruise calls at or leaves from, sorted
      and without repeats. */
  method GetAvailableCities(cruises: seq<Cruise>) returns (r: seq<string>)
    ensures SortedStrings(r)
    ensures NoDup(r)
    ensures forall city :: city in r <==> NamedBefore(cruises, |cruises|, city)
  {
    var cities: seq<string> := [];
    var i := 0;
    while i < |cruises|
      invariant 0 <= i <= |cruises|
      invariant NoDup(cities)
      invariant forall city :: city in cities <==> NamedBefore(cruises, i, city)
    {
      var c := cruises[i];
      if c.departurePort != [] {
        cities := AddToSet(cities, CityOf(c.departurePort));
      }
      if c.itinerary.Stops? {
        cities := AddStopCities(cities, c.itinerary.stops);
      }
      forall city ensures city in cities <==> NamedBefore(cruises, i + 1, city) {
        NamedBeforeNext(cruises, i, city);
      }
      i := i + 1;
    }
    r := SortStrings(cities);
    SortedDistinctStrings(cities, r);
    forall city ensures city in r <==> city in cities {
      assert city in r <==> city in multiset(r);
    }
  }

  /** What `validateCruiseData` may be given: an object with the cruise's fields,
      or something else (`null`, a number, a string). */
  datatype CruiseInput = Object(cruise: Cruise) | NotAnObject

  /** `validateCruiseData`: an object with a Ship Name that is not blank, and a
      textual itinerary, when there is one, that is valid JSON (`isJson`, the
      outcome of `JSON.parse`). A thrown error is `Err` with its message. */
  function ValidateCruiseData(input: CruiseInput, isJson: string -> bool): (r: Result<bool>)
    ensures r.Ok? <==> (input.Object? && !IsBlank(input.cruise.shipName)
      && (input.cruise.itinerary.Text? && input.cruise.itinerary.text != [] ==> isJson(input.cruise.itinerary.text)))
    ensures r.Ok? ==> r.value
    ensures input.NotAnObject? ==> r == Err("Invalid cruise data - must be an object")
    ensures input.Object? && IsBlank(input.cruise.shipName) ==> r == Err("Ship Name is required")
    ensures input.Object? && !IsBlank(input.cruise.shipName) && input.cruise.itinerary.Text?
      && input.cruise.itinerary.text != [] && !isJson(input.cruise.itinerary.text)
      ==> r == Err("Complete Itinerary must be valid JSON format")
  {
    if input.NotAnObject? then Err("Invalid cruise data - must be an object")
    else if Trim(input.cruise.shipName) == [] then
      TrimEmptyIffBlank(input.cruise.shipName);
      Err("Ship Name is required")
    else if input.cruise.itinerary.Text? && input.cruise.itinerary.text != [] && !isJson(input.cruise.itinerary.text) then
      TrimEmptyIffBlank(input.cruise.shipName);
      Err("Complete Itinerary must be valid JSON format")
    else
      TrimEmptyIffBlank(input.cruise.shipName);
      Ok(true)
  }
}

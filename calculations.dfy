/** The day-accounting engine of src/utils/calculations.ts: the Schengen
    rolling-window sampler, its per-location variant and the UK tax-year counter.

    The source walks trips and days with nested loops; the methods below do the
    same, and each is proved equal to a specification function (`Samples`,
    `CityStats`, `UkDays`) about which the lemmas state what the numbers mean. */
module Calculations {

  import opened Options
  import opened Lists
  import opened Constants
  import opened DateUtils

  /** Which trips a window count looks at: every Schengen trip, or the Schengen
      trips at one location (`calculateCityLimits`). */
  datatype Scope = AllSchengen | City(name: string)

  predicate InScope(t: Trip, scope: Scope) {
    t.isSchengen && (scope.City? ==> t.location == scope.name)
  }

  /** One sample of the sampler: a day of a Schengen trip and its window count. */
  datatype SchengenDay = SchengenDay(date: Day, daysInWindow: nat, isOverLimit: bool, location: string)

  datatype SchengenStats = SchengenStats(totalDays: nat, validDays: seq<SchengenDay>)

  datatype CityLimitStats = CityLimitStats(totalDays: nat, maxInAnyWindow: nat, hasOverLimit: bool)

  datatype UkTaxYearStats = UkTaxYearStats(daysInUk: nat, meetsRequirement: bool, daysNeeded: nat)

  function Min(a: int, b: int): int { if a < b then a else b }

  function Max(a: int, b: int): int { if a > b then a else b }

  /** The first day of the 180-day window that ends on `day`. */
  function WindowStart(day: Day): Day {
    day - (SchengenWindowDays - 1)
  }

  /** The days `from..stop-1` that fall in `lo..hi`, counted one by one (a day loop with a test). */
  function CountDays(from: Day, stop: Day, lo: Day, hi: Day): nat
    decreases stop - from
  {
    if stop <= from then 0 else CountDays(from, stop - 1, lo, hi) + (if lo <= stop - 1 <= hi then 1 else 0)
  }

  /** The count is the size of the intersection of `from..stop-1` with `lo..hi`. */
  lemma {:induction false} CountDaysClosedForm(from: Day, stop: Day, lo: Day, hi: Day)
    ensures CountDays(from, stop, lo, hi) == Max(0, Min(stop - 1, hi) - Max(from, lo) + 1)
    decreases stop - from
  {
    if stop > from {
      CountDaysClosedForm(from, stop - 1, lo, hi);
    }
  }

  /** The iterations of `for (day = start; day <= end; day++)`: the trip's length, or 0
      for a trip whose end precedes its start. */
  function LoopDays(t: Trip): nat {
    if t.endDate < t.startDate then 0 else CalculateDays(t.startDate, t.endDate)
  }

  /** The days of trip `t` that lie in the window ending on `day` - the innermost loop. */
  function TripWindowDays(t: Trip, scope: Scope, day: Day): nat {
    if InScope(t, scope) then CountDays(t.startDate, t.endDate + 1, WindowStart(day), day) else 0
  }

  function WindowTerm(scope: Scope, day: Day): Trip -> nat {
    t => TripWindowDays(t, scope, day)
  }

  /** `daysInWindow`: the trip-days of in-scope trips in the window ending on `day`,
      summed trip by trip, so a day covered by two trips counts twice. */
  function WindowCount(ts: seq<Trip>, scope: Scope, day: Day): nat {
    SumBy(ts, WindowTerm(scope, day))
  }

  function LengthTerm(scope: Scope): Trip -> nat {
    t => if InScope(t, scope) then LoopDays(t) else 0
  }

  /** The sum of the inclusive lengths of the in-scope trips. */
  function TotalDays(ts: seq<Trip>, scope: Scope): nat {
    SumBy(ts, LengthTerm(scope))
  }

  /** The `location` of a sample: the trip's own, or the city being counted. */
  function SampleLocation(t: Trip, scope: Scope): string {
    if scope.City? then scope.name else t.location
  }

  /** The sample pushed for `day` of trip `t`. */
  function DaySample(t: Trip, all: seq<Trip>, scope: Scope, day: Day): SchengenDay {
    var n := WindowCount(all, scope, day);
    SchengenDay(day, n, n > SchengenLimitDays, SampleLocation(t, scope))
  }

  /** The samples of trip `t` for the days `t.startDate..stop-1`. */
  function TripSamples(t: Trip, stop: Day, all: seq<Trip>, scope: Scope): seq<SchengenDay>
    decreases stop - t.startDate
  {
    if stop <= t.startDate then [] else TripSamples(t, stop - 1, all, scope) + [DaySample(t, all, scope, stop - 1)]
  }

  /** The samples of the in-scope trips of `ts`, in order, each counted against `all`. */
  function Samples(all: seq<Trip>, ts: seq<Trip>, scope: Scope): seq<SchengenDay>
    decreases |ts|
  {
    if ts == [] then []
    else
      var t := ts[|ts| - 1];
      Samples(all, ts[..|ts| - 1], scope) + (if InScope(t, scope) then TripSamples(t, t.endDate + 1, all, scope) else [])
  }

  // ---------------------------------------------------------------- the loops

  /** The inner `sortedTrips.forEach`: the window count of `day`. */
  method CountWindowDays(sorted: seq<Trip>, scope: Scope, day: Day) returns (daysInWindow: nat)
    ensures daysInWindow == WindowCount(sorted, scope, day)
  {
    var rollingWindowStart := day - (SchengenWindowDays - 1);
    daysInWindow := 0;
    var i := 0;
    while i < |sorted|
      invariant 0 <= i <= |sorted|
      invariant daysInWindow == WindowCount(sorted[..i], scope, day)
    {
      var t := sorted[i];
      assert sorted[..i + 1][..i] == sorted[..i];
      if InScope(t, scope) {
        var tDay := t.startDate;
        ghost var base := daysInWindow;
        while tDay <= t.endDate
          invariant t.startDate <= tDay && (tDay <= t.endDate + 1 || tDay == t.startDate)
          invariant daysInWindow == base + CountDays(t.startDate, tDay, rollingWindowStart, day)
        {
          if tDay >= rollingWindowStart && tDay <= day {
            daysInWindow := daysInWindow + 1;
          }
          tDay := tDay + 1;
        }
        assert CountDays(t.startDate, tDay, rollingWindowStart, day) == TripWindowDays(t, scope, day);
      }
      i := i + 1;
    }
    assert sorted[..i] == sorted;
  }

  /** The outer loops: one sample for every day of every in-scope trip of `sorted`. */
  method CollectSamples(sorted: seq<Trip>, scope: Scope) returns (days: seq<SchengenDay>)
    ensures days == Samples(sorted, sorted, scope)
  {
    days := [];
    var i := 0;
    while i < |sorted|
      invariant 0 <= i <= |sorted|
      invariant days == Samples(sorted, sorted[..i], scope)
    {
      var trip := sorted[i];
      assert sorted[..i + 1][..i] == sorted[..i];
      if InScope(trip, scope) {
        var day := trip.startDate;
        ghost var before := days;
        while day <= trip.endDate
          invariant trip.startDate <= day && (day <= trip.endDate + 1 || day == trip.startDate)
          invariant days == before + TripSamples(trip, day, sorted, scope)
        {
          var daysInWindow := CountWindowDays(sorted, scope, day);
          days := days + [SchengenDay(day, daysInWindow, daysInWindow > SchengenLimitDays, SampleLocation(trip, scope))];
          day := day + 1;
        }
      }
      i := i + 1;
    }
    assert sorted[..i] == sorted;
  }

  /** Some Schengen trip of `trips` covers the sample's day, at the sample's location. */
  predicate CoveredBySchengenTrip(trips: seq<Trip>, d: SchengenDay) {
    exists t :: t in trips && t.isSchengen && InRange(d.date, t.startDate, t.endDate) && d.location == t.location
  }

  /** `calculateSchengenDays`. */
  method CalculateSchengenDays(trips: seq<Trip>) returns (stats: SchengenStats)
    ensures stats.validDays == Samples(SortTrips(trips), SortTrips(trips), AllSchengen)
    ensures stats.totalDays == |stats.validDays| == TotalDays(trips, AllSchengen)
    ensures forall i :: 0 <= i < |stats.validDays| ==>
      stats.validDays[i].daysInWindow == WindowCount(trips, AllSchengen, stats.validDays[i].date)
    ensures forall i :: 0 <= i < |stats.validDays| ==>
      (stats.validDays[i].isOverLimit <==> stats.validDays[i].daysInWindow > SchengenLimitDays)
    ensures forall i :: 0 <= i < |stats.validDays| ==> CoveredBySchengenTrip(trips, stats.validDays[i])
  {
    var sortedTrips := SortTrips(trips);
    var schengenDays := CollectSamples(sortedTrips, AllSchengen);
    stats := SchengenStats(|schengenDays|, schengenDays);
    SamplesCount(sortedTrips, sortedTrips, AllSchengen);
    TotalDaysOrderFree(sortedTrips, trips, AllSchengen);
    SortedSamples(trips, stats.validDays);
  }

  lemma SortedSamples(trips: seq<Trip>, days: seq<SchengenDay>)
    requires days == Samples(SortTrips(trips), SortTrips(trips), AllSchengen)
    ensures forall i :: 0 <= i < |days| ==> days[i].daysInWindow == WindowCount(trips, AllSchengen, days[i].date)
    ensures forall i :: 0 <= i < |days| ==> (days[i].isOverLimit <==> days[i].daysInWindow > SchengenLimitDays)
    ensures forall i :: 0 <= i < |days| ==> CoveredBySchengenTrip(trips, days[i])
  {
    forall i | 0 <= i < |days|
      ensures days[i].daysInWindow == WindowCount(trips, AllSchengen, days[i].date)
      ensures days[i].isOverLimit <==> days[i].daysInWindow > SchengenLimitDays
      ensures CoveredBySchengenTrip(trips, days[i])
    {
      SortedSampleAt(trips, days, i);
    }
  }

  /** `SampleAt` for the samples of the sorted trips, restated against the input trips. */
  lemma SortedSampleAt(trips: seq<Trip>, days: seq<SchengenDay>, i: int)
    requires days == Samples(SortTrips(trips), SortTrips(trips), AllSchengen)
    requires 0 <= i < |days|
    ensures days[i].daysInWindow == WindowCount(trips, AllSchengen, days[i].date)
    ensures days[i].isOverLimit <==> days[i].daysInWindow > SchengenLimitDays
    ensures CoveredBySchengenTrip(trips, days[i])
  {
    var sorted := SortTrips(trips);
    var d := days[i];
    SampleAt(sorted, sorted, AllSchengen, i);
    WindowCountOrderFree(sorted, trips, AllSchengen, d.date);
    var t :| t in sorted && InScope(t, AllSchengen) && InRange(d.date, t.startDate, t.endDate) && d.location == t.location;
    assert t in multiset(sorted);
    assert t in trips;
  }

  // ------------------------------------------------------------ the sampler's meaning

  lemma {:induction false} TripSamplesAt(t: Trip, stop: Day, all: seq<Trip>, scope: Scope, k: int)
    requires 0 <= k < stop - t.startDate
    ensures |TripSamples(t, stop, all, scope)| == stop - t.startDate
    ensures TripSamples(t, stop, all, scope)[k] == DaySample(t, all, scope, t.startDate + k)
    decreases stop - t.startDate
  {
    if k < stop - 1 - t.startDate {
      TripSamplesAt(t, stop - 1, all, scope, k);
    } else if stop - 1 > t.startDate {
      TripSamplesAt(t, stop - 1, all, scope, 0);
    }
  }

  lemma {:induction false} TripSamplesLength(t: Trip, stop: Day, all: seq<Trip>, scope: Scope)
    ensures |TripSamples(t, stop, all, scope)| == Max(0, stop - t.startDate)
    decreases stop - t.startDate
  {
    if stop > t.startDate {
      TripSamplesLength(t, stop - 1, all, scope);
    }
  }

  /** There are as many samples as in-scope trip-days: `totalDays` is the sum of the
      inclusive lengths of the Schengen trips, and other trips give no samples. */
  lemma {:induction false} SamplesCount(all: seq<Trip>, ts: seq<Trip>, scope: Scope)
    ensures |Samples(all, ts, scope)| == TotalDays(ts, scope)
    decreases |ts|
  {
    if ts != [] {
      var t := ts[|ts| - 1];
      SamplesCount(all, ts[..|ts| - 1], scope);
      TripSamplesLength(t, t.endDate + 1, all, scope);
    }
  }

  /** Each sample is a day of an in-scope trip of `ts`, counted over `all`, and is over
      the limit exactly when its count exceeds 90. */
  lemma {:induction false} SampleAt(all: seq<Trip>, ts: seq<Trip>, scope: Scope, i: int)
    requires 0 <= i < |Samples(all, ts, scope)|
    ensures Samples(all, ts, scope)[i].daysInWindow == WindowCount(all, scope, Samples(all, ts, scope)[i].date)
    ensures Samples(all, ts, scope)[i].isOverLimit <==> Samples(all, ts, scope)[i].daysInWindow > SchengenLimitDays
    ensures exists t :: t in ts && InScope(t, scope) && InRange(Samples(all, ts, scope)[i].date, t.startDate, t.endDate)
                       && Samples(all, ts, scope)[i].location == t.location
    decreases |ts|
  {
    var t := ts[|ts| - 1];
    var ts' := ts[..|ts| - 1];
    var front := Samples(all, ts', scope);
    var tail := if InScope(t, scope) then TripSamples(t, t.endDate + 1, all, scope) else [];
    var d := Samples(all, ts, scope)[i];
    assert Samples(all, ts, scope) == front + tail;
    if i < |front| {
      assert d == front[i];
      SampleAt(all, ts', scope, i);
      var u :| u in ts' && InScope(u, scope) && InRange(d.date, u.startDate, u.endDate) && d.location == u.location;
      assert u in ts;
    } else {
      var k := i - |front|;
      assert d == tail[k];
      TripSamplesLength(t, t.endDate + 1, all, scope);
      assert InScope(t, scope);
      TripSamplesAt(t, t.endDate + 1, all, scope, k);
      assert InRange(t.startDate + k, t.startDate, t.endDate);
    }
  }

  /** Rearranging the trips does not change a window count. */
  lemma WindowCountOrderFree(a: seq<Trip>, b: seq<Trip>, scope: Scope, day: Day)
    requires multiset(a) == multiset(b)
    ensures WindowCount(a, scope, day) == WindowCount(b, scope, day)
  {
    SumByPermutation(a, b, WindowTerm(scope, day));
  }

  lemma TotalDaysOrderFree(a: seq<Trip>, b: seq<Trip>, scope: Scope)
    requires multiset(a) == multiset(b)
    ensures TotalDays(a, scope) == TotalDays(b, scope)
  {
    SumByPermutation(a, b, LengthTerm(scope));
  }

  /** A trip contributes its days between `day - 179` and `day`: nothing after the
      sample day, nothing before the window. */
  lemma TripWindowDaysClosedForm(t: Trip, scope: Scope, day: Day)
    requires InScope(t, scope)
    ensures TripWindowDays(t, scope, day) == Max(0, Min(t.endDate, day) - Max(t.startDate, day - 179) + 1)
    ensures t.startDate > day || t.endDate < day - 179 ==> TripWindowDays(t, scope, day) == 0
  {
    CountDaysClosedForm(t.startDate, t.endDate + 1, WindowStart(day), day);
  }

  /** A trip out of scope (not Schengen, or at another location) changes no count and adds no sample. */
  lemma OutOfScopeIgnored(all: seq<Trip>, a: seq<Trip>, t: Trip, b: seq<Trip>, scope: Scope, day: Day)
    requires !InScope(t, scope)
    ensures WindowCount(a + [t] + b, scope, day) == WindowCount(a + b, scope, day)
    ensures TotalDays(a + [t] + b, scope) == TotalDays(a + b, scope)
    ensures Samples(all, a + [t] + b, scope) == Samples(all, a + b, scope)
  {
    SumByConcat(a + [t], b, WindowTerm(scope, day));
    SumByConcat(a, [t], WindowTerm(scope, day));
    SumByConcat(a, b, WindowTerm(scope, day));
    SumByConcat(a + [t], b, LengthTerm(scope));
    SumByConcat(a, [t], LengthTerm(scope));
    SumByConcat(a, b, LengthTerm(scope));
    assert [t][..0] == [];
    SamplesConcat(all, a + [t], b, scope);
    SamplesConcat(all, a, [t], scope);
    SamplesConcat(all, a, b, scope);
  }

  lemma {:induction false} SamplesConcat(all: seq<Trip>, a: seq<Trip>, b: seq<Trip>, scope: Scope)
    ensures Samples(all, a + b, scope) == Samples(all, a, scope) + Samples(all, b, scope)
    decreases |b|
  {
    if b == [] {
      assert a + b == a;
    } else {
      assert (a + b)[..|a + b| - 1] == a + b[..|b| - 1];
      SamplesConcat(all, a, b[..|b| - 1], scope);
    }
  }

  /** Overlapping trips are counted twice: two copies of a 60-day trip put the last
      day at 120 days in the window, over the limit, though only 60 distinct days
      were spent in the area. */
  lemma DoubleCounting(t: Trip)
    requires t.isSchengen && t.endDate == t.startDate + 59
    ensures WindowCount([t, t], AllSchengen, t.endDate) == 120
    ensures DaySample(t, [t, t], AllSchengen, t.endDate).isOverLimit
    ensures !DaySample(t, [t], AllSchengen, t.endDate).isOverLimit
  {
    TripWindowDaysClosedForm(t, AllSchengen, t.endDate);
    assert [t, t][..1] == [t] && [t][..0] == [];
    assert WindowTerm(AllSchengen, t.endDate)(t) == TripWindowDays(t, AllSchengen, t.endDate) == 60;
    SumBySingleton(t, WindowTerm(AllSchengen, t.endDate));
    assert WindowCount([t, t], AllSchengen, t.endDate) == WindowCount([t], AllSchengen, t.endDate) + 60;
  }

  /** A single Schengen trip: the sample of its (k+1)-th day counts min(k+1, 180)
      days, so its first 90 days are within the limit and every later one is over. */
  lemma IsolatedTripSamples(t: Trip, k: int)
    requires t.isSchengen && 0 <= k < LoopDays(t)
    ensures |Samples([t], [t], AllSchengen)| == LoopDays(t)
    ensures Samples([t], [t], AllSchengen)[k].date == t.startDate + k
    ensures Samples([t], [t], AllSchengen)[k].daysInWindow == Min(k + 1, SchengenWindowDays)
    ensures Samples([t], [t], AllSchengen)[k].isOverLimit <==> k >= SchengenLimitDays
  {
    assert [t][..0] == [];
    assert Samples([t], [t], AllSchengen) == TripSamples(t, t.endDate + 1, [t], AllSchengen);
    TripSamplesAt(t, t.endDate + 1, [t], AllSchengen, k);
    TripWindowDaysClosedForm(t, AllSchengen, t.startDate + k);
    assert WindowTerm(AllSchengen, t.startDate + k)(t) == TripWindowDays(t, AllSchengen, t.startDate + k);
    SumBySingleton(t, WindowTerm(AllSchengen, t.startDate + k));
  }

  // ------------------------------------------------------------ per location

  /** `cityDays.some(day => day.isOverLimit)`. */
  function AnyOverLimit(days: seq<SchengenDay>): (r: bool)
    ensures r <==> exists i :: 0 <= i < |days| && days[i].isOverLimit
    decreases |days|
  {
    if days == [] then false else AnyOverLimit(days[..|days| - 1]) || days[|days| - 1].isOverLimit
  }

  /** `Math.max(...cityDays.map(day => day.daysInWindow))`, or 0 for no samples. */
  function MaxWindow(days: seq<SchengenDay>): (m: nat)
    ensures forall i :: 0 <= i < |days| ==> days[i].daysInWindow <= m
    ensures days == [] ==> m == 0
    ensures days != [] ==> exists i :: 0 <= i < |days| && days[i].daysInWindow == m
    decreases |days|
  {
    if days == [] then 0
    else
      var m := MaxWindow(days[..|days| - 1]);
      if days[|days| - 1].daysInWindow > m then days[|days| - 1].daysInWindow else m
  }

  function CityStats(days: seq<SchengenDay>): CityLimitStats {
    CityLimitStats(|days|, MaxWindow(days), AnyOverLimit(days))
  }

  function LocationOf(t: Trip): string { t.location }

  predicate IsSchengenTrip(t: Trip) { t.isSchengen }

  /** `[...new Set(trips.filter(t => t.isSchengen).map(t => t.location))]`. */
  function SchengenCities(trips: seq<Trip>): (r: seq<string>)
    ensures NoDup(r)
    ensures forall c :: c in r <==> exists t :: t in trips && t.isSchengen && t.location == c
  {
    var names := Map(Filter(trips, IsSchengenTrip), LocationOf);
    forall c ensures c in names <==> exists t :: t in trips && t.isSchengen && t.location == c {
      SchengenNameOf(trips, c);
    }
    Distinct(names)
  }

  lemma SchengenNameOf(trips: seq<Trip>, c: string)
    ensures c in Map(Filter(trips, IsSchengenTrip), LocationOf) <==> exists t :: t in trips && t.isSchengen && t.location == c
  {
    var f := Filter(trips, IsSchengenTrip);
    var names := Map(f, LocationOf);
    if c in names {
      var i :| 0 <= i < |names| && names[i] == c;
      assert f[i] in f && f[i].location == c;
    }
    if exists t :: t in trips && t.isSchengen && t.location == c {
      var t :| t in trips && t.isSchengen && t.location == c;
      assert t in f;
      var i :| 0 <= i < |f| && f[i] == t;
      assert names[i] == c;
    }
  }

  lemma PrefixStep<T>(s: seq<T>, k: nat)
    requires k < |s|
    ensures forall x :: x in s[..k + 1] <==> x in s[..k] || x == s[k]
  {
    assert s[..k + 1] == s[..k] + [s[k]];
  }

  /** `calculateCityLimits`: one entry per distinct Schengen location. */
  method CalculateCityLimits(trips: seq<Trip>) returns (cityDaysMap: map<string, CityLimitStats>)
    ensures forall c :: c in cityDaysMap <==> exists t :: t in trips && t.isSchengen && t.location == c
    ensures forall c :: c in cityDaysMap ==>
      cityDaysMap[c] == CityStats(Samples(SortTrips(trips), SortTrips(trips), City(c)))
  {
    var sortedTrips := SortTrips(trips);
    var schengenCities := SchengenCities(trips);
    cityDaysMap := map[];
    var k := 0;
    while k < |schengenCities|
      invariant 0 <= k <= |schengenCities|
      invariant forall c :: c in cityDaysMap <==> c in schengenCities[..k]
      invariant forall c :: c in cityDaysMap ==> cityDaysMap[c] == CityStats(Samples(sortedTrips, sortedTrips, City(c)))
    {
      var city := schengenCities[k];
      var cityDays := CollectSamples(sortedTrips, City(city));
      cityDaysMap := cityDaysMap[city := CityStats(cityDays)];
      PrefixStep(schengenCities, k);
      k := k + 1;
    }
    assert schengenCities[..k] == schengenCities;
  }

  /** What a city's entry means: its trip-day total, its largest window count (which
      is some sample's and bounds every sample's), and the over-limit flag, which is
      set exactly when that largest count exceeds 90. */
  lemma CityStatsMeaning(trips: seq<Trip>, c: string)
    ensures var days := Samples(SortTrips(trips), SortTrips(trips), City(c));
      var st := CityStats(days);
      && st.totalDays == TotalDays(trips, City(c))
      && (st.hasOverLimit <==> st.maxInAnyWindow > SchengenLimitDays)
      && (forall i :: 0 <= i < |days| ==> days[i].daysInWindow == WindowCount(trips, City(c), days[i].date))
      && (days != [] ==> exists i :: 0 <= i < |days| && WindowCount(trips, City(c), days[i].date) == st.maxInAnyWindow)
  {
    var sorted := SortTrips(trips);
    var days := Samples(sorted, sorted, City(c));
    SamplesCount(sorted, sorted, City(c));
    TotalDaysOrderFree(sorted, trips, City(c));
    forall i | 0 <= i < |days|
      ensures days[i].daysInWindow == WindowCount(trips, City(c), days[i].date)
      ensures days[i].isOverLimit <==> days[i].daysInWindow > SchengenLimitDays
    {
      SampleAt(sorted, sorted, City(c), i);
      WindowCountOrderFree(sorted, trips, City(c), days[i].date);
    }
  }

  /** A city's count never exceeds the all-Schengen count of the same day. */
  lemma {:induction false} CityWithinAll(ts: seq<Trip>, c: string, day: Day)
    ensures WindowCount(ts, City(c), day) <= WindowCount(ts, AllSchengen, day)
    decreases |ts|
  {
    if ts != [] {
      CityWithinAll(ts[..|ts| - 1], c, day);
    }
  }

  // ------------------------------------------------------------ UK tax years

  predicate IsUkTrip(t: Trip) { t.location == "UK" }

  /** The loop body for one UK trip and one tax year. */
  function TaxYearOverlap(t: Trip, y: TaxYear): nat {
    if t.endDate >= y.start && t.startDate <= y.end then
      match GetDateRangeOverlap(t.startDate, t.endDate, y.start, y.end)
      case Some(o) => CalculateDays(o.start, o.end)
      case None => 0
    else 0
  }

  /** For a well-formed trip, the contribution is the number of its days inside the
      tax year, and 0 when they do not meet. */
  lemma TaxYearOverlapCounts(t: Trip, y: TaxYear)
    requires t.startDate <= t.endDate && y.start <= y.end
    ensures TaxYearOverlap(t, y) == CountDays(t.startDate, t.endDate + 1, y.start, y.end)
    ensures TaxYearOverlap(t, y) == Max(0, Min(t.endDate, y.end) - Max(t.startDate, y.start) + 1)
  {
    CountDaysClosedForm(t.startDate, t.endDate + 1, y.start, y.end);
  }

  function OverlapTerm(y: TaxYear): Trip -> nat {
    t => TaxYearOverlap(t, y)
  }

  function UkTerm(y: TaxYear): Trip -> nat {
    t => if IsUkTrip(t) then TaxYearOverlap(t, y) else 0
  }

  /** `daysInUk`: the overlap days of the trips located exactly at `'UK'`. */
  function UkDays(trips: seq<Trip>, y: TaxYear): nat {
    SumBy(trips, UkTerm(y))
  }

  /** The record stored for one tax year. */
  function YearStats(daysInUk: nat): (r: UkTaxYearStats)
    ensures r.daysInUk == daysInUk
    ensures r.meetsRequirement <==> daysInUk >= UkTaxResidencyDays
    ensures r.daysNeeded == 0 <==> r.meetsRequirement
    ensures !r.meetsRequirement ==> daysInUk + r.daysNeeded == UkTaxResidencyDays
  {
    UkTaxYearStats(daysInUk, daysInUk >= UkTaxResidencyDays, Max(0, UkTaxResidencyDays - daysInUk))
  }

  /** The loop over the UK trips for one tax year: `daysInUk`. */
  method DaysInUk(trips: seq<Trip>, taxYear: TaxYear) returns (daysInUk: nat)
    ensures daysInUk == UkDays(trips, taxYear)
  {
    daysInUk := 0;
    var ukTrips := Filter(trips, IsUkTrip);
    var i := 0;
    while i < |ukTrips|
      invariant 0 <= i <= |ukTrips|
      invariant daysInUk == SumBy(ukTrips[..i], OverlapTerm(taxYear))
    {
      var trip := ukTrips[i];
      ghost var before := daysInUk;
      if trip.endDate >= taxYear.start && trip.startDate <= taxYear.end {
        var overlap := GetDateRangeOverlap(trip.startDate, trip.endDate, taxYear.start, taxYear.end);
        if overlap.Some? {
          daysInUk := daysInUk + CalculateDays(overlap.value.start, overlap.value.end);
        }
      }
      assert daysInUk == before + TaxYearOverlap(trip, taxYear);
      assert ukTrips[..i + 1][..i] == ukTrips[..i];
      assert SumBy(ukTrips[..i + 1], OverlapTerm(taxYear)) == before + OverlapTerm(taxYear)(trip);
      i := i + 1;
    }
    assert ukTrips[..i] == ukTrips;
    SumByFilter(trips, IsUkTrip, OverlapTerm(taxYear), UkTerm(taxYear));
  }

  /** `calculateUkTaxYearStats`: one entry per tax year. */
  method CalculateUkTaxYearStats(trips: seq<Trip>) returns (ukStats: map<string, UkTaxYearStats>)
    ensures forall name :: name in ukStats <==> exists k :: 0 <= k < |TaxYears| && TaxYears[k].name == name
    ensures forall k :: 0 <= k < |TaxYears| ==> ukStats[TaxYears[k].name] == YearStats(UkDays(trips, TaxYears[k]))
  {
    ukStats := map[];
    var k := 0;
    while k < |TaxYears|
      invariant 0 <= k <= |TaxYears|
      invariant forall name :: name in ukStats <==> exists j :: 0 <= j < k && TaxYears[j].name == name
      invariant forall j :: 0 <= j < k ==> TaxYears[j].name in ukStats && ukStats[TaxYears[j].name] == YearStats(UkDays(trips, TaxYears[j]))
    {
      var taxYear := TaxYears[k];
      var daysInUk := DaysInUk(trips, taxYear);
      ukStats := ukStats[taxYear.name := YearStats(daysInUk)];
      k := k + 1;
    }
  }

  /** A UK stay for the whole of 2025 gives 95 days in 2024-2025 and 270 in
      2025-2026 (6 April to 31 December), both enough, and none in 2026-2027. */
  lemma UkYearExample()
    ensures var t := Trip(0, "UK", false, 20089, 20453, "bg-red-500");
      UkDays([t], TaxYears[0]) == 95 && UkDays([t], TaxYears[1]) == 270 && UkDays([t], TaxYears[2]) == 0
      && YearStats(UkDays([t], TaxYears[1])).meetsRequirement
  {
    var t := Trip(0, "UK", false, 20089, 20453, "bg-red-500");
    assert [t][..0] == [];
  }

  /** On the default trips the UK counts are 95, 184 and 0 days: the first two
      tax years meet the 90-day threshold, the last needs all 90. */
  lemma DefaultTripsUkDays()
    ensures UkDays(DefaultTrips, TaxYears[0]) == 95
    ensures UkDays(DefaultTrips, TaxYears[1]) == 184
    ensures UkDays(DefaultTrips, TaxYears[2]) == 0
    ensures YearStats(0).daysNeeded == UkTaxResidencyDays
  {
    UkDaysOfDefaultTrips(TaxYears[0]);
    UkDaysOfDefaultTrips(TaxYears[1]);
    UkDaysOfDefaultTrips(TaxYears[2]);
  }

  /** Only default trips 0, 5 and 8 are in the UK. */
  lemma OnlyThreeUkTrips()
    ensures forall i :: 0 <= i < |DefaultTrips| && IsUkTrip(DefaultTrips[i]) ==> i == 0 || i == 5 || i == 8
  {
  }

  /** The UK days of the default trips in any tax year are those of trips 0, 5 and 8. */
  lemma UkDaysOfDefaultTrips(y: TaxYear)
    ensures UkDays(DefaultTrips, y) == UkTerm(y)(DefaultTrips[0]) + UkTerm(y)(DefaultTrips[5]) + UkTerm(y)(DefaultTrips[8])
  {
    var ts := DefaultTrips;
    var f := UkTerm(y);
    OnlyThreeUkTrips();
    var n := 12;
    assert ts[..n] == ts;
    while n > 0
      invariant 0 <= n <= 12
      invariant SumBy(ts, f) == SumBy(ts[..n], f)
        + (if n <= 8 then f(ts[8]) else 0) + (if n <= 5 then f(ts[5]) else 0) + (if n <= 0 then f(ts[0]) else 0)
      decreases n
    {
      assert ts[..n][..n - 1] == ts[..n - 1];
      if n - 1 != 0 && n - 1 != 5 && n - 1 != 8 {
        assert f(ts[n - 1]) == 0;
      }
      n := n - 1;
    }
  }
}

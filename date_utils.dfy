/** The date helpers of src/utils/dateUtils.ts on day numbers. `formatDateString`
    (a date back to `'YYYY-MM-DD'`) is the identity on day numbers. */
module DateUtils {

  import opened Options
  import opened Lists
  import opened Sorting
  import opened Constants

  /** `calculateDays`: the number of days from one date to the other, both included. */
  function CalculateDays(startDate: Day, endDate: Day): (n: nat)
    ensures n >= 1
    ensures startDate <= endDate ==> startDate + (n - 1) == endDate
    ensures endDate <= startDate ==> endDate + (n - 1) == startDate
  {
    (if endDate >= startDate then endDate - startDate else startDate - endDate) + 1
  }

  /** The days `lo..hi` counted one by one (zero when the range is empty). */
  function DaysFromTo(lo: Day, hi: Day): nat
    decreases hi - lo
  {
    if hi < lo then 0 else DaysFromTo(lo, hi - 1) + 1
  }

  lemma CalculateDaysSameDay(d: Day)
    ensures CalculateDays(d, d) == 1
  {
  }

  lemma CalculateDaysSymmetric(a: Day, b: Day)
    ensures CalculateDays(a, b) == CalculateDays(b, a)
  {
  }

  /** `calculateDays` is the number of days in the range between its arguments. */
  lemma {:induction false} CalculateDaysCounts(a: Day, b: Day)
    requires a <= b
    ensures CalculateDays(a, b) == DaysFromTo(a, b)
    decreases b - a
  {
    if a < b {
      CalculateDaysCounts(a, b - 1);
    }
  }

  /** The sort key of `sortTrips`. */
  function StartKey(t: Trip): int {
    t.startDate
  }

  /** `sortTrips`: a sorted copy, the argument itself is a value and is unchanged. */
  function SortTrips(trips: seq<Trip>): (r: seq<Trip>)
    ensures multiset(r) == multiset(trips)
    ensures forall i, j :: 0 <= i < j < |r| ==> r[i].startDate <= r[j].startDate
  {
    SortByKey(trips, StartKey)
  }

  /** Trips that start on the same day stay in their input order (the sort is stable). */
  lemma SortTripsStable(trips: seq<Trip>, day: Day)
    ensures WithKey(SortTrips(trips), StartKey, day) == WithKey(trips, StartKey, day)
  {
    SortByKeyStable(trips, StartKey, day);
  }

  /** `d` lies in the inclusive range `lo..hi`. */
  predicate InRange(d: Day, lo: Day, hi: Day) {
    lo <= d <= hi
  }

  /** `dateRangesOverlap`. */
  predicate DateRangesOverlap(start1: Day, end1: Day, start2: Day, end2: Day) {
    start1 <= end2 && start2 <= end1
  }

  lemma DateRangesOverlapSymmetric(start1: Day, end1: Day, start2: Day, end2: Day)
    ensures DateRangesOverlap(start1, end1, start2, end2) == DateRangesOverlap(start2, end2, start1, end1)
  {
  }

  /** Two well-formed ranges overlap exactly when they share a day. */
  lemma DateRangesOverlapIffCommonDay(start1: Day, end1: Day, start2: Day, end2: Day)
    requires start1 <= end1 && start2 <= end2
    ensures DateRangesOverlap(start1, end1, start2, end2)
      <==> exists d :: InRange(d, start1, end1) && InRange(d, start2, end2)
  {
    if DateRangesOverlap(start1, end1, start2, end2) {
      var d := if start1 > start2 then start1 else start2;
      assert InRange(d, start1, end1) && InRange(d, start2, end2);
    }
  }

  /** An inclusive range of days. */
  datatype DateRange = DateRange(start: Day, end: Day)

  /** `getDateRangeOverlap`: the common part of two ranges, or nothing (`null`). */
  function GetDateRangeOverlap(start1: Day, end1: Day, start2: Day, end2: Day): (r: Option<DateRange>)
    ensures r.None? <==> !DateRangesOverlap(start1, end1, start2, end2)
    ensures r.Some? ==> (r.value.start == (if start1 > start2 then start1 else start2)
                         && r.value.end == (if end1 < end2 then end1 else end2))
    ensures r.Some? ==> (start1 <= r.value.start && start2 <= r.value.start
                         && r.value.end <= end1 && r.value.end <= end2)
    ensures r.Some? ==> forall d :: (InRange(d, r.value.start, r.value.end)
                         <==> InRange(d, start1, end1) && InRange(d, start2, end2))
  {
    if !DateRangesOverlap(start1, end1, start2, end2) then None
    else
      Some(DateRange(if start1 > start2 then start1 else start2, if end1 < end2 then end1 else end2))
  }
}

/** The planner's fixed data (src/utils/constants.ts): the trip and location
    records, the three UK tax years, the Schengen limits and the default trips.

    A calendar date is a day number, the count of days since 1970-01-01; the
    `'YYYY-MM-DD'` strings of the source are dates parsed as UTC midnight, so
    one day is one unit. */
module Constants {

  type Day = int

  /** A stay at one location from `startDate` to `endDate`, both days included. */
  datatype Trip = Trip(id: int, location: string, isSchengen: bool, startDate: Day, endDate: Day, color: string)

  /** An entry of the location registry. */
  datatype Location = Location(name: string, isSchengen: bool, color: string)

  /** A UK tax year, 6 April to 5 April, both days included. */
  datatype TaxYear = TaxYear(name: string, start: Day, end: Day)

  /** Days before the first of each month in a common year. */
  const MonthStart: seq<int> := [0, 31, 59, 90, 120, 151, 181, 212, 243, 273, 304, 334]

  /** The number of Gregorian leap years from year 1 to year `y - 1`. */
  function LeapYearsBefore(y: int): int {
    (y - 1) / 4 - (y - 1) / 100 + (y - 1) / 400
  }

  predicate IsLeapYear(y: int) {
    y % 4 == 0 && (y % 100 != 0 || y % 400 == 0)
  }

  /** The day number of a Gregorian date from year 1 on. */
  function CivilDay(year: int, month: int, day: int): Day
    requires 1 <= year && 1 <= month <= 12 && 1 <= day <= 31
  {
    365 * (year - 1970) + LeapYearsBefore(year) - LeapYearsBefore(1970) + MonthStart[month - 1]
      + (if month > 2 && IsLeapYear(year) then 1 else 0) + day - 1
  }

  /** The epoch, and two month ends across which consecutive dates are consecutive days. */
  lemma CivilDayValues()
    ensures CivilDay(1970, 1, 1) == 0
    ensures CivilDay(2025, 2, 28) + 1 == CivilDay(2025, 3, 1)
    ensures CivilDay(2024, 2, 29) + 1 == CivilDay(2024, 3, 1)
  {
  }

  const SchengenLimitDays := 90
  const SchengenWindowDays := 180
  const UkTaxResidencyDays := 90

  const TaxYears: seq<TaxYear> := [
    TaxYear("2024-2025", 19819, 20183),
    TaxYear("2025-2026", 20184, 20548),
    TaxYear("2026-2027", 20549, 20913)
  ]

  /** The tax years run from 6 April to 5 April. */
  lemma TaxYearDates()
    ensures TaxYears[0].start == CivilDay(2024, 4, 6) && TaxYears[0].end == CivilDay(2025, 4, 5)
    ensures TaxYears[1].start == CivilDay(2025, 4, 6) && TaxYears[1].end == CivilDay(2026, 4, 5)
    ensures TaxYears[2].start == CivilDay(2026, 4, 6) && TaxYears[2].end == CivilDay(2027, 4, 5)
  {
  }

  const DefaultTrips: seq<Trip> := [
    Trip(0, "UK", false, 20089, 20278, "bg-red-500"),
    Trip(1, "Spain", true, 20279, 20331, "bg-blue-500"),
    Trip(2, "Mediterranean Cruise", true, 20332, 20338, "bg-teal-500"),
    Trip(3, "Turkey", false, 20339, 20353, "bg-amber-500"),
    Trip(4, "Spain", true, 20354, 20364, "bg-blue-500"),
    Trip(5, "UK", false, 20365, 20436, "bg-red-500"),
    Trip(6, "Spain", true, 20437, 20447, "bg-blue-500"),
    Trip(7, "US/Singapore", false, 20448, 20467, "bg-purple-500"),
    Trip(8, "UK", false, 20468, 20484, "bg-red-500"),
    Trip(9, "Dubai", false, 20485, 20573, "bg-yellow-500"),
    Trip(10, "Turkey", false, 20574, 20635, "bg-amber-500"),
    Trip(11, "Spain", true, 20636, 20715, "bg-blue-500")
  ]

  /** The day numbers of default trips 0 to 3 are the calendar dates of the source's table. */
  lemma DefaultTripDates0To3()
    ensures DefaultTrips[0].startDate == CivilDay(2025, 1, 1) && DefaultTrips[0].endDate == CivilDay(2025, 7, 9)
    ensures DefaultTrips[1].startDate == CivilDay(2025, 7, 10) && DefaultTrips[1].endDate == CivilDay(2025, 8, 31)
    ensures DefaultTrips[2].startDate == CivilDay(2025, 9, 1) && DefaultTrips[2].endDate == CivilDay(2025, 9, 7)
    ensures DefaultTrips[3].startDate == CivilDay(2025, 9, 8) && DefaultTrips[3].endDate == CivilDay(2025, 9, 22)
  {
  }

  /** The day numbers of default trips 4 to 7 are the calendar dates of the source's table. */
  lemma DefaultTripDates4To7()
    ensures DefaultTrips[4].startDate == CivilDay(2025, 9, 23) && DefaultTrips[4].endDate == CivilDay(2025, 10, 3)
    ensures DefaultTrips[5].startDate == CivilDay(2025, 10, 4) && DefaultTrips[5].endDate == CivilDay(2025, 12, 14)
    ensures DefaultTrips[6].startDate == CivilDay(2025, 12, 15) && DefaultTrips[6].endDate == CivilDay(2025, 12, 25)
    ensures DefaultTrips[7].startDate == CivilDay(2025, 12, 26) && DefaultTrips[7].endDate == CivilDay(2026, 1, 14)
  {
  }

  /** The day numbers of default trips 8 to 11 are the calendar dates of the source's table. */
  lemma DefaultTripDates8To11()
    ensures DefaultTrips[8].startDate == CivilDay(2026, 1, 15) && DefaultTrips[8].endDate == CivilDay(2026, 1, 31)
    ensures DefaultTrips[9].startDate == CivilDay(2026, 2, 1) && DefaultTrips[9].endDate == CivilDay(2026, 4, 30)
    ensures DefaultTrips[10].startDate == CivilDay(2026, 5, 1) && DefaultTrips[10].endDate == CivilDay(2026, 7, 1)
    ensures DefaultTrips[11].startDate == CivilDay(2026, 7, 2) && DefaultTrips[11].endDate == CivilDay(2026, 9, 19)
  {
  }

  const DefaultLocations: seq<Location> := [
    Location("Spain", true, "bg-blue-500"),
    Location("UK", false, "bg-red-500"),
    Location("Turkey", false, "bg-amber-500"),
    Location("Dubai", false, "bg-yellow-500"),
    Location("US/Singapore", false, "bg-purple-500"),
    Location("Mediterranean Cruise", true, "bg-teal-500"),
    Location("Gibraltar", false, "bg-gray-500")
  ]

  /** The default trips have distinct ids, are well formed and are back to back in date order. */
  lemma DefaultTripsOrdered()
    ensures forall i :: 0 <= i < |DefaultTrips| ==> DefaultTrips[i].id == i
    ensures forall i :: 0 <= i < |DefaultTrips| ==> DefaultTrips[i].startDate <= DefaultTrips[i].endDate
    ensures forall i :: 0 < i < |DefaultTrips| ==> DefaultTrips[i - 1].endDate + 1 == DefaultTrips[i].startDate
  {
  }

  /** Each default trip agrees with its location's registry entry. */
  lemma DefaultTripsRegistered()
    ensures forall i :: 0 <= i < |DefaultTrips| ==>
      exists l :: (l in DefaultLocations && l.name == DefaultTrips[i].location
        && l.isSchengen == DefaultTrips[i].isSchengen && l.color == DefaultTrips[i].color)
  {
    var locs := DefaultLocations;
    forall i | 0 <= i < |DefaultTrips|
      ensures exists l :: (l in locs && l.name == DefaultTrips[i].location
        && l.isSchengen == DefaultTrips[i].isSchengen && l.color == DefaultTrips[i].color)
    {
      var k := match i
        case 1 | 4 | 6 | 11 => 0
        case 0 | 5 | 8 => 1
        case 3 | 10 => 2
        case 9 => 3
        case 7 => 4
        case _ => 5;
      assert locs[k] in locs;
    }
  }
}

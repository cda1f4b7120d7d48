# Cruise and trip planner: a Dafny model

This project models the core of a travel-planning web application written in
TypeScript and React. The application has two halves.

- **The trip planner** keeps a list of trips, each with a location, a Schengen flag and
  a start and end date. It accounts days against two rules:
  - the Schengen rule of at most 90 days in any 180-day period (Article 6(1) of
    Regulation (EU) 2016/399), counted in a rolling window that ends on each day of stay;
  - the UK tax-residency threshold of 90 days in each 6 April to 5 April tax year.

  Trips are also added, edited and deleted through a store, and dragged on a timeline.
- **The cruise planner** loads a catalogue of cruise listings from a cache service. A
  comparison page filters it, offers the ship, date and city options, and keeps a list
  of sailings to compare. An admin page fills in defaults and saves the catalogue back.
  A single-file version of the same planner has its own comparison page with a capped
  list.

The model uses these conventions:

- Calendar dates are integer day numbers (days since 1970-01-01).
- The browser's date parser is a parameter `parse: string -> Option<Day>`.
- Every string field that JavaScript treats as falsy is the empty string.
- The network, the clock and the random id suffix are parameters of the operations that use them.

Modules, one per source file or shared concern:

| module | file | models |
|---|---|---|
| `Options`, `Lists`, `Strings`, `Sorting` | options.dfy, lists.dfy, strings.dfy, sorting.dfy | `Option`/`Result`, filter/map, trim/split/lower-case, stable insertion sort and string sort |
| `Constants` | constants.dfy | src/utils/constants.ts: tax years, limits, default trips and locations |
| `DateUtils` | date_utils.dfy | src/utils/dateUtils.ts |
| `Calculations` | calculations.dfy | src/utils/calculations.ts (imperative: loop methods proved against specification functions) |
| `TripStore` | trip_store.dfy | src/hooks/useData.ts (class `Store`) |
| `Interactions` | interactions.dfy | src/hooks/useInteractions.ts (class `TimelineInteractions`) |
| `CruiseTypes` | cruise_types.dfy | the cruise record and the list helpers shared by both comparison pages |
| `CruiseUtils` | cruise_utils.dfy | src/utils/cruiseUtils.ts |
| `CruiseAdmin` | cruise_admin.dfy | src/components/admin/CruiseAdminPage.tsx (class `AdminPage`, in-place normalisation on an array) |
| `Planner` | planner.dfy | the comparison page of CruiseShipPlanner.jsx (class `PlannerPage`) |
| `ComparisonPage` | comparison_page.dfy | src/components/cruise/CruiseComparisonPage.tsx (class `ComparisonPageState`) |

Two consequences of the code as written are proved rather than hidden:

- Overlapping Schengen trips are counted twice (`Calculations.DoubleCounting`).
- The arrival filter of the split comparison page empties the result whenever a valid
  arrival date is set (`ComparisonPage.ArrivalFilterEmpties`). The page calls
  `parseArrivalDate` without a duration, and that call always yields no date.

## Model

| member | source | states |
|---|---|---|
| Constants.TaxYearDates | src/utils/constants.ts:39-43 | the three tax years run from 6 April to 5 April of 2024-25, 2025-26 and 2026-27 as calendar days |
| Constants.DefaultTripDates0To3 | src/utils/constants.ts:1-14 | the default trips 0-3 start and end on the listed calendar dates |
| Constants.DefaultTripDates4To7 | src/utils/constants.ts:1-14 | the default trips 4-7 start and end on the listed calendar dates |
| Constants.DefaultTripDates8To11 | src/utils/constants.ts:1-14 | the default trips 8-11 start and end on the listed calendar dates |
| Constants.DefaultTripsOrdered | src/utils/constants.ts:1-14 | default trip ids are 0..11, each trip is a non-empty range, and every trip starts the day after the previous one ends |
| Constants.DefaultTripsRegistered | src/utils/constants.ts:1-24 | every default trip's location is in the default registry with the same Schengen flag and colour |
| DateUtils.CalculateDays | src/utils/dateUtils.ts:6-11 | the count is at least 1 and spans exactly from the earlier to the later date, both included |
| DateUtils.CalculateDaysSameDay | src/utils/dateUtils.ts:6-11 | a range from a day to itself counts 1 day |
| DateUtils.CalculateDaysSymmetric | src/utils/dateUtils.ts:9 | swapping the two dates gives the same count |
| DateUtils.CalculateDaysCounts | src/utils/dateUtils.ts:6-11 | the count equals the number of days walked from start to end inclusive |
| DateUtils.SortTrips | src/utils/dateUtils.ts:16-18 | the result is a permutation of the input, ordered by start date |
| DateUtils.SortTripsStable | src/utils/dateUtils.ts:16-18 | trips with the same start date keep their input order (a stable sort) |
| DateUtils.DateRangesOverlapSymmetric | src/utils/dateUtils.ts:30-42 | the overlap test is symmetric in the two ranges |
| DateUtils.DateRangesOverlapIffCommonDay | src/utils/dateUtils.ts:30-42 | on proper ranges, the test holds iff some day lies in both |
| DateUtils.GetDateRangeOverlap | src/utils/dateUtils.ts:47-69 | null iff no overlap; otherwise the later start and the earlier end, inside both ranges, holding exactly the common days |
| Calculations.CountDaysClosedForm | src/utils/calculations.ts:31-36 | the day-by-day window count of one trip equals max(0, min(end, day) − max(start, day − 179) + 1) |
| Calculations.CountWindowDays | src/utils/calculations.ts:24-38 | the nested loop's `daysInWindow` equals the window count over all Schengen trips |
| Calculations.CollectSamples | src/utils/calculations.ts:13-48 | the loops push exactly the sample sequence of the specification, trip by trip and day by day |
| Calculations.CalculateSchengenDays | src/utils/calculations.ts:8-54 | `totalDays` equals the number of samples and the total Schengen trip days; each sample counts its window over all trips; `isOverLimit` iff more than 90; each sample lies in a Schengen trip at its location |
| Calculations.TripSamplesAt | src/utils/calculations.ts:18-46 | the k-th sample of a trip is for day start + k |
| Calculations.TripSamplesLength | src/utils/calculations.ts:18 | a trip yields one sample per day from start to end |
| Calculations.SamplesCount | src/utils/calculations.ts:50-53 | the number of samples equals the sum of inclusive Schengen trip lengths |
| Calculations.SampleAt | src/utils/calculations.ts:20-45 | every sample's window count, limit flag and location are as the rule demands |
| Calculations.WindowCountOrderFree | src/utils/calculations.ts:25-38 | the window count does not depend on the order of the trips |
| Calculations.TotalDaysOrderFree | src/utils/calculations.ts:50-53 | the day total does not depend on the order of the trips |
| Calculations.TripWindowDaysClosedForm | src/utils/calculations.ts:31-36 | a trip contributes its overlap with [day − 179, day]; a trip entirely after the day, or ended before the window, contributes nothing |
| Calculations.OutOfScopeIgnored | src/utils/calculations.ts:14-26 | a non-Schengen trip changes neither window counts, totals nor samples |
| Calculations.SamplesConcat | src/utils/calculations.ts:13-48 | the samples of two trip lists are the samples of each, concatenated |
| Calculations.DoubleCounting | src/utils/calculations.ts:25-38 | a 60-day trip listed twice counts 120 days and is over the limit, while counted once it is not |
| Calculations.IsolatedTripSamples | src/utils/calculations.ts:18-43 | for a lone Schengen trip, sample k has `daysInWindow` = min(k + 1, 180) and is over the limit iff k ≥ 90 |
| Calculations.AnyOverLimit | src/utils/calculations.ts:108 | true iff some sample is over the limit |
| Calculations.MaxWindow | src/utils/calculations.ts:109 | the maximum `daysInWindow`, attained by some sample, or 0 with no samples |
| Calculations.SchengenCities | src/utils/calculations.ts:64-66 | duplicate-free, exactly the locations of Schengen trips |
| Calculations.CalculateCityLimits | src/utils/calculations.ts:59-119 | one entry per distinct Schengen location, each the statistics of that city's samples |
| Calculations.CityStatsMeaning | src/utils/calculations.ts:97-115 | per city: `totalDays` is the city's trip days; `hasOverLimit` iff `maxInAnyWindow` > 90; each window counts only that city's trips; the maximum is attained |
| Calculations.CityWithinAll | src/utils/calculations.ts:84-95 | a city's window count never exceeds the all-Schengen count |
| Calculations.TaxYearOverlapCounts | src/utils/calculations.ts:140-151 | one UK trip adds its inclusive overlap with the tax year, 0 without overlap |
| Calculations.YearStats | src/utils/calculations.ts:155-159 | `meetsRequirement` iff at least 90 days; `daysNeeded` = max(0, 90 − days), 0 iff met |
| Calculations.DaysInUk | src/utils/calculations.ts:128-153 | the loop's `daysInUk` equals the sum of overlaps of the trips located exactly at 'UK' |
| Calculations.CalculateUkTaxYearStats | src/utils/calculations.ts:124-163 | one entry per tax year, each the statistics of that year's UK days |
| Calculations.UkYearExample | src/utils/calculations.ts:124-163 | a UK stay for all of 2025 counts 95, 270 and 0 days in the three tax years and meets the threshold in 2025-26 |
| Calculations.DefaultTripsUkDays | src/utils/calculations.ts:124-163 | for the default trips the UK days per tax year are 95, 184 and 0; a year with no UK days needs all 90 |
| TripStore.FindLocation | src/hooks/useData.ts:51 | the first registry entry with that name, none iff the name is not registered |
| TripStore.FormColor | src/hooks/useData.ts:37 | the form colour, or grey when it is unset |
| TripStore.NewTrip | src/hooks/useData.ts:33-65 | a registered location gives the registry's flag and colour, whatever the form says; otherwise the form's |
| TripStore.RegisterLocation | src/hooks/useData.ts:35-48 | an unregistered location is appended once with the trip's name, flag and colour; otherwise unchanged |
| TripStore.RegisterLocationKeepsNamesDistinct | src/hooks/useData.ts:35-48 | registration keeps registry names distinct |
| TripStore.DefaultLocationsDistinct | src/utils/constants.ts:16-24 | the default registry names are distinct |
| TripStore.ApplyEdit | src/hooks/useData.ts:73-87 | a location edit copies the registry's flag and colour when registered, else keeps the trip's; other edits set one field |
| TripStore.EditTrips | src/hooks/useData.ts:72-89 | same length; only trips with the id change |
| TripStore.WithoutId | src/hooks/useData.ts:94-97 | exactly the trips with that id are removed, the rest keep their order |
| TripStore.SubsequenceKeepsSorted | src/hooks/useData.ts:94-97 | removing trips from a sorted list leaves it sorted |
| TripStore.DefaultTripsSorted | src/hooks/useData.ts:99-102 | the default trips are sorted by start date |
| TripStore.Store.LoadTrips | src/hooks/useData.ts:13-24 | the cached trips, or the default trips when the cache is empty |
| TripStore.Store.AddTrip | src/hooks/useData.ts:33-69 | the trips become the stable sort by start of the old trips followed by the new one; so one more trip, a permutation adding it, sorted; registry as `RegisterLocation` |
| TripStore.Store.EditTrip | src/hooks/useData.ts:71-92 | the trips become the stable sort by start of `EditTrips` of the old trips; so same length, a permutation of the edited list, sorted; untouched trips remain; registry unchanged |
| TripStore.Store.DeleteTrip | src/hooks/useData.ts:94-97 | trips become `WithoutId` of the old trips; sortedness is kept |
| TripStore.Store.ResetToDefaultTrips | src/hooks/useData.ts:99-102 | trips become the default trips |
| Interactions.FindTrip | src/hooks/useInteractions.ts:51 | the first trip with the id, none iff absent |
| Interactions.DraggedRange | src/hooks/useInteractions.ts:54-99 | move shifts both snapshot dates by the delta; resize-start takes min(snapshot + delta, end) and keeps the end; resize-end takes max(snapshot + delta, start) and keeps the start; a mismatched snapshot gives nothing |
| Interactions.DraggedRangeShape | src/hooks/useInteractions.ts:54-93 | a move keeps the trip length; both resizes keep start ≤ end |
| Interactions.WithDates | src/hooks/useInteractions.ts:106-115 | only trips with the dragged id get the new dates; length is kept |
| Interactions.ResizeApplies | src/hooks/useInteractions.ts:65-93 | a resize from a fresh snapshot of a listed trip always yields a proper range |
| Interactions.TimelineInteractions.DragStart | src/hooks/useInteractions.ts:14-31 | the drag state holds the trip, kind, position and the date snapshot for that kind |
| Interactions.TimelineInteractions.Drag | src/hooks/useInteractions.ts:33-118 | no update without a drag, a timeline, a snapshot, a kind or a non-zero delta, or when the trip is gone; otherwise only the dragged trip gets the range of `DraggedRange` |
| Interactions.TimelineInteractions.DragEnd | src/hooks/useInteractions.ts:120-125 | all four pieces of drag state are cleared |
| Sorting.SortByKey | src/utils/dateUtils.ts:17 | a permutation sorted by key |
| Sorting.SortByKeyStable | src/utils/dateUtils.ts:17 | equal keys keep their input order |
| Sorting.SortStrings | src/utils/cruiseUtils.ts:127 | a permutation in the default string order |
| CruiseTypes.ApiCall | src/hooks/useApi.ts:24-52 | only 404 and 2xx codes reach a page: a 2xx passes through with its data, a 404 has no data, a cancellation is `'aborted'`, every other status throws the body's `error` or `API Error: <statusText> (<status>)`, and a failed fetch throws its error |
| CruiseTypes.Processed | src/components/cruise/CruiseComparisonPage.tsx:49-67 | each cruise, in order, with its parsed departure |
| CruiseTypes.ShipNames | CruiseShipPlanner.jsx:405-408 | sorted, duplicate-free, exactly the non-empty Ship Names |
| CruiseTypes.CruisesToCompare | CruiseShipPlanner.jsx:410-414 | exactly the catalogue cruises whose id is in the comparison list |
| CruiseTypes.CruisesToCompareSubsequence | CruiseShipPlanner.jsx:410-414 | the selection keeps catalogue order |
| CruiseTypes.CruisesToCompareAll | CruiseShipPlanner.jsx:410-414 | listing every id selects the whole catalogue |
| CruiseTypes.RemoveId | CruiseShipPlanner.jsx:418-419 | removes every occurrence of the id and nothing else; keeps a list duplicate-free |
| CruiseTypes.Narrow | CruiseShipPlanner.jsx:363-403 | one pipeline stage equals filtering the processed list by the conjunction of the stages so far |
| CruiseUtils.ParseDepartureDate | src/utils/cruiseUtils.ts:10-49 | null on missing input or an empty trimmed start |
| CruiseUtils.DepartureUsesStartOnly | src/utils/cruiseUtils.ts:14 | only the text before the first " - " matters |
| CruiseUtils.ShortYearExpanded | src/utils/cruiseUtils.ts:18-35 | a start `D MMM 'YY` is parsed as `DD MMM 20YY` whenever that reading is valid |
| CruiseUtils.DepartureFallback | src/utils/cruiseUtils.ts:38-45 | otherwise the whole start is parsed with every `'` replaced by 20 |
| CruiseUtils.Nights | src/utils/cruiseUtils.ts:65-68 | none iff the duration has no digit |
| CruiseUtils.SevenNights | src/utils/cruiseUtils.ts:64-68 | "7 Nights" gives 7 |
| CruiseUtils.NoNightsWithoutDigits | src/utils/cruiseUtils.ts:65-66 | a duration without digits gives none |
| CruiseUtils.ParseArrivalDate | src/utils/cruiseUtils.ts:57-80 | a date iff both inputs are present, the departure parses and the duration has digits; then departure + nights |
| CruiseUtils.ArrivalNeedsDuration | src/utils/cruiseUtils.ts:58 | a missing duration gives no arrival |
| CruiseUtils.CoveredBeforeNext | src/utils/cruiseUtils.ts:85-99 | the days covered by the first n + 1 cruises are those of the first n plus those of cruise n |
| CruiseUtils.AddDays | src/utils/cruiseUtils.ts:91-95 | the set gains exactly the days from departure to arrival |
| CruiseUtils.AddCruiseDays | src/utils/cruiseUtils.ts:86-98 | the set gains a cruise's days: departure through arrival, or the departure alone |
| CruiseUtils.GetAvailableDates | src/utils/cruiseUtils.ts:82-104 | strictly ascending, exactly the days some cruise covers |
| CruiseUtils.SortDays | src/utils/cruiseUtils.ts:101-103 | a duplicate-free set of days in strictly ascending order |
| CruiseUtils.CityOf | src/utils/cruiseUtils.ts:112 | the trimmed text before the first comma, free of commas |
| CruiseUtils.CityOfIdempotent | src/utils/cruiseUtils.ts:112-120 | taking the city of a city changes nothing |
| CruiseUtils.NamedBeforeNext | src/utils/cruiseUtils.ts:109-125 | the cities of the first n + 1 cruises are those of the first n plus those of cruise n |
| CruiseUtils.AddStopCities | src/utils/cruiseUtils.ts:117-124 | the set gains exactly the cities of stops with a port |
| CruiseUtils.GetAvailableCities | src/utils/cruiseUtils.ts:106-128 | sorted, duplicate-free, exactly the cities of departure ports and stop ports |
| CruiseUtils.ValidateCruiseData | src/utils/cruiseUtils.ts:130-150 | ok iff an object with a non-blank Ship Name and a valid JSON itinerary text; each failure has its message: not an object, blank Ship Name, itinerary text that is not JSON, in that order |
| CruiseAdmin.Fetched | src/components/admin/CruiseAdminPage.tsx:21-43 | 404 gives no cruises and no key; 408 gives no cruises and keeps the key; data gives the data and the key; anything else or a throw gives neither |
| CruiseAdmin.TimedOutLoad | src/components/admin/CruiseAdminPage.tsx:21-43 | a 408 from the route (src/app/api/cruises/route.ts:55-63) reaches the page as a thrown error through `ApiCall`: the page is left with no cruises and without the key, and the next successful save is a POST |
| CruiseAdmin.FetchedThroughApiCall | src/components/admin/CruiseAdminPage.tsx:21-43 | through `ApiCall`, the key is kept iff the reply was a 2xx carrying cached data, and the cruises are that data or none |
| CruiseAdmin.FetchedKeyFlag | src/components/admin/CruiseAdminPage.tsx:21-43 | a non-empty catalogue is always loaded with the key present |
| CruiseAdmin.OrDefault | src/components/admin/CruiseAdminPage.tsx:61-70 | a present value is kept, a missing one becomes the default |
| CruiseAdmin.FreshSailingId | src/components/admin/CruiseAdminPage.tsx:79 | a generated id starts with "cruise_" |
| CruiseAdmin.Normalize | src/components/admin/CruiseAdminPage.tsx:61-80 | every required field filled; each present field kept; a blank Departure Port or Departure Date becomes 'TBD', a blank Duration '7 Nights', each blank price 'N/A', blank Special Offers 'None'; Ship Name, notes, map and link kept; a non-list itinerary becomes empty; a missing id becomes the fresh one |
| CruiseAdmin.NormalizeKeepsComplete | src/components/admin/CruiseAdminPage.tsx:61-80 | a complete cruise is left as it is |
| CruiseAdmin.NormalizeIdempotent | src/components/admin/CruiseAdminPage.tsx:61-80 | normalising twice is normalising once |
| CruiseAdmin.NormalizedValidates | src/components/admin/CruiseAdminPage.tsx:61-80 | a normalised cruise with a Ship Name passes `validateCruiseData` |
| CruiseAdmin.ShipNameErrorFirst | src/components/admin/CruiseAdminPage.tsx:83 | the first cruise's error reads "Cruise 1: Ship Name is required" |
| CruiseAdmin.FirstMissingShipName | src/components/admin/CruiseAdminPage.tsx:54-58 | the first cruise with a blank Ship Name, none iff all have one |
| CruiseAdmin.NormalizeUpTo | src/components/admin/CruiseAdminPage.tsx:54-85 | the cruises before index n normalised with their fresh ids, the rest untouched |
| CruiseAdmin.NormalizeUpToStep | src/components/admin/CruiseAdminPage.tsx:54-85 | one more loop pass normalises exactly cruise n |
| CruiseAdmin.PrepareSave | src/components/admin/CruiseAdminPage.tsx:54-85 | an error naming the first blank Ship Name (1-based) iff one exists; otherwise every cruise normalised |
| CruiseAdmin.Save | src/components/admin/CruiseAdminPage.tsx:49-115 | a failed check makes no request and changes nothing; otherwise PUT iff the key is cached, else POST; a non-aborted answer stores the list, sets the key and closes both forms |
| CruiseAdmin.SaveThenSaveAgain | src/components/admin/CruiseAdminPage.tsx:88-109 | after a save every cruise is complete, the next save uses PUT and leaves the list unchanged |
| CruiseAdmin.AddCruise | src/components/admin/CruiseAdminPage.tsx:117-124 | exactly one cruise appended, with the fresh id |
| CruiseAdmin.EditCruise | src/components/admin/CruiseAdminPage.tsx:126-131 | same length; only cruises with the edited id are replaced |
| CruiseAdmin.EditCruiseIdempotent | src/components/admin/CruiseAdminPage.tsx:126-131 | ids are kept and editing twice equals editing once |
| CruiseAdmin.DeleteCruise | src/components/admin/CruiseAdminPage.tsx:138 | exactly the cruises with the id removed, order kept |
| CruiseAdmin.AddThenDelete | src/components/admin/CruiseAdminPage.tsx:117-141 | deleting a freshly added id restores the list |
| CruiseAdmin.FindCruise | src/components/admin/CruiseAdminPage.tsx:134 | the first cruise with the id, none iff absent |
| CruiseAdmin.DeleteQuestion | src/components/admin/CruiseAdminPage.tsx:135 | when the first cruise with the id has a Ship Name, the confirmation names it; when that cruise's name is blank or no cruise has the id, it names "this cruise" |
| CruiseAdmin.AdminPage.FetchCruisesFromApi | src/components/admin/CruiseAdminPage.tsx:21-43 | the page state becomes `Fetched` of the old state |
| CruiseAdmin.AdminPage.NormalizeInPlace | src/components/admin/CruiseAdminPage.tsx:54-85 | the in-place loop stops at the first blank Ship Name, having normalised exactly the cruises before it |
| CruiseAdmin.AdminPage.HandleSaveCruises | src/components/admin/CruiseAdminPage.tsx:49-115 | state, request and error are those of `Save`; the array holds the cruises as mutated in place |
| CruiseAdmin.AdminPage.HandleAdd | src/components/admin/CruiseAdminPage.tsx:117-124 | saves the list with the new cruise appended |
| CruiseAdmin.AdminPage.HandleEdit | src/components/admin/CruiseAdminPage.tsx:126-131 | saves the list with the edited cruise replaced |
| CruiseAdmin.AdminPage.HandleDelete | src/components/admin/CruiseAdminPage.tsx:133-141 | asks the question; unconfirmed changes nothing; confirmed saves the list without the id |
| Planner.PlannerFetched | CruiseShipPlanner.jsx:322-336 | 404, a response without data or a throw give no cruises; otherwise the cached data |
| Planner.PlannerFetchedAgainstAdmin | CruiseShipPlanner.jsx:322-336 | except on a 408 this page loads what the admin page loads; on a 408 it keeps the response's data (a difference `PlannerFetchedThroughApiCall` shows cannot arise) |
| Planner.PlannerFetchedThroughApiCall | CruiseShipPlanner.jsx:217-245 | through this file's `apiCall`, which throws on a 408, the planner loads exactly what the admin page loads |
| Planner.PlannerParseDepartureDate | CruiseShipPlanner.jsx:56-86 | null on an empty start; a valid direct reading of the start with `'` replaced is the result; when that fails, fewer than three tokens give null, and any other date comes from the first three tokens |
| Planner.PlannerShortYear | CruiseShipPlanner.jsx:68-77 | when the direct reading fails, `D MMM 'YY` is read as `DD MMM 20YY` |
| Planner.PlannerAgreesWithShared | CruiseShipPlanner.jsx:56-86 | on a trimmed start of fewer than three tokens it agrees with the shared parser |
| Planner.PlannerFilteredMeaning | CruiseShipPlanner.jsx:363-403 | shown iff: same ship, within budget, departure on the chosen day (unparsed dropped), and a stop port contains the query (non-list itinerary dropped) |
| Planner.PlannerFilteredSubsequence | CruiseShipPlanner.jsx:363-403 | the result is a subsequence of the processed cruises |
| Planner.PlannerNoFilters | CruiseShipPlanner.jsx:363-403 | with no filter set every cruise is shown |
| Planner.ToggleCapped | CruiseShipPlanner.jsx:416-423 | a present id is removed; an absent one is appended only below 4 entries; the list stays within 4 and duplicate-free |
| Planner.ToggleCappedTwice | CruiseShipPlanner.jsx:416-423 | adding then toggling again restores the list |
| Planner.PlannerPage.FetchCruises | CruiseShipPlanner.jsx:322-336 | the catalogue becomes `PlannerFetched`; nothing else changes |
| Planner.PlannerPage.HandleToggleCompare | CruiseShipPlanner.jsx:416-423 | the list becomes `ToggleCapped`, staying within 4 and duplicate-free |
| Planner.PlannerPage.HandleResetFilters | CruiseShipPlanner.jsx:425-430 | ship, budget, date and query are cleared; catalogue and list kept |
| Planner.PlannerPage.HandleBudgetChange | CruiseShipPlanner.jsx:432-437 | the budget takes an empty or in-range value and ignores any other |
| Planner.PlannerPage.FilteredCruises | CruiseShipPlanner.jsx:363-403 | the stage-by-stage result equals `PlannerFiltered` |
| Planner.PlannerPage.ShipOptions | CruiseShipPlanner.jsx:405-408 | sorted, duplicate-free, exactly the non-empty Ship Names of the catalogue |
| Planner.PlannerPage.ToCompare | CruiseShipPlanner.jsx:410-414 | exactly the catalogue cruises whose id is listed |
| ComparisonPage.ComparisonFetched | src/components/cruise/CruiseComparisonPage.tsx:29-43 | 404 or 408, missing data or a throw give no cruises; otherwise the cached data |
| ComparisonPage.SameCatalogueAsAdmin | src/components/cruise/CruiseComparisonPage.tsx:29-43 | the same response loads the same catalogue as on the admin page |
| ComparisonPage.KeepsUnfold | src/components/cruise/CruiseComparisonPage.tsx:70-140 | the pipeline's test is the conjunction of its six stages |
| ComparisonPage.ComparisonFilteredMeaning | src/components/cruise/CruiseComparisonPage.tsx:70-140 | shown iff: same ship, within budget, departing on or after the chosen day (unparsed dropped), no valid arrival filter, departure or stop port containing the city, a stop port containing the query |
| ComparisonPage.ArrivalFilterEmpties | src/components/cruise/CruiseComparisonPage.tsx:97-109 | a valid arrival date leaves nothing to show |
| ComparisonPage.ComparisonFilteredSubsequence | src/components/cruise/CruiseComparisonPage.tsx:70-140 | the result is a subsequence of the processed cruises |
| ComparisonPage.ComparisonNoFilters | src/components/cruise/CruiseComparisonPage.tsx:70-140 | with no filter set every cruise is shown |
| ComparisonPage.ClearedKeepsAll | src/components/cruise/CruiseComparisonPage.tsx:70-140 | cleared filters pass every cruise |
| ComparisonPage.ToggleUncapped | src/components/cruise/CruiseComparisonPage.tsx:186-193 | membership of the id flips, all others unchanged; an absent id is appended with no cap; duplicate-free lists stay so |
| ComparisonPage.ToggleUncappedTwice | src/components/cruise/CruiseComparisonPage.tsx:186-193 | adding then toggling again restores the list |
| ComparisonPage.WithNotes | src/components/cruise/CruiseComparisonPage.tsx:214-226 | same length; only cruises with the id get the new notes, others unchanged |
| ComparisonPage.WithNotesKeepsIds | src/components/cruise/CruiseComparisonPage.tsx:214-226 | notes change no id and no other field |
| ComparisonPage.WithNotesLastWins | src/components/cruise/CruiseComparisonPage.tsx:214-226 | of two saves of notes only the later remains |
| ComparisonPage.WithSameNotes | src/components/cruise/CruiseComparisonPage.tsx:214-226 | writing notes that every cruise with the id already has changes nothing |
| ComparisonPage.ComparisonPageState.FetchCruises | src/components/cruise/CruiseComparisonPage.tsx:29-43 | the catalogue becomes `ComparisonFetched`; nothing else changes |
| ComparisonPage.ComparisonPageState.HandleToggleCompare | src/components/cruise/CruiseComparisonPage.tsx:186-193 | the list becomes `ToggleUncapped`, staying duplicate-free |
| ComparisonPage.ComparisonPageState.HandleResetFilters | src/components/cruise/CruiseComparisonPage.tsx:195-203 | all seven filter fields cleared; catalogue and list kept |
| ComparisonPage.ComparisonPageState.HandleBudgetChange | src/components/cruise/CruiseComparisonPage.tsx:205-210 | the budget takes an empty or in-range value and ignores any other |
| ComparisonPage.ComparisonPageState.HandleNotesChange | src/components/cruise/CruiseComparisonPage.tsx:212-235 | the catalogue becomes `WithNotes` and that same list is what is sent |
| ComparisonPage.ComparisonPageState.FilteredCruises | src/components/cruise/CruiseComparisonPage.tsx:70-140 | the stage-by-stage result equals `ComparisonFiltered` |
| ComparisonPage.ComparisonPageState.AvailableDates | src/components/cruise/CruiseComparisonPage.tsx:147-149 | strictly ascending, exactly the days the catalogue covers |
| ComparisonPage.ComparisonPageState.AvailableCities | src/components/cruise/CruiseComparisonPage.tsx:151-153 | sorted, duplicate-free, exactly the catalogue's cities |
| ComparisonPage.ComparisonPageState.ShipOptions | src/components/cruise/CruiseComparisonPage.tsx:142-145 | sorted, duplicate-free, exactly the non-empty Ship Names |
| ComparisonPage.ComparisonPageState.ToCompare | src/components/cruise/CruiseComparisonPage.tsx:155-158 | exactly the catalogue cruises whose id is listed |

## Left out

- HTTP and cache plumbing (`useCache`, the API route, abort controllers, timeouts, `isLoading` and the hook's `error` state): these are I/O. What `fetch` resolves to enters as an `HttpReply`, which `ApiCall` turns into the `ApiResponse` the pages see; the lemmas about the pages take either. A request appears only as its method and body.
- `ApiCall`: the network-error text that the hook stores for a failed fetch is not modelled; the error it rethrows is the original one, and that is what the model carries. A reply body that is not JSON is not modelled either.
- Rendering, forms, modals, `window.confirm` and `alert`: these are presentation. The answer to a confirmation is a `bool` parameter.
- `parsePrice`, `lowestPrice`, the budget test and `parseFloat`: these are floating point. The budget text becomes an abstract price test, `budget: string -> Option<ProcessedCruise -> bool>`, and the budget box's range check becomes `inRange`.
- ComparisonPage.ComparisonPageState.ToCompare: does not model the page's ordering by departure and then by lowest price. That ordering compares floating-point prices, including `Infinity`.
- JavaScript `Date` parsing, `toISOString` and time zones: a date string becomes a day through the `parse` parameter. `setUTCHours` normalisation and local-time or DST shifts of `setDate` are not modelled.
- `sanitizeInput`'s script-stripping regular expression: this is regex-engine behaviour. The query is only trimmed.
- `Date.now()` and `Math.random()` ids: these are clock and randomness. They are the parameters `now`, `random` and `freshId`.
- CruiseAdmin.NormalizeUpTo: one `now` stands for every cruise of a save, whereas the source calls `Date.now()` afresh for each cruise (src/components/admin/CruiseAdminPage.tsx:79). The model cannot express ids of one save that carry different times; they still differ in their index part.
- Calculations.CalculateCityLimits and Calculations.CalculateUkTaxYearStats: the result is a `map`, which has no order. The source's `Record` keeps insertion order, and the statistics panel (src/components/cruise/Statistics.tsx:15,44) lists the entries in that order.
- `JSON.parse` of an itinerary text: this is a foreign parser. It is the parameter `isJson`.
- `toLowerCase` maps only ASCII letters (`LowerChar`): the model has no Unicode case table. `trim` is not restricted this way: `Strings.IsWhitespace` is the full ECMAScript WhiteSpace and LineTerminator set.
- Sorting strings compares characters, not UTF-16 code units: the two orders differ only outside the Basic Multilingual Plane.
- The pointer-to-day conversion of a timeline drag (`getBoundingClientRect`, `Math.round`): this is floating point. The drag arrives as its integer day delta.
- Debouncing and `useMemo` dependency lists: these are React scheduling. Filters take effect at once. The model does not capture that the split comparison page leaves the arrival date and city out of its memo dependencies.
- CruiseAdmin.AdminPage.HandleSaveCruises: the array is mutated in place, but the model does not capture that the page state and the sent list alias the same objects.
- The `toString()` of a non-string Ship Name: every field is a string here.
- A cached catalogue that is not an array (`Array.isArray` guards): the response type only holds lists.
- `parseInt` of an enormous digit run: integers are unbounded here, so there is no loss of precision.
- The 91 in the UK residency label (src/components/cruise/Statistics.tsx:42) is display text. The code, and this model, use 90.
- The admin page, forms and bulk import that CruiseShipPlanner.jsx duplicates (line 600 onwards): the split application's files model the same operations. Its fetch wrapper (lines 206-259) is the same as the hook's and is modelled by `ApiCall`.
- `useCalculations` keeping stale statistics for an empty trip list: this is React effect scheduling.

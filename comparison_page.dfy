/** The comparison page of the split application (CruiseComparisonPage.tsx): the
    catalogue search with six filters, the date and city options, an uncapped
    comparison list, and notes saved back into the catalogue. */
module ComparisonPage {

  import opened Options
  import opened Lists
  import opened Strings
  import opened Constants
  import opened CruiseTypes
  import opened CruiseUtils
  import opened Sorting
  import CruiseAdmin

  /** `fetchCruises`: the cached catalogue, or nothing on 404, 408, a response
      without data, or a thrown error. */
  function ComparisonFetched(response: ApiResponse): (r: seq<Cruise>)
    ensures response.Threw? ==> r == []
    ensures response.Response? && (response.status == Code(404) || response.status == Code(408)) ==> r == []
    ensures (response.Response? && response.status != Code(404) && response.status != Code(408)
             && response.cachedCruises.Some?) ==> r == response.cachedCruises.value
    ensures response.Response? && response.cachedCruises.None? ==> r == []
  {
    match response
    case Threw(_) => []
    case Response(status, cached) =>
      if status == Code(404) || status == Code(408) then []
      else if cached.Some? then cached.value
      else []
  }

  /** Both pages load the same catalogue from the same response. */
  lemma SameCatalogueAsAdmin(st: CruiseAdmin.AdminState, response: ApiResponse)
    ensures ComparisonFetched(response) == CruiseAdmin.Fetched(st, response).cruises
  {
  }

  /** The departure stage of this page: the sailing leaves on or after the chosen day. */
  function DepartureFromStage(departureDate: string, parse: string -> Option<Day>): ProcessedCruise -> bool {
    (c: ProcessedCruise) => departureDate == [] || parse(departureDate).None?
      || (c.departureDay.Some? && c.departureDay.value >= parse(departureDate).value)
  }

  /** The arrival of a cruise as this page computes it: `parseArrivalDate` is
      given the departure alone, so its duration is missing. */
  function PageArrival(c: ProcessedCruise, parse: string -> Option<Day>): Option<Day> {
    ParseArrivalDate(c.cruise.departureDate, [], parse)
  }

  /** A known arrival on or before a known last day. */
  predicate ArrivesBy(arrival: Option<Day>, lastDay: Option<Day>) {
    arrival.Some? && lastDay.Some? && arrival.value <= lastDay.value
  }

  /** The arrival stage: the sailing is back by the end of the chosen day. */
  function ArrivalStage(arrivalDate: string, parse: string -> Option<Day>): ProcessedCruise -> bool {
    (c: ProcessedCruise) => arrivalDate == [] || parse(arrivalDate).None?
      || ArrivesBy(PageArrival(c, parse), parse(arrivalDate))
  }

  /** The city stage: the departure port or a stop's port contains the city,
      whatever the case. */
  function CityStage(selectedCity: string): ProcessedCruise -> bool {
    (c: ProcessedCruise) => selectedCity == [] || VisitsCity(c.cruise, selectedCity)
  }

  predicate VisitsCity(c: Cruise, selectedCity: string) {
    (c.departurePort != [] && Contains(ToLower(c.departurePort), ToLower(selectedCity)))
    || AnyPortContains(c.itinerary, ToLower(selectedCity))
  }

  /** The filter fields of the page. */
  datatype ComparisonFilters = ComparisonFilters(
    selectedShip: string, maxBudget: string, departureDate: string,
    arrivalDate: string, selectedCity: string, itineraryQuery: string)

  /** The filters all cleared. */
  function NoFilters(): ComparisonFilters {
    ComparisonFilters([], [], [], [], [], [])
  }

  /** What a cruise must satisfy to be shown: every stage at once, in the page's order. */
  function ComparisonKeeps(f: ComparisonFilters, parse: string -> Option<Day>,
                           budget: string -> Option<ProcessedCruise -> bool>): ProcessedCruise -> bool {
    And(And(And(And(And(ShipStage(f.selectedShip), BudgetStage(f.maxBudget, budget)),
      DepartureFromStage(f.departureDate, parse)), ArrivalStage(f.arrivalDate, parse)),
      CityStage(f.selectedCity)), QueryStage(f.itineraryQuery))
  }

  /** The result `filteredCruises` computes, as one filter of the processed catalogue. */
  function ComparisonFiltered(all: seq<Cruise>, f: ComparisonFilters, parse: string -> Option<Day>,
                              budget: string -> Option<ProcessedCruise -> bool>): seq<ProcessedCruise> {
    Filter(Processed(all, DepartureParser(parse)), ComparisonKeeps(f, parse, budget))
  }

  /** The combined test is the conjunction of the six stages. */
  lemma KeepsUnfold(f: ComparisonFilters, parse: string -> Option<Day>,
                    budget: string -> Option<ProcessedCruise -> bool>, c: ProcessedCruise)
    ensures (ComparisonKeeps(f, parse, budget)(c) <==>
      (ShipStage(f.selectedShip)(c) && BudgetStage(f.maxBudget, budget)(c)
       && DepartureFromStage(f.departureDate, parse)(c) && ArrivalStage(f.arrivalDate, parse)(c)
       && CityStage(f.selectedCity)(c) && QueryStage(f.itineraryQuery)(c)))
  {
    var dates := And(And(ShipStage(f.selectedShip), BudgetStage(f.maxBudget, budget)), DepartureFromStage(f.departureDate, parse));
    assert dates(c) <==> (ShipStage(f.selectedShip)(c) && BudgetStage(f.maxBudget, budget)(c)
                           && DepartureFromStage(f.departureDate, parse)(c));
  }

  /** A cruise is shown exactly when it is in the catalogue and passes each filter
      that is set; a valid arrival filter passes none. */
  lemma ComparisonFilteredMeaning(all: seq<Cruise>, f: ComparisonFilters, parse: string -> Option<Day>,
                                  budget: string -> Option<ProcessedCruise -> bool>, c: ProcessedCruise)
    ensures c in ComparisonFiltered(all, f, parse, budget) <==>
      (c in Processed(all, DepartureParser(parse))
       && (f.selectedShip == [] || c.cruise.shipName == f.selectedShip)
       && (f.maxBudget == [] || budget(f.maxBudget).None? || budget(f.maxBudget).value(c))
       && (f.departureDate == [] || parse(f.departureDate).None?
           || (c.departureDay.Some? && c.departureDay.value >= parse(f.departureDate).value))
       && (f.arrivalDate == [] || parse(f.arrivalDate).None?)
       && (f.selectedCity == [] || VisitsCity(c.cruise, f.selectedCity))
       && (QueryNeedle(f.itineraryQuery) == [] || AnyPortContains(c.cruise.itinerary, QueryNeedle(f.itineraryQuery))))
  {
    KeepsUnfold(f, parse, budget, c);
    ArrivalNeedsDuration(c.cruise.departureDate, parse);
  }

  /** Because the arrival is computed without a duration, a valid arrival filter
      leaves nothing to show. */
  lemma ArrivalFilterEmpties(all: seq<Cruise>, f: ComparisonFilters, parse: string -> Option<Day>,
                             budget: string -> Option<ProcessedCruise -> bool>)
    requires f.arrivalDate != [] && parse(f.arrivalDate).Some?
    ensures ComparisonFiltered(all, f, parse, budget) == []
  {
    var r := ComparisonFiltered(all, f, parse, budget);
    if r != [] {
      KeepsUnfold(f, parse, budget, r[0]);
      ArrivalNeedsDuration(r[0].cruise.departureDate, parse);
    }
  }

  /** Each stage only removes cruises: the result keeps catalogue order. */
  lemma ComparisonFilteredSubsequence(all: seq<Cruise>, f: ComparisonFilters, parse: string -> Option<Day>,
                                      budget: string -> Option<ProcessedCruise -> bool>)
    ensures IsSubsequence(ComparisonFiltered(all, f, parse, budget), Processed(all, DepartureParser(parse)))
  {
    FilterIsSubsequence(Processed(all, DepartureParser(parse)), ComparisonKeeps(f, parse, budget));
  }

  /** With no filter set the whole catalogue is shown. */
  lemma ComparisonNoFilters(all: seq<Cruise>, parse: string -> Option<Day>,
                            budget: string -> Option<ProcessedCruise -> bool>)
    ensures ComparisonFiltered(all, NoFilters(), parse, budget) == Processed(all, DepartureParser(parse))
  {
    ClearedKeepsAll(parse, budget);
    FilterKeepsAll(Processed(all, DepartureParser(parse)), ComparisonKeeps(NoFilters(), parse, budget));
  }

  lemma ClearedKeepsAll(parse: string -> Option<Day>, budget: string -> Option<ProcessedCruise -> bool>)
    ensures forall c :: ComparisonKeeps(NoFilters(), parse, budget)(c)
  {
    forall c ensures ComparisonKeeps(NoFilters(), parse, budget)(c) {
      assert ShipStage([])(c);
      assert BudgetStage([], budget)(c);
      assert DepartureFromStage([], parse)(c);
      assert ArrivalStage([], parse)(c);
      assert CityStage([])(c);
      assert QueryNeedle([]) == [];
      assert QueryStage([])(c);
    }
  }

  /** `handleToggleCompare` of this page: no cap on the list. */
  function ToggleUncapped(list: seq<string>, id: string): (r: seq<string>)
    ensures forall x :: x in r <==> (if x == id then id !in list else x in list)
    ensures id !in list ==> r == list + [id]
    ensures NoDup(list) ==> NoDup(r)
  {
    if id in list then RemoveId(list, id) else list + [id]
  }

  /** Adding an id and toggling it again restores the list. */
  lemma ToggleUncappedTwice(list: seq<string>, id: string)
    requires id !in list
    ensures ToggleUncapped(ToggleUncapped(list, id), id) == list
  {
    assert id in list + [id];
    FilterSnoc(list, id, IsNot(id));
    FilterKeepsAll(list, IsNot(id));
  }

  /** The catalogue with `User Notes` of the sailing `id` replaced by `notes`. */
  function WithNotes(all: seq<Cruise>, id: string, notes: string): (r: seq<Cruise>)
    ensures |r| == |all|
    ensures forall i :: 0 <= i < |all| && all[i].uniqueId != id ==> r[i] == all[i]
    ensures forall i :: 0 <= i < |all| && all[i].uniqueId == id ==> r[i] == all[i].(userNotes := notes)
  {
    seq(|all|, i requires 0 <= i < |all| => if all[i].uniqueId == id then all[i].(userNotes := notes) else all[i])
  }

  /** Notes never change which sailings are listed, nor their ids. */
  lemma WithNotesKeepsIds(all: seq<Cruise>, id: string, notes: string)
    ensures forall i :: 0 <= i < |all| ==> WithNotes(all, id, notes)[i].uniqueId == all[i].uniqueId
    ensures forall i :: 0 <= i < |all| ==> WithNotes(all, id, notes)[i].(userNotes := []) == all[i].(userNotes := [])
  {
  }

  /** Saving notes twice keeps only the later notes. */
  lemma WithNotesLastWins(all: seq<Cruise>, id: string, first: string, second: string)
    ensures WithNotes(WithNotes(all, id, first), id, second) == WithNotes(all, id, second)
  {
    var a := WithNotes(WithNotes(all, id, first), id, second);
    var b := WithNotes(all, id, second);
    assert |a| == |b|;
    forall i | 0 <= i < |a| ensures a[i] == b[i] {
    }
  }

  /** Saving the notes a sailing already has changes nothing. */
  lemma WithSameNotes(all: seq<Cruise>, id: string, notes: string)
    requires forall i :: 0 <= i < |all| && all[i].uniqueId == id ==> all[i].userNotes == notes
    ensures WithNotes(all, id, notes) == all
  {
    var a := WithNotes(all, id, notes);
    forall i | 0 <= i < |a| ensures a[i] == all[i] {
    }
  }

  /** The page's state. */
  class ComparisonPageState {
    var allCruises: seq<Cruise>
    var comparisonList: seq<string>
    var selectedShip: string
    var maxBudget: string
    var departureDate: string
    var arrivalDate: string
    var selectedCity: string
    var itineraryQuery: string
    var roomTypeFilter: string

    /** The comparison list names each sailing once. */
    predicate Valid()
      reads this
    {
      NoDup(comparisonList)
    }

    function Filters(): ComparisonFilters
      reads this
    {
      ComparisonFilters(selectedShip, maxBudget, departureDate, arrivalDate, selectedCity, itineraryQuery)
    }

    constructor ()
      ensures Valid()
      ensures allCruises == [] && comparisonList == [] && Filters() == NoFilters() && roomTypeFilter == []
    {
      allCruises := [];
      comparisonList := [];
      selectedShip := [];
      maxBudget := [];
      departureDate := [];
      arrivalDate := [];
      selectedCity := [];
      itineraryQuery := [];
      roomTypeFilter := [];
    }

    method FetchCruises(response: ApiResponse)
      requires Valid()
      modifies this
      ensures Valid()
      ensures allCruises == ComparisonFetched(response)
      ensures comparisonList == old(comparisonList) && Filters() == old(Filters())
      ensures roomTypeFilter == old(roomTypeFilter)
    {
      match response {
        case Threw(_) =>
          allCruises := [];
        case Response(status, cached) =>
          if status == Code(404) || status == Code(408) {
            allCruises := [];
          } else if cached.Some? {
            allCruises := cached.value;
          } else {
            allCruises := [];
          }
      }
    }

    method HandleToggleCompare(sailingId: string)
      requires Valid()
      modifies this
      ensures Valid()
      ensures comparisonList == ToggleUncapped(old(comparisonList), sailingId)
      ensures allCruises == old(allCruises) && Filters() == old(Filters())
      ensures roomTypeFilter == old(roomTypeFilter)
    {
      comparisonList := ToggleUncapped(comparisonList, sailingId);
    }

    /** `handleResetFilters`: clears the six filters and the room type. */
    method HandleResetFilters()
      requires Valid()
      modifies this
      ensures Valid()
      ensures Filters() == NoFilters() && roomTypeFilter == []
      ensures allCruises == old(allCruises) && comparisonList == old(comparisonList)
    {
      selectedShip := [];
      maxBudget := [];
      departureDate := [];
      arrivalDate := [];
      selectedCity := [];
      itineraryQuery := [];
      roomTypeFilter := [];
    }

    /** `handleBudgetChange`: the budget box takes a value only when it is empty
        or `inRange` (`parseFloat` of it lies within the allowed budget range). */
    method HandleBudgetChange(value: string, inRange: string -> bool)
      requires Valid()
      modifies this
      ensures Valid()
      ensures value == [] || inRange(value) ==> maxBudget == value
      ensures !(value == [] || inRange(value)) ==> maxBudget == old(maxBudget)
      ensures allCruises == old(allCruises) && comparisonList == old(comparisonList)
      ensures selectedShip == old(selectedShip) && departureDate == old(departureDate)
      ensures arrivalDate == old(arrivalDate) && selectedCity == old(selectedCity)
      ensures itineraryQuery == old(itineraryQuery) && roomTypeFilter == old(roomTypeFilter)
    {
      if value == [] || inRange(value) {
        maxBudget := value;
      }
    }

    /** `handleNotesChange`: the notes go into the page's catalogue, and the same
        updated catalogue is what the page sends with PUT under the cruises key. */
    method HandleNotesChange(sailingId: string, notes: string) returns (saved: seq<Cruise>)
      requires Valid()
      modifies this
      ensures Valid()
      ensures allCruises == WithNotes(old(allCruises), sailingId, notes)
      ensures saved == allCruises
      ensures comparisonList == old(comparisonList) && Filters() == old(Filters())
      ensures roomTypeFilter == old(roomTypeFilter)
    {
      saved := WithNotes(allCruises, sailingId, notes);
      allCruises := saved;
    }

    /** `filteredCruises`: the processed catalogue narrowed stage by stage. */
    method FilteredCruises(parse: string -> Option<Day>, budget: string -> Option<ProcessedCruise -> bool>)
      returns (result: seq<ProcessedCruise>)
      ensures result == ComparisonFiltered(allCruises, Filters(), parse, budget)
    {
      var processed := Processed(allCruises, DepartureParser(parse));
      var ship := ShipStage(selectedShip);
      var price := BudgetStage(maxBudget, budget);
      var departure := DepartureFromStage(departureDate, parse);
      var arrival := ArrivalStage(arrivalDate, parse);
      var city := CityStage(selectedCity);
      var query := QueryStage(itineraryQuery);
      if selectedShip != [] {
        result := Filter(processed, ship);
      } else {
        FilterKeepsAll(processed, ship);
        result := processed;
      }
      assert QueryNeedle([]) == [];
      result := Narrow(processed, result, ship, price, maxBudget != [] && budget(maxBudget).Some?);
      var kept := And(ship, price);
      result := Narrow(processed, result, kept, departure, departureDate != [] && parse(departureDate).Some?);
      kept := And(kept, departure);
      result := Narrow(processed, result, kept, arrival, arrivalDate != [] && parse(arrivalDate).Some?);
      kept := And(kept, arrival);
      result := Narrow(processed, result, kept, city, selectedCity != []);
      kept := And(kept, city);
      result := Narrow(processed, result, kept, query, itineraryQuery != [] && QueryNeedle(itineraryQuery) != []);
    }

    /** `availableDates`: every day some listed sailing is at sea or departs, ascending. */
    method AvailableDates(parse: string -> Option<Day>) returns (r: seq<Day>)
      ensures forall i, j :: 0 <= i < j < |r| ==> r[i] < r[j]
      ensures forall d :: d in r <==> CoveredBefore(allCruises, parse, |allCruises|, d)
    {
      r := GetAvailableDates(allCruises, parse);
    }

    /** `availableCities`: every city the listed sailings leave from or call at, sorted. */
    method AvailableCities() returns (r: seq<string>)
      ensures SortedStrings(r) && NoDup(r)
      ensures forall city :: city in r <==> NamedBefore(allCruises, |allCruises|, city)
    {
      r := GetAvailableCities(allCruises);
    }

    /** `shipNames` of this page. */
    function ShipOptions(): (r: seq<string>)
      reads this
      ensures SortedStrings(r) && NoDup(r)
      ensures forall n :: n in r <==> n != [] && exists i :: 0 <= i < |allCruises| && allCruises[i].shipName == n
    {
      ShipNames(allCruises)
    }

    /** The sailings of `cruisesToCompare`, without the page's ordering. */
    function ToCompare(): (r: seq<Cruise>)
      reads this
      ensures forall c :: c in r <==> c in allCruises && c.uniqueId in comparisonList
    {
      CruisesToCompare(allCruises, comparisonList)
    }
  }
}

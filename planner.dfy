/** The comparison page (`CruiseComparisonPage`) of CruiseShipPlanner.jsx, the
    single-file version of the cruise planner: the catalogue load, the search
    with four filters, the ship list, and a comparison list of at most
    `MAX_COMPARISON_ITEMS` sailings. */
module Planner {

  import opened Options
  import opened Lists
  import opened Strings
  import opened Constants
  import opened CruiseTypes
  import CruiseUtils
  import CruiseAdmin
  import opened Sorting

  /** `MAX_COMPARISON_ITEMS`. */
  const MaxComparisonItems := 4

  /** `fetchCruises` of this page: the cached catalogue unless the status is 404;
      unlike the split application, a 408 is not special. */
  function PlannerFetched(response: ApiResponse): (r: seq<Cruise>)
    ensures response.Threw? ==> r == []
    ensures response.Response? && response.status == Code(404) ==> r == []
    ensures response.Response? && response.status != Code(404) && response.cachedCruises.Some? ==>
      r == response.cachedCruises.value
    ensures response.Response? && response.cachedCruises.None? ==> r == []
  {
    match response
    case Threw(_) => []
    case Response(status, cached) =>
      if status == Code(404) then []
      else if cached.Some? then cached.value
      else []
  }

  /** Apart from a 408, this page loads what the admin page loads; on a 408 it
      keeps whatever data came with the response. */
  lemma PlannerFetchedAgainstAdmin(st: CruiseAdmin.AdminState, response: ApiResponse)
    ensures !(response.Response? && response.status == Code(408)) ==>
      PlannerFetched(response) == CruiseAdmin.Fetched(st, response).cruises
    ensures response.Response? && response.status == Code(408) ==>
      PlannerFetched(response) == response.cachedCruises.GetOr([])
  {
  }

  /** Through this file's `apiCall`, which throws on a 408 as the hook does, the
      planner loads exactly what the admin page loads: the 408 difference of
      `PlannerFetchedAgainstAdmin` cannot arise. */
  lemma PlannerFetchedThroughApiCall(st: CruiseAdmin.AdminState, reply: HttpReply)
    ensures PlannerFetched(ApiCall(reply)) == CruiseAdmin.Fetched(st, ApiCall(reply)).cruises
  {
  }

  /** This file's own `parseDepartureDate`: the untrimmed text before the first
      `" - "`, read first with every `'` replaced by `20`, and only when that is
      invalid as `DD MMM YYYY` from its first three tokens. */
  function PlannerParseDepartureDate(dateRangeStr: string, parse: string -> Option<Day>): (r: Option<Day>)
    ensures BeforeFirst(dateRangeStr, " - ") == [] ==> r.None?
    ensures r.Some? ==> (r == parse(ReplaceAll(BeforeFirst(dateRangeStr, " - "), '\'', "20"))
      || |Split(BeforeFirst(dateRangeStr, " - "), ' ')| >= 3)
    ensures var start := BeforeFirst(dateRangeStr, " - ");
      start != [] && parse(ReplaceAll(start, '\'', "20")).Some? ==> r == parse(ReplaceAll(start, '\'', "20"))
    ensures var start := BeforeFirst(dateRangeStr, " - ");
      parse(ReplaceAll(start, '\'', "20")).None? && |Split(start, ' ')| < 3 ==> r.None?
  {
    if dateRangeStr == [] then None
    else
      var start := BeforeFirst(dateRangeStr, " - ");
      if start == [] then None
      else
        var date := parse(ReplaceAll(start, '\'', "20"));
        if date.None? then
          var parts := Split(start, ' ');
          if |parts| >= 3 then
            parse(PadStart(parts[0], 2, '0') + " " + parts[1] + " " + ReplaceAll(parts[2], '\'', "20"))
          else None
        else date
  }

  /** When the direct reading fails, a start `D MMM 'YY` is read as `DD MMM 20YY`. */
  lemma PlannerShortYear(dateRangeStr: string, parse: string -> Option<Day>, d: string, m: string, yy: string)
    requires Split(BeforeFirst(dateRangeStr, " - "), ' ') == [d, m, "'" + yy]
    requires '\'' !in yy
    requires parse(ReplaceAll(BeforeFirst(dateRangeStr, " - "), '\'', "20")).None?
    ensures PlannerParseDepartureDate(dateRangeStr, parse) == parse(PadStart(d, 2, '0') + " " + m + " 20" + yy)
  {
    var start := BeforeFirst(dateRangeStr, " - ");
    assert |Split([], ' ')| == 1;
    assert start != [] && dateRangeStr != [];
    ShortYearText(PadStart(d, 2, '0') + " " + m, yy);
  }

  lemma ShortYearText(prefix: string, yy: string)
    requires '\'' !in yy
    ensures prefix + " " + ReplaceAll("'" + yy, '\'', "20") == prefix + " 20" + yy
  {
    LeadingQuoteExpanded(yy);
    CruiseUtils.YearSuffix(prefix, yy);
  }

  lemma LeadingQuoteExpanded(yy: string)
    requires '\'' !in yy
    ensures ReplaceAll("'" + yy, '\'', "20") == "20" + yy
  {
    var year := "'" + yy;
    assert year[0] == '\'' && year[1..] == yy;
  }

  /** On a trimmed start of fewer than three tokens this parser and the shared
      `parseDepartureDate` agree: both read the start with `'` replaced by `20`. */
  lemma PlannerAgreesWithShared(dateRangeStr: string, parse: string -> Option<Day>)
    requires Trim(BeforeFirst(dateRangeStr, " - ")) == BeforeFirst(dateRangeStr, " - ")
    requires |Split(BeforeFirst(dateRangeStr, " - "), ' ')| < 3
    ensures PlannerParseDepartureDate(dateRangeStr, parse) == CruiseUtils.ParseDepartureDate(dateRangeStr, parse)
  {
    var start := BeforeFirst(dateRangeStr, " - ");
    assert CruiseUtils.DepartureText(dateRangeStr) == start;
    if dateRangeStr != [] && start != [] {
      var both := parse(ReplaceAll(start, '\'', "20"));
      assert PlannerParseDepartureDate(dateRangeStr, parse) == both;
      assert CruiseUtils.ParseDepartureDate(dateRangeStr, parse) == both;
    }
  }

  /** The departures `processedCruises` attaches on this page. */
  function PlannerDepartures(parse: string -> Option<Day>): string -> Option<Day> {
    s => PlannerParseDepartureDate(s, parse)
  }

  /** The departure stage: the departure must be the chosen day; a cruise whose
      departure does not parse is dropped. */
  function DepartureOnStage(departureDate: string, parse: string -> Option<Day>): ProcessedCruise -> bool {
    (c: ProcessedCruise) => departureDate == [] || parse(departureDate).None?
      || (c.departureDay.Some? && c.departureDay.value == parse(departureDate).value)
  }

  /** The filter fields of the page. */
  datatype PlannerFilters = PlannerFilters(selectedShip: string, maxBudget: string, departureDate: string, itineraryQuery: string)

  /** What a cruise must satisfy to be shown: every stage at once. */
  function PlannerKeeps(f: PlannerFilters, parse: string -> Option<Day>, budget: string -> Option<ProcessedCruise -> bool>): ProcessedCruise -> bool {
    And(And(And(ShipStage(f.selectedShip), BudgetStage(f.maxBudget, budget)), DepartureOnStage(f.departureDate, parse)),
        QueryStage(f.itineraryQuery))
  }

  /** The result `filteredCruises` computes, as one filter of the processed catalogue. */
  function PlannerFiltered(all: seq<Cruise>, f: PlannerFilters, parse: string -> Option<Day>,
                           budget: string -> Option<ProcessedCruise -> bool>): seq<ProcessedCruise> {
    Filter(Processed(all, PlannerDepartures(parse)), PlannerKeeps(f, parse, budget))
  }

  /** A cruise is shown exactly when it is in the catalogue and passes each filter
      that is set: the same Ship Name, a price within the budget, the chosen
      departure day, and a stop whose port contains the query. */
  lemma PlannerFilteredMeaning(all: seq<Cruise>, f: PlannerFilters, parse: string -> Option<Day>,
                               budget: string -> Option<ProcessedCruise -> bool>, c: ProcessedCruise)
    ensures c in PlannerFiltered(all, f, parse, budget) <==>
      (c in Processed(all, PlannerDepartures(parse))
       && (f.selectedShip == [] || c.cruise.shipName == f.selectedShip)
       && (f.maxBudget == [] || budget(f.maxBudget).None? || budget(f.maxBudget).value(c))
       && (f.departureDate == [] || parse(f.departureDate).None?
           || c.departureDay == Some(parse(f.departureDate).value))
       && (QueryNeedle(f.itineraryQuery) == [] || AnyPortContains(c.cruise.itinerary, QueryNeedle(f.itineraryQuery))))
  {
    PlannerKeepsUnfold(f, parse, budget, c);
  }

  /** The pipeline's test is the conjunction of its four stages. */
  lemma PlannerKeepsUnfold(f: PlannerFilters, parse: string -> Option<Day>,
                           budget: string -> Option<ProcessedCruise -> bool>, c: ProcessedCruise)
    ensures (PlannerKeeps(f, parse, budget)(c) <==>
      (ShipStage(f.selectedShip)(c) && BudgetStage(f.maxBudget, budget)(c)
       && DepartureOnStage(f.departureDate, parse)(c) && QueryStage(f.itineraryQuery)(c)))
  {
    var priced := And(ShipStage(f.selectedShip), BudgetStage(f.maxBudget, budget));
    assert priced(c) <==> ShipStage(f.selectedShip)(c) && BudgetStage(f.maxBudget, budget)(c);
  }

  /** Each stage only removes cruises: the result keeps catalogue order. */
  lemma PlannerFilteredSubsequence(all: seq<Cruise>, f: PlannerFilters, parse: string -> Option<Day>,
                                   budget: string -> Option<ProcessedCruise -> bool>)
    ensures IsSubsequence(PlannerFiltered(all, f, parse, budget), Processed(all, PlannerDepartures(parse)))
  {
    FilterIsSubsequence(Processed(all, PlannerDepartures(parse)), PlannerKeeps(f, parse, budget));
  }

  /** With no filter set the whole catalogue is shown. */
  lemma PlannerNoFilters(all: seq<Cruise>, parse: string -> Option<Day>, budget: string -> Option<ProcessedCruise -> bool>)
    ensures PlannerFiltered(all, PlannerFilters([], [], [], []), parse, budget) == Processed(all, PlannerDepartures(parse))
  {
    var p := Processed(all, PlannerDepartures(parse));
    var f := PlannerFilters([], [], [], []);
    forall c ensures PlannerKeeps(f, parse, budget)(c) {
      PlannerKeepsUnfold(f, parse, budget, c);
      assert QueryNeedle([]) == [];
    }
    FilterKeepsAll(p, PlannerKeeps(f, parse, budget));
  }

  /** `handleToggleCompare`: removes a listed id; appends an unlisted one only
      while the list is below the cap. */
  function ToggleCapped(list: seq<string>, id: string): (r: seq<string>)
    ensures id in list ==> id !in r && forall x :: x != id ==> (x in r <==> x in list)
    ensures id !in list && |list| < MaxComparisonItems ==> r == list + [id]
    ensures id !in list && |list| >= MaxComparisonItems ==> r == list
    ensures |list| <= MaxComparisonItems ==> |r| <= MaxComparisonItems
    ensures NoDup(list) ==> NoDup(r)
  {
    if id in list then RemoveId(list, id)
    else if |list| < MaxComparisonItems then list + [id]
    else list
  }

  /** Toggling an id that could be added twice leaves the list as it was. */
  lemma ToggleCappedTwice(list: seq<string>, id: string)
    requires id !in list && |list| < MaxComparisonItems
    ensures ToggleCapped(ToggleCapped(list, id), id) == list
  {
    var added := list + [id];
    assert id in added;
    FilterSnoc(list, id, IsNot(id));
    FilterKeepsAll(list, IsNot(id));
  }

  /** The page's state. */
  class PlannerPage {
    var allCruises: seq<Cruise>
    var comparisonList: seq<string>
    var selectedShip: string
    var maxBudget: string
    var departureDate: string
    var itineraryQuery: string

    /** The comparison list is within the cap and names each sailing once. */
    predicate Valid()
      reads this
    {
      |comparisonList| <= MaxComparisonItems && NoDup(comparisonList)
    }

    function Filters(): PlannerFilters
      reads this
    {
      PlannerFilters(selectedShip, maxBudget, departureDate, itineraryQuery)
    }

    constructor ()
      ensures Valid()
      ensures allCruises == [] && comparisonList == [] && Filters() == PlannerFilters([], [], [], [])
    {
      allCruises := [];
      comparisonList := [];
      selectedShip := [];
      maxBudget := [];
      departureDate := [];
      itineraryQuery := [];
    }

    method FetchCruises(response: ApiResponse)
      requires Valid()
      modifies this
      ensures Valid()
      ensures allCruises == PlannerFetched(response)
      ensures comparisonList == old(comparisonList) && Filters() == old(Filters())
    {
      match response {
        case Threw(_) =>
          allCruises := [];
        case Response(status, cached) =>
          if status == Code(404) {
            allCruises := [];
          } else if cached.Some? {
            allCruises := cached.value;
          } else {
            allCruises := [];
          }
      }
    }

    method HandleToggleCompare(sailingId: string)
      requires Valid()
      modifies this
      ensures Valid()
      ensures comparisonList == ToggleCapped(old(comparisonList), sailingId)
      ensures allCruises == old(allCruises) && Filters() == old(Filters())
    {
      comparisonList := ToggleCapped(comparisonList, sailingId);
    }

    /** `handleResetFilters`: clears the four filters. */
    method HandleResetFilters()
      requires Valid()
      modifies this
      ensures Valid()
      ensures Filters() == PlannerFilters([], [], [], [])
      ensures allCruises == old(allCruises) && comparisonList == old(comparisonList)
    {
      selectedShip := [];
      maxBudget := [];
      departureDate := [];
      itineraryQuery := [];
    }

    /** `handleBudgetChange`: the budget box takes a value only when it is empty
        or `inRange` (`parseFloat` of it lies within the allowed budget range). */
    method HandleBudgetChange(value: string, inRange: string -> bool)
      requires Valid()
      modifies this
      ensures Valid()
      ensures value == [] || inRange(value) ==> maxBudget == value
      ensures !(value == [] || inRange(value)) ==> maxBudget == old(maxBudget)
      ensures allCruises == old(allCruises) && comparisonList == old(comparisonList)
      ensures selectedShip == old(selectedShip) && departureDate == old(departureDate)
      ensures itineraryQuery == old(itineraryQuery)
    {
      if value == [] || inRange(value) {
        maxBudget := value;
      }
    }

    /** `filteredCruises`: the processed catalogue narrowed stage by stage. */
    method FilteredCruises(parse: string -> Option<Day>, budget: string -> Option<ProcessedCruise -> bool>)
      returns (result: seq<ProcessedCruise>)
      ensures result == PlannerFiltered(allCruises, Filters(), parse, budget)
    {
      var processed := Processed(allCruises, PlannerDepartures(parse));
      var ship := ShipStage(selectedShip);
      var price := BudgetStage(maxBudget, budget);
      var departure := DepartureOnStage(departureDate, parse);
      var query := QueryStage(itineraryQuery);
      if selectedShip != [] {
        result := Filter(processed, ship);
      } else {
        FilterKeepsAll(processed, ship);
        result := processed;
      }
      assert QueryNeedle([]) == [];
      result := Narrow(processed, result, ship, price, maxBudget != [] && budget(maxBudget).Some?);
      var kept := And(ship, price);
      result := Narrow(processed, result, kept, departure, departureDate != [] && parse(departureDate).Some?);
      kept := And(kept, departure);
      result := Narrow(processed, result, kept, query, itineraryQuery != [] && QueryNeedle(itineraryQuery) != []);
    }

    /** `shipNames` of this page. */
    function ShipOptions(): (r: seq<string>)
      reads this
      ensures SortedStrings(r) && NoDup(r)
      ensures forall n :: n in r <==> n != [] && exists i :: 0 <= i < |allCruises| && allCruises[i].shipName == n
    {
      ShipNames(allCruises)
    }

    /** `cruisesToCompare` of this page. */
    function ToCompare(): (r: seq<Cruise>)
      reads this
      ensures forall c :: c in r <==> c in allCruises && c.uniqueId in comparisonList
    {
      CruisesToCompare(allCruises, comparisonList)
    }
  }
}

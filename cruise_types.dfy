/** The cruise records (src/types/cruise.ts) and the list helpers that both cruise
    pages define the same way: the processed list, the ship-name options, the
    comparison selection and the port search.

    Every field of a record is a string; a missing field (`undefined`, `null`)
    and the empty string are both falsy in the source and are both the empty
    string here. */
module CruiseTypes {

  import opened Options
  import opened Lists
  import opened Strings
  import opened Sorting
  import opened Constants

  /** One port call of a voyage. */
  datatype Stop = Stop(day: string, date: string, port: string, arrival: string, departure: string)

  /** The 'Complete Itinerary' field: an array of stops, a string (which the
      forms hold as JSON text), or missing. */
  datatype Itinerary = Stops(stops: seq<Stop>) | Text(text: string) | Missing

  /** A cruise listing, one field per column of the catalogue. */
  datatype Cruise = Cruise(
    uniqueId: string,
    shipName: string,
    duration: string,
    departurePort: string,
    departureDate: string,
    interiorPrice: string,
    oceanViewPrice: string,
    balconyPrice: string,
    suitePrice: string,
    specialOffers: string,
    itineraryMap: string,
    bookingLink: string,
    itinerary: Itinerary,
    userNotes: string)

  /** The `status` of an `apiCall` result: an HTTP status code, or `'aborted'`
      when a newer request cancelled this one. */
  datatype ApiStatus = Code(code: int) | Aborted

  /** What `apiCall` gives back: the status and `result.data?.caches?.[0]?.data`
      (`None` when any step of that path is missing), or the error it throws. */
  datatype ApiResponse = Response(status: ApiStatus, cachedCruises: Option<seq<Cruise>>) | Threw(message: string)

  /** What `fetch` itself resolves to: the HTTP status, its status text, the
      cached cruises of the JSON body and the body's `error` text (empty when the
      body has none); or a cancelled request; or a failure to reach the server. */
  datatype HttpReply =
    | Reply(code: nat, statusText: string, body: Option<seq<Cruise>>, error: string)
    | Cancelled
    | FetchFailed(reason: string)

  /** `response.ok`: a status in the 200 range. */
  predicate IsOk(code: int) {
    200 <= code <= 299
  }

  /** The `apiCall` wrapper that both the page hooks and the single-file planner
      put around `fetch`: a successful reply passes through, a 404 becomes an
      empty result, a cancellation becomes `'aborted'`, and every other status
      is thrown as an error. So the only codes that reach a page are 404 and the
      200 range. */
  function ApiCall(reply: HttpReply): (r: ApiResponse)
    ensures r.Response? && r.status.Code? ==> IsOk(r.status.code) || r.status.code == 404
    ensures r.Response? && r.status.Code? ==> reply.Reply? && r.status.code == reply.code
    ensures reply.Reply? && IsOk(reply.code) ==> r == Response(Code(reply.code), reply.body)
    ensures reply.Reply? && reply.code == 404 ==> r == Response(Code(404), None)
    ensures reply.Reply? && !IsOk(reply.code) && reply.code != 404 ==>
      r == Threw(if reply.error != [] then reply.error
                 else "API Error: " + reply.statusText + " (" + NatToString(reply.code) + ")")
    ensures reply.Cancelled? <==> r == Response(Aborted, None)
    ensures reply.FetchFailed? ==> r == Threw(reply.reason)
  {
    match reply
    case Cancelled => Response(Aborted, None)
    case FetchFailed(reason) => Threw(reason)
    case Reply(code, statusText, body, error) =>
      if IsOk(code) then Response(Code(code), body)
      else if code == 404 then Response(Code(404), None)
      else if error != [] then Threw(error)
      else Threw("API Error: " + statusText + " (" + NatToString(code) + ")")
  }

  /** A cruise with its departure parsed once (`departureDateObj`, `null` when
      it does not parse). */
  datatype ProcessedCruise = ProcessedCruise(cruise: Cruise, departureDay: Option<Day>)

  /** The update of `processedCruises`: each cruise with its parsed departure,
      in the same order. */
  function Processed(all: seq<Cruise>, parseDay: string -> Option<Day>): (r: seq<ProcessedCruise>)
    ensures |r| == |all|
    ensures forall i :: 0 <= i < |all| ==> r[i].cruise == all[i] && r[i].departureDay == parseDay(all[i].departureDate)
  {
    Map(all, (c: Cruise) => ProcessedCruise(c, parseDay(c.departureDate)))
  }

  /** `stops.some(stop => stop?.port?.toLowerCase().includes(needle))` on an
      array itinerary; any other itinerary has no stops to match. */
  predicate AnyPortContains(it: Itinerary, needle: string) {
    it.Stops? && exists i :: 0 <= i < |it.stops| && Contains(ToLower(it.stops[i].port), needle)
  }

  function ShipNameOf(c: Cruise): string {
    c.shipName
  }

  predicate IsNonEmpty(s: string) {
    s != []
  }

  /** `shipNames`: the distinct non-empty Ship Names, sorted. */
  function ShipNames(cruises: seq<Cruise>): (r: seq<string>)
    ensures SortedStrings(r)
    ensures NoDup(r)
    ensures forall n :: n in r <==> n != [] && exists i :: 0 <= i < |cruises| && cruises[i].shipName == n
  {
    var names := Map(cruises, ShipNameOf);
    var distinct := Distinct(Filter(names, IsNonEmpty));
    var r := SortStrings(distinct);
    SortedDistinctStrings(distinct, r);
    forall n ensures n in r <==> n in distinct {
      assert n in r <==> n in multiset(r);
    }
    forall n ensures n in names <==> exists i :: 0 <= i < |cruises| && cruises[i].shipName == n {
      if n in names {
        var i :| 0 <= i < |names| && names[i] == n;
        assert cruises[i].shipName == n;
      }
      if exists i :: 0 <= i < |cruises| && cruises[i].shipName == n {
        var i :| 0 <= i < |cruises| && cruises[i].shipName == n;
        assert names[i] == n;
      }
    }
    r
  }

  /** `cruisesToCompare`: the catalogue entries whose id is in the comparison list,
      in catalogue order. */
  function CruisesToCompare(all: seq<Cruise>, comparisonList: seq<string>): (r: seq<Cruise>)
    ensures forall c :: c in r <==> c in all && c.uniqueId in comparisonList
  {
    Filter(all, IdIn(comparisonList))
  }

  /** `list.includes(cruise['Unique Sailing ID'])`. */
  function IdIn(ids: seq<string>): Cruise -> bool {
    (c: Cruise) => c.uniqueId in ids
  }

  /** The comparison selection is taken from the catalogue without reordering it. */
  lemma CruisesToCompareSubsequence(all: seq<Cruise>, comparisonList: seq<string>)
    ensures IsSubsequence(CruisesToCompare(all, comparisonList), all)
  {
    FilterIsSubsequence(all, IdIn(comparisonList));
  }

  /** Selecting every id compares the whole catalogue. */
  lemma {:induction false} CruisesToCompareAll(all: seq<Cruise>, comparisonList: seq<string>)
    requires forall i :: 0 <= i < |all| ==> all[i].uniqueId in comparisonList
    ensures CruisesToCompare(all, comparisonList) == all
  {
    FilterKeepsAll(all, IdIn(comparisonList));
  }

  /** `prev.filter(id => id !== sailingId)`. */
  function RemoveId(list: seq<string>, id: string): (r: seq<string>)
    ensures id !in r
    ensures forall x :: x != id ==> (x in r <==> x in list)
    ensures |r| <= |list|
    ensures NoDup(list) ==> NoDup(r)
    ensures id !in list ==> r == list
  {
    var r := Filter(list, IsNot(id));
    assert NoDup(list) ==> NoDup(r) by {
      if NoDup(list) { FilterNoDup(list, IsNot(id)); }
    }
    assert id !in list ==> r == list by {
      if id !in list { FilterKeepsAll(list, IsNot(id)); }
    }
    r
  }

  function IsNot(id: string): string -> bool {
    x => x != id
  }

  /** The Ship Name stage of `filteredCruises`: an empty selection filters nothing. */
  function ShipStage(selectedShip: string): ProcessedCruise -> bool {
    (c: ProcessedCruise) => selectedShip == [] || c.cruise.shipName == selectedShip
  }

  /** The budget stage: `budget(text)` is the price test of a budget that
      `parseFloat` reads as a number within the allowed range, `None` otherwise. */
  function BudgetStage(maxBudget: string, budget: string -> Option<ProcessedCruise -> bool>): ProcessedCruise -> bool {
    (c: ProcessedCruise) => maxBudget == [] || budget(maxBudget).None? || budget(maxBudget).value(c)
  }

  /** `sanitizeInput(query).toLowerCase()`. */
  function QueryNeedle(itineraryQuery: string): string {
    ToLower(Trim(itineraryQuery))
  }

  /** The itinerary stage: some stop's port contains the query, whatever the case;
      a cruise without an array itinerary does not match. */
  function QueryStage(itineraryQuery: string): ProcessedCruise -> bool {
    (c: ProcessedCruise) => QueryNeedle(itineraryQuery) == [] || AnyPortContains(c.cruise.itinerary, QueryNeedle(itineraryQuery))
  }

  /** One stage of a `filteredCruises` pipeline: an active stage filters the
      running result; an inactive one, which passes every cruise, leaves it. */
  method Narrow(processed: seq<ProcessedCruise>, result: seq<ProcessedCruise>, kept: ProcessedCruise -> bool,
                stage: ProcessedCruise -> bool, active: bool) returns (r: seq<ProcessedCruise>)
    requires result == Filter(processed, kept)
    requires !active ==> forall c :: stage(c)
    ensures r == Filter(processed, And(kept, stage))
  {
    if active {
      FilterAnd(processed, kept, stage);
      r := Filter(result, stage);
    } else {
      FilterIdle(processed, kept, stage);
      r := result;
    }
  }
}

/** The admin page of src/components/admin/CruiseAdminPage.tsx: loading the
    catalogue, saving it (after filling in defaults for each cruise in place),
    and adding, editing and deleting one cruise by its Unique Sailing ID.

    The network is a parameter: the `ApiResponse` the request returns. The
    current time and the random part of a generated id are parameters too. */
module CruiseAdmin {

  import opened Options
  import opened Lists
  import opened Strings
  import opened CruiseTypes
  import opened CruiseUtils

  datatype HttpMethod = Put | Post

  /** The page's React state. */
  datatype AdminState = AdminState(
    cruises: seq<Cruise>,
    isKeyInCache: bool,
    showForm: bool,
    showBulkImport: bool,
    editingCruise: Option<Cruise>)

  /** `fetchCruisesFromAPI`: the list and the cache flag after a load. */
  function Fetched(st: AdminState, response: ApiResponse): (r: AdminState)
    ensures r.showForm == st.showForm && r.showBulkImport == st.showBulkImport && r.editingCruise == st.editingCruise
    ensures response.Response? && response.status == Code(404) ==> r.cruises == [] && !r.isKeyInCache
    ensures response.Response? && response.status == Code(408) ==> r.cruises == [] && r.isKeyInCache
    ensures (response.Response? && response.status != Code(404) && response.status != Code(408)
             && response.cachedCruises.Some?) ==> r.cruises == response.cachedCruises.value && r.isKeyInCache
    ensures (response.Threw? || (response.Response? && response.status != Code(404) && response.status != Code(408)
             && response.cachedCruises.None?)) ==> r.cruises == [] && !r.isKeyInCache
  {
    match response
    case Threw(_) => st.(cruises := [], isKeyInCache := false)
    case Response(status, cached) =>
      if status == Code(404) then st.(cruises := [], isKeyInCache := false)
      else if status == Code(408) then st.(cruises := [], isKeyInCache := true)
      else if cached.Some? then st.(cruises := cached.value, isKeyInCache := true)
      else st.(cruises := [], isKeyInCache := false)
  }

  /** After a load the key counts as absent only when there is nothing to show,
      so a non-empty catalogue is always saved back with PUT. */
  lemma FetchedKeyFlag(st: AdminState, response: ApiResponse)
    ensures !Fetched(st, response).isKeyInCache ==> Fetched(st, response).cruises == []
    ensures Fetched(st, response).cruises != [] ==> Fetched(st, response).isKeyInCache
  {
  }

  /** The route answers a timed-out upstream with a 408, but `apiCall` throws on
      it, so the load takes the error path: the page forgets the key, and the
      next successful save of any list is a POST. The 408 branch of `Fetched`
      is never reached through `apiCall`. */
  lemma TimedOutLoad(st: AdminState, statusText: string, body: Option<seq<Cruise>>, error: string,
                     s: seq<Cruise>, now: nat, random: nat -> string, response: ApiResponse)
    ensures Fetched(st, ApiCall(Reply(408, statusText, body, error))) == st.(cruises := [], isKeyInCache := false)
    ensures PrepareSave(s, now, random).Ok? ==>
      Save(Fetched(st, ApiCall(Reply(408, statusText, body, error))), s, now, random, response).request == Some(Post)
  {
  }

  /** Through `apiCall`, a load keeps the key exactly when it was a successful
      reply carrying cached data. */
  lemma FetchedThroughApiCall(st: AdminState, reply: HttpReply)
    ensures Fetched(st, ApiCall(reply)).isKeyInCache <==> (reply.Reply? && IsOk(reply.code) && reply.body.Some?)
    ensures Fetched(st, ApiCall(reply)).cruises == (if reply.Reply? && IsOk(reply.code) && reply.body.Some? then reply.body.value else [])
  {
  }

  /** JavaScript's `value || fallback` on a string field. */
  function OrDefault(value: string, fallback: string): (r: string)
    ensures value != [] ==> r == value
    ensures value == [] ==> r == fallback
  {
    if value != [] then value else fallback
  }

  /** The id generated for the cruise at `index`: `cruise_<now>_<index>_<random>`. */
  function FreshSailingId(now: nat, index: nat, random: string): (r: string)
    ensures |r| > 7 && r[..7] == "cruise_"
  {
    "cruise_" + NatToString(now) + "_" + NatToString(index) + "_" + random
  }

  /** A cruise every required field of which is filled in: what a save leaves behind. */
  predicate Normalized(c: Cruise) {
    c.departurePort != [] && c.departureDate != [] && c.duration != []
    && c.interiorPrice != [] && c.oceanViewPrice != [] && c.balconyPrice != [] && c.suitePrice != []
    && c.specialOffers != [] && c.itinerary.Stops? && c.uniqueId != []
  }

  /** The default filling of `handleSaveCruises` for one cruise. */
  function Normalize(c: Cruise, freshId: string): (r: Cruise)
    ensures freshId != [] ==> Normalized(r)
    ensures r.shipName == c.shipName && r.userNotes == c.userNotes
    ensures r.itineraryMap == c.itineraryMap && r.bookingLink == c.bookingLink
    ensures c.uniqueId != [] ==> r.uniqueId == c.uniqueId
    ensures c.uniqueId == [] ==> r.uniqueId == freshId
    ensures c.itinerary.Stops? ==> r.itinerary == c.itinerary
    ensures !c.itinerary.Stops? ==> r.itinerary == Stops([])
    ensures c.departurePort != [] ==> r.departurePort == c.departurePort
    ensures c.departurePort == [] ==> r.departurePort == "TBD"
    ensures c.departureDate != [] ==> r.departureDate == c.departureDate
    ensures c.departureDate == [] ==> r.departureDate == "TBD"
    ensures c.duration != [] ==> r.duration == c.duration
    ensures c.duration == [] ==> r.duration == "7 Nights"
    ensures c.interiorPrice != [] ==> r.interiorPrice == c.interiorPrice
    ensures c.interiorPrice == [] ==> r.interiorPrice == "N/A"
    ensures c.oceanViewPrice != [] ==> r.oceanViewPrice == c.oceanViewPrice
    ensures c.oceanViewPrice == [] ==> r.oceanViewPrice == "N/A"
    ensures c.balconyPrice != [] ==> r.balconyPrice == c.balconyPrice
    ensures c.balconyPrice == [] ==> r.balconyPrice == "N/A"
    ensures c.suitePrice != [] ==> r.suitePrice == c.suitePrice
    ensures c.suitePrice == [] ==> r.suitePrice == "N/A"
    ensures c.specialOffers != [] ==> r.specialOffers == c.specialOffers
    ensures c.specialOffers == [] ==> r.specialOffers == "None"
  {
    c.(departurePort := OrDefault(c.departurePort, "TBD"),
       departureDate := OrDefault(c.departureDate, "TBD"),
       duration := OrDefault(c.duration, "7 Nights"),
       interiorPrice := OrDefault(c.interiorPrice, "N/A"),
       oceanViewPrice := OrDefault(c.oceanViewPrice, "N/A"),
       balconyPrice := OrDefault(c.balconyPrice, "N/A"),
       suitePrice := OrDefault(c.suitePrice, "N/A"),
       specialOffers := OrDefault(c.specialOffers, "None"),
       itineraryMap := OrDefault(c.itineraryMap, ""),
       bookingLink := OrDefault(c.bookingLink, ""),
       itinerary := if c.itinerary.Stops? then c.itinerary else Stops([]),
       uniqueId := OrDefault(c.uniqueId, freshId))
  }

  /** A cruise that is already complete is left exactly as it is. */
  lemma NormalizeKeepsComplete(c: Cruise, freshId: string)
    requires Normalized(c)
    ensures Normalize(c, freshId) == c
  {
  }

  /** Saving a saved cruise again changes nothing, whatever id would be generated. */
  lemma NormalizeIdempotent(c: Cruise, freshId: string, otherId: string)
    requires freshId != []
    ensures Normalize(Normalize(c, freshId), otherId) == Normalize(c, freshId)
  {
    NormalizeKeepsComplete(Normalize(c, freshId), otherId);
  }

  /** A cruise that the save accepts passes `validateCruiseData` once normalised. */
  lemma NormalizedValidates(c: Cruise, freshId: string, isJson: string -> bool)
    requires !IsBlank(c.shipName)
    ensures ValidateCruiseData(Object(Normalize(c, freshId)), isJson) == Ok(true)
  {
  }

  /** `Cruise <n>: Ship Name is required`, with the 1-based position. */
  function ShipNameError(index: nat): string {
    "Cruise " + NatToString(index + 1) + ": Ship Name is required"
  }

  lemma ShipNameErrorFirst()
    ensures ShipNameError(0) == "Cruise 1: Ship Name is required"
  {
    assert NatToString(1) == "1";
    var a := ShipNameError(0);
    var b := "Cruise 1: Ship Name is required";
    assert |a| == |b|;
    forall i | 0 <= i < |a| ensures a[i] == b[i] {
    }
  }

  /** The position of the first cruise whose Ship Name is missing or blank. */
  function FirstMissingShipName(s: seq<Cruise>): (r: Option<nat>)
    ensures r.None? <==> forall k :: 0 <= k < |s| ==> !IsBlank(s[k].shipName)
    ensures r.Some? ==> r.value < |s| && IsBlank(s[r.value].shipName)
    ensures r.Some? ==> forall k :: 0 <= k < r.value ==> !IsBlank(s[k].shipName)
    decreases |s|
  {
    if s == [] then None
    else if IsBlank(s[0].shipName) then Some(0)
    else
      match FirstMissingShipName(s[1..])
      case None => None
      case Some(k) => Some(k + 1)
  }

  /** The list after the first `n` cruises have been given their defaults. */
  function NormalizeUpTo(s: seq<Cruise>, n: int, now: nat, random: nat -> string): (r: seq<Cruise>)
    ensures |r| == |s|
    ensures forall k :: 0 <= k < |s| && k < n ==> r[k] == Normalize(s[k], FreshSailingId(now, k, random(k)))
    ensures forall k :: 0 <= k < |s| && n <= k ==> r[k] == s[k]
  {
    seq(|s|, k requires 0 <= k < |s| => if k < n then Normalize(s[k], FreshSailingId(now, k, random(k))) else s[k])
  }

  /** Giving the defaults to one more cruise. */
  lemma NormalizeUpToStep(s: seq<Cruise>, n: nat, now: nat, random: nat -> string)
    requires n < |s|
    ensures NormalizeUpTo(s, n + 1, now, random) == NormalizeUpTo(s, n, now, random)[n := Normalize(s[n], FreshSailingId(now, n, random(n)))]
  {
  }

  /** The validation and default filling of `handleSaveCruises`: the first cruise
      without a Ship Name aborts the save, otherwise every cruise gets its defaults. */
  function PrepareSave(s: seq<Cruise>, now: nat, random: nat -> string): (r: Result<seq<Cruise>>)
    ensures r.Err? <==> exists k :: 0 <= k < |s| && IsBlank(s[k].shipName)
    ensures r.Err? ==> r.message == ShipNameError(FirstMissingShipName(s).value)
    ensures r.Ok? ==> |r.value| == |s|
    ensures r.Ok? ==> forall k :: 0 <= k < |s| ==> Normalized(r.value[k]) && r.value[k].shipName == s[k].shipName
  {
    match FirstMissingShipName(s)
    case Some(k) => Err(ShipNameError(k))
    case None => Ok(NormalizeUpTo(s, |s|, now, random))
  }

  /** What a save reports: the HTTP method of the request it made (none when the
      validation failed first) and the error it rethrows. */
  datatype SaveOutcome = SaveOutcome(state: AdminState, request: Option<HttpMethod>, error: Option<string>)

  /** `handleSaveCruises` on the page state. */
  function Save(st: AdminState, s: seq<Cruise>, now: nat, random: nat -> string, response: ApiResponse): (r: SaveOutcome)
    ensures PrepareSave(s, now, random).Err? ==>
      r.state == st && r.request.None? && r.error == Some(PrepareSave(s, now, random).message)
    ensures PrepareSave(s, now, random).Ok? ==> r.request == Some(if st.isKeyInCache then Put else Post)
    ensures (PrepareSave(s, now, random).Ok? && response.Response? && response.status != Aborted) ==>
      r.state == AdminState(PrepareSave(s, now, random).value, true, false, false, None) && r.error.None?
    ensures (PrepareSave(s, now, random).Ok? && response.Response? && response.status == Aborted) ==>
      r.state == st && r.error.None?
    ensures (PrepareSave(s, now, random).Ok? && response.Threw?) ==>
      r.state == st && r.error == Some(response.message)
  {
    match PrepareSave(s, now, random)
    case Err(message) => SaveOutcome(st, None, Some(message))
    case Ok(saved) =>
      var request := Some(if st.isKeyInCache then Put else Post);
      match response
      case Threw(message) => SaveOutcome(st, request, Some(message))
      case Response(status, _) =>
        if status == Aborted then SaveOutcome(st, request, None)
        else SaveOutcome(AdminState(saved, true, false, false, None), request, None)
  }

  /** After a completed save the catalogue is complete and valid, and the next
      save of it is a PUT that changes nothing it holds. */
  lemma SaveThenSaveAgain(st: AdminState, s: seq<Cruise>, now: nat, random: nat -> string, response: ApiResponse,
                          now2: nat, random2: nat -> string, response2: ApiResponse)
    requires PrepareSave(s, now, random).Ok? && response.Response? && response.status != Aborted
    ensures var st2 := Save(st, s, now, random, response).state;
      (forall k :: 0 <= k < |st2.cruises| ==> Normalized(st2.cruises[k]))
      && Save(st2, st2.cruises, now2, random2, response2).request == Some(Put)
      && PrepareSave(st2.cruises, now2, random2) == Ok(st2.cruises)
  {
    var st2 := Save(st, s, now, random, response).state;
    var saved := st2.cruises;
    forall k | 0 <= k < |saved| ensures !IsBlank(saved[k].shipName) {
      assert saved[k].shipName == s[k].shipName;
    }
    var again := NormalizeUpTo(saved, |saved|, now2, random2);
    forall k | 0 <= k < |saved| ensures again[k] == saved[k] {
      NormalizeKeepsComplete(saved[k], FreshSailingId(now2, k, random2(k)));
    }
    assert again == saved;
  }

  /** `handleAdd`: the list with the new cruise, under a fresh id, at the end. */
  function AddCruise(cruises: seq<Cruise>, newCruise: Cruise, id: string): (r: seq<Cruise>)
    ensures |r| == |cruises| + 1
    ensures r[..|cruises|] == cruises
    ensures r[|cruises|] == newCruise.(uniqueId := id)
  {
    cruises + [newCruise.(uniqueId := id)]
  }

  /** `handleEdit`: every cruise with the edited cruise's id is replaced by it. */
  function EditCruise(cruises: seq<Cruise>, updated: Cruise): (r: seq<Cruise>)
    ensures |r| == |cruises|
    ensures forall i :: 0 <= i < |cruises| && cruises[i].uniqueId == updated.uniqueId ==> r[i] == updated
    ensures forall i :: 0 <= i < |cruises| && cruises[i].uniqueId != updated.uniqueId ==> r[i] == cruises[i]
  {
    seq(|cruises|, i requires 0 <= i < |cruises| => if cruises[i].uniqueId == updated.uniqueId then updated else cruises[i])
  }

  /** Editing keeps every id in its place, and editing twice is editing once. */
  lemma EditCruiseIdempotent(cruises: seq<Cruise>, updated: Cruise)
    ensures forall i :: 0 <= i < |cruises| ==> EditCruise(cruises, updated)[i].uniqueId == cruises[i].uniqueId
    ensures EditCruise(EditCruise(cruises, updated), updated) == EditCruise(cruises, updated)
  {
  }

  function HasOtherId(id: string): Cruise -> bool {
    (c: Cruise) => c.uniqueId != id
  }

  /** `handleDelete` once confirmed: every cruise with the id goes, the rest stay in order. */
  function DeleteCruise(cruises: seq<Cruise>, id: string): (r: seq<Cruise>)
    ensures forall c :: c in r <==> c in cruises && c.uniqueId != id
    ensures forall i :: 0 <= i < |r| ==> r[i].uniqueId != id
    ensures IsSubsequence(r, cruises)
  {
    FilterIsSubsequence(cruises, HasOtherId(id));
    Filter(cruises, HasOtherId(id))
  }

  /** Deleting the cruise just added, under an id no other cruise has, restores the list. */
  lemma AddThenDelete(cruises: seq<Cruise>, newCruise: Cruise, id: string)
    requires forall i :: 0 <= i < |cruises| ==> cruises[i].uniqueId != id
    ensures DeleteCruise(AddCruise(cruises, newCruise, id), id) == cruises
  {
    FilterSnoc(cruises, newCruise.(uniqueId := id), HasOtherId(id));
    FilterKeepsAll(cruises, HasOtherId(id));
    assert AddCruise(cruises, newCruise, id) == cruises + [newCruise.(uniqueId := id)];
  }

  /** Index `i` holds the first cruise with the id. */
  predicate FirstWithId(cruises: seq<Cruise>, id: string, i: int) {
    0 <= i < |cruises| && cruises[i].uniqueId == id && forall j :: 0 <= j < i ==> cruises[j].uniqueId != id
  }

  /** `cruises.find(c => c['Unique Sailing ID'] === id)`. */
  function FindCruise(cruises: seq<Cruise>, id: string): (r: Option<Cruise>)
    ensures r.None? <==> forall i :: 0 <= i < |cruises| ==> cruises[i].uniqueId != id
    ensures forall i :: FirstWithId(cruises, id, i) ==> r == Some(cruises[i])
    ensures r.Some? ==> exists i :: (0 <= i < |cruises| && cruises[i] == r.value
      && forall j :: 0 <= j < i ==> cruises[j].uniqueId != id)
    decreases |cruises|
  {
    if cruises == [] then None
    else if cruises[0].uniqueId == id then Some(cruises[0])
    else
      var r := FindCruise(cruises[1..], id);
      if r.Some? then
        var i :| 0 <= i < |cruises[1..]| && cruises[1..][i] == r.value
                 && (forall j :: 0 <= j < i ==> cruises[1..][j].uniqueId != id);
        assert cruises[i + 1] == r.value;
        assert forall j :: 0 <= j < i + 1 ==> cruises[j].uniqueId != id by {
          forall j | 0 <= j < i + 1 ensures cruises[j].uniqueId != id {
            if j > 0 { assert cruises[j] == cruises[1..][j - 1]; }
          }
        }
        assert forall k :: FirstWithId(cruises, id, k) ==> FirstWithId(cruises[1..], id, k - 1);
        r
      else
        assert forall i :: 1 <= i < |cruises| ==> cruises[i] == cruises[1..][i - 1];
        r
  }

  /** The confirmation text naming what is about to be deleted. */
  function ConfirmDelete(name: string): string {
    "Are you sure you want to delete \"" + name + "\"? This action cannot be undone."
  }

  /** The question `handleDelete` asks before deleting: the Ship Name of the first
      cruise with the id, or "this cruise". */
  function DeleteQuestion(cruises: seq<Cruise>, id: string): (r: string)
    ensures forall i :: FirstWithId(cruises, id, i) && cruises[i].shipName != [] ==> r == ConfirmDelete(cruises[i].shipName)
    ensures forall i :: FirstWithId(cruises, id, i) && cruises[i].shipName == [] ==> r == ConfirmDelete("this cruise")
    ensures (forall i :: 0 <= i < |cruises| ==> cruises[i].uniqueId != id) ==> r == ConfirmDelete("this cruise")
  {
    var found := FindCruise(cruises, id);
    ConfirmDelete(if found.Some? && found.value.shipName != [] then found.value.shipName else "this cruise")
  }

  /** The page: its state, the load on mount and the four handlers. */
  class AdminPage {
    var cruises: seq<Cruise>
    var isKeyInCache: bool
    var showForm: bool
    var showBulkImport: bool
    var editingCruise: Option<Cruise>

    function State(): AdminState
      reads this
    {
      AdminState(cruises, isKeyInCache, showForm, showBulkImport, editingCruise)
    }

    /** The initial `useState` values. */
    constructor ()
      ensures State() == AdminState([], false, false, false, None)
    {
      cruises := [];
      isKeyInCache := false;
      showForm := false;
      showBulkImport := false;
      editingCruise := None;
    }

    method FetchCruisesFromApi(response: ApiResponse)
      modifies this
      ensures State() == Fetched(old(State()), response)
    {
      match response {
        case Threw(_) =>
          cruises := [];
          isKeyInCache := false;
        case Response(status, cached) =>
          if status == Code(404) {
            cruises := [];
            isKeyInCache := false;
          } else if status == Code(408) {
            cruises := [];
            isKeyInCache := true;
          } else if cached.Some? {
            cruises := cached.value;
            isKeyInCache := true;
          } else {
            cruises := [];
            isKeyInCache := false;
          }
      }
    }

    /** The `forEach` of `handleSaveCruises`: fills in the defaults of each cruise
        of `updated` in place, in order, and stops at the first one without a
        Ship Name, leaving the cruises before it already filled in. */
    static method NormalizeInPlace(updated: array<Cruise>, now: nat, random: nat -> string) returns (bad: Option<nat>)
      modifies updated
      ensures bad == FirstMissingShipName(old(updated[..]))
      ensures updated[..] == NormalizeUpTo(old(updated[..]), if bad.Some? then bad.value else updated.Length, now, random)
    {
      ghost var original := updated[..];
      var i := 0;
      while i < updated.Length
        invariant 0 <= i <= updated.Length
        invariant forall k :: 0 <= k < i ==> !IsBlank(original[k].shipName)
        invariant updated[..] == NormalizeUpTo(original, i, now, random)
      {
        var cruise := updated[i];
        assert cruise == original[i];
        TrimEmptyIffBlank(cruise.shipName);
        if Trim(cruise.shipName) == [] {
          assert FirstMissingShipName(original) == Some(i);
          return Some(i);
        }
        NormalizeUpToStep(original, i, now, random);
        Store(updated, i, Normalize(cruise, FreshSailingId(now, i, random(i))));
        i := i + 1;
      }
      assert FirstMissingShipName(original).None?;
      return None;
    }

    /** `updated[i] = cruise`. */
    static method Store(a: array<Cruise>, i: nat, cruise: Cruise)
      requires i < a.Length
      modifies a
      ensures a[..] == old(a[..])[i := cruise]
    {
      a[i] := cruise;
    }

    /** `handleSaveCruises`: validates and fills in `updated` in place, then sends
        it with PUT or POST and, unless the request was aborted or failed, makes
        it the catalogue and closes the forms. */
    method HandleSaveCruises(updated: array<Cruise>, now: nat, random: nat -> string, response: ApiResponse)
      returns (request: Option<HttpMethod>, error: Option<string>)
      modifies this, updated
      ensures var outcome := Save(old(State()), old(updated[..]), now, random, response);
        State() == outcome.state && request == outcome.request && error == outcome.error
      ensures var bad := FirstMissingShipName(old(updated[..]));
        updated[..] == NormalizeUpTo(old(updated[..]), if bad.Some? then bad.value else updated.Length, now, random)
    {
      var bad := NormalizeInPlace(updated, now, random);
      if bad.Some? {
        return None, Some(ShipNameError(bad.value));
      }
      request := Some(if isKeyInCache then Put else Post);
      error := None;
      match response {
        case Threw(message) =>
          error := Some(message);
        case Response(status, _) =>
          if status != Aborted {
            cruises := updated[..];
            isKeyInCache := true;
            showForm := false;
            editingCruise := None;
            showBulkImport := false;
          }
      }
    }

    /** `handleAdd`: saves the list with the new cruise appended under `freshId`. */
    method HandleAdd(newCruise: Cruise, freshId: string, now: nat, random: nat -> string, response: ApiResponse)
      returns (request: Option<HttpMethod>, error: Option<string>)
      modifies this
      ensures var outcome := Save(old(State()), AddCruise(old(cruises), newCruise, freshId), now, random, response);
        State() == outcome.state && request == outcome.request && error == outcome.error
    {
      var list := AddCruise(cruises, newCruise, freshId);
      var updated := new Cruise[|list|](k requires 0 <= k < |list| => list[k]);
      assert updated[..] == list;
      request, error := HandleSaveCruises(updated, now, random, response);
    }

    /** `handleEdit`: saves the list with the cruises of the same id replaced. */
    method HandleEdit(updatedCruise: Cruise, now: nat, random: nat -> string, response: ApiResponse)
      returns (request: Option<HttpMethod>, error: Option<string>)
      modifies this
      ensures var outcome := Save(old(State()), EditCruise(old(cruises), updatedCruise), now, random, response);
        State() == outcome.state && request == outcome.request && error == outcome.error
    {
      var list := EditCruise(cruises, updatedCruise);
      var updated := new Cruise[|list|](k requires 0 <= k < |list| => list[k]);
      assert updated[..] == list;
      request, error := HandleSaveCruises(updated, now, random, response);
    }

    /** `handleDelete`: asks `question`; `confirmed` is the user's answer, and only
        a confirmed delete saves the list without the id. */
    method HandleDelete(sailingId: string, confirmed: bool, now: nat, random: nat -> string, response: ApiResponse)
      returns (question: string, request: Option<HttpMethod>, error: Option<string>)
      modifies this
      ensures question == DeleteQuestion(old(cruises), sailingId)
      ensures !confirmed ==> State() == old(State()) && request.None? && error.None?
      ensures confirmed ==> var outcome := Save(old(State()), DeleteCruise(old(cruises), sailingId), now, random, response);
        State() == outcome.state && request == outcome.request && error == outcome.error
    {
      question := DeleteQuestion(cruises, sailingId);
      request, error := None, None;
      if confirmed {
        var list := DeleteCruise(cruises, sailingId);
        var updated := new Cruise[|list|](k requires 0 <= k < |list| => list[k]);
        assert updated[..] == list;
        request, error := HandleSaveCruises(updated, now, random, response);
      }
    }
  }
}

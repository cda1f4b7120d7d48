/** The trip store of src/hooks/useData.ts: the `trips` and `locations` state of
    the hook and the handlers that replace it. Reading and writing the cache are
    I/O; the trips the cache returns are a parameter of `LoadTrips`. */
module TripStore {

  import opened Options
  import opened Lists
  import opened Constants
  import opened DateUtils

  /** The form data of `addTrip`: a trip without its id. `color == ""` is an unset colour. */
  datatype TripForm = TripForm(location: string, isSchengen: bool, startDate: Day, endDate: Day, color: string)

  /** `editTrip(id, field, value)`: the field and its new value. */
  datatype TripEdit =
    | SetId(id: int)
    | SetLocation(location: string)
    | SetIsSchengen(isSchengen: bool)
    | SetStartDate(startDate: Day)
    | SetEndDate(endDate: Day)
    | SetColor(color: string)

  const DefaultColor := "bg-gray-500"

  predicate IsRegistered(locations: seq<Location>, name: string) {
    exists i :: 0 <= i < |locations| && locations[i].name == name
  }

  /** `locations.find(loc => loc.name === name)`. */
  function FindLocation(locations: seq<Location>, name: string): (r: Option<Location>)
    ensures r.None? <==> !IsRegistered(locations, name)
    ensures r.Some? ==> exists i :: (0 <= i < |locations| && locations[i] == r.value
                                     && forall j :: 0 <= j < i ==> locations[j].name != name)
    ensures r.Some? ==> r.value.name == name
    decreases |locations|
  {
    if locations == [] then None
    else if locations[0].name == name then Some(locations[0])
    else
      var r := FindLocation(locations[1..], name);
      assert IsRegistered(locations, name) <==> IsRegistered(locations[1..], name) by {
        if IsRegistered(locations, name) {
          var i :| 0 <= i < |locations| && locations[i].name == name;
          assert locations[1..][i - 1].name == name;
        }
        if IsRegistered(locations[1..], name) {
          var i :| 0 <= i < |locations[1..]| && locations[1..][i].name == name;
          assert locations[i + 1].name == name;
        }
      }
      if r.Some? then
        var i :| 0 <= i < |locations[1..]| && locations[1..][i] == r.value
                 && (forall j :: 0 <= j < i ==> locations[1..][j].name != name);
        assert locations[i + 1] == r.value;
        assert forall j :: 0 <= j < i + 1 ==> locations[j].name != name by {
          forall j | 0 <= j < i + 1 ensures locations[j].name != name {
            if j > 0 { assert locations[j] == locations[1..][j - 1]; }
          }
        }
        r
      else r
  }

  /** The colour of a new trip before the registry is consulted (`newTrip.color || 'bg-gray-500'`). */
  function FormColor(form: TripForm): (c: string)
    ensures c != ""
    ensures form.color != "" ==> c == form.color
  {
    if form.color == "" then DefaultColor else form.color
  }

  /** The trip `addTrip` creates: a registered location decides the Schengen flag and
      the colour, whatever the form says; otherwise the form decides. */
  function NewTrip(locations: seq<Location>, form: TripForm, id: int): (t: Trip)
    ensures t.id == id && t.location == form.location
    ensures t.startDate == form.startDate && t.endDate == form.endDate
    ensures IsRegistered(locations, form.location) ==>
      (t.isSchengen == FindLocation(locations, form.location).value.isSchengen
       && t.color == FindLocation(locations, form.location).value.color)
    ensures !IsRegistered(locations, form.location) ==>
      (t.isSchengen == form.isSchengen && t.color == FormColor(form))
  {
    match FindLocation(locations, form.location)
    case Some(loc) => Trip(id, form.location, loc.isSchengen, form.startDate, form.endDate, loc.color)
    case None => Trip(id, form.location, form.isSchengen, form.startDate, form.endDate, FormColor(form))
  }

  /** The registry after `addTrip`: an unregistered location is appended once, with
      the trip's name, flag and colour; a registered one leaves it as it was. */
  function RegisterLocation(locations: seq<Location>, form: TripForm): (r: seq<Location>)
    ensures IsRegistered(locations, form.location) ==> r == locations
    ensures !IsRegistered(locations, form.location) ==>
      r == locations + [Location(form.location, form.isSchengen, FormColor(form))]
    ensures IsRegistered(r, form.location)
  {
    if IsRegistered(locations, form.location) then locations
    else
      var r := locations + [Location(form.location, form.isSchengen, FormColor(form))];
      assert r[|locations|].name == form.location;
      r
  }

  /** No two registry entries share a name. */
  predicate NamesDistinct(locations: seq<Location>) {
    forall i, j :: 0 <= i < j < |locations| ==> locations[i].name != locations[j].name
  }

  lemma RegisterLocationKeepsNamesDistinct(locations: seq<Location>, form: TripForm)
    requires NamesDistinct(locations)
    ensures NamesDistinct(RegisterLocation(locations, form))
  {
    var r := RegisterLocation(locations, form);
    if !IsRegistered(locations, form.location) {
      forall i, j | 0 <= i < j < |r| ensures r[i].name != r[j].name {
        if j == |locations| {
          assert r[i] == locations[i];
        }
      }
    }
  }

  lemma DefaultLocationsDistinct()
    ensures NamesDistinct(DefaultLocations)
  {
  }

  /** One trip after an `editTrip`: the field takes the value; a new location also
      takes the registry's flag and colour, or keeps the trip's own when unregistered. */
  function ApplyEdit(t: Trip, locations: seq<Location>, edit: TripEdit): (r: Trip)
    ensures edit.SetLocation? ==>
      (r.location == edit.location && r.id == t.id && r.startDate == t.startDate && r.endDate == t.endDate)
    ensures edit.SetLocation? && IsRegistered(locations, edit.location) ==>
      (r.isSchengen == FindLocation(locations, edit.location).value.isSchengen
       && r.color == FindLocation(locations, edit.location).value.color)
    ensures edit.SetLocation? && !IsRegistered(locations, edit.location) ==>
      (r.isSchengen == t.isSchengen && r.color == t.color)
    ensures !edit.SetLocation? ==> r == match edit
      case SetId(v) => t.(id := v)
      case SetIsSchengen(v) => t.(isSchengen := v)
      case SetStartDate(v) => t.(startDate := v)
      case SetEndDate(v) => t.(endDate := v)
      case SetColor(v) => t.(color := v)
      case SetLocation(_) => t
  {
    match edit
    case SetLocation(v) =>
      var locationObj := FindLocation(locations, v);
      t.(location := v,
         isSchengen := if locationObj.Some? then locationObj.value.isSchengen else t.isSchengen,
         color := if locationObj.Some? then locationObj.value.color else t.color)
    case SetId(v) => t.(id := v)
    case SetIsSchengen(v) => t.(isSchengen := v)
    case SetStartDate(v) => t.(startDate := v)
    case SetEndDate(v) => t.(endDate := v)
    case SetColor(v) => t.(color := v)
  }

  /** `trips.map(...)` of `editTrip`: only the trips with the given id change. */
  function EditTrips(trips: seq<Trip>, locations: seq<Location>, id: int, edit: TripEdit): (r: seq<Trip>)
    ensures |r| == |trips|
    ensures forall i :: 0 <= i < |trips| && trips[i].id != id ==> r[i] == trips[i]
    ensures forall i :: 0 <= i < |trips| && trips[i].id == id ==> r[i] == ApplyEdit(trips[i], locations, edit)
  {
    seq(|trips|, i requires 0 <= i < |trips| => if trips[i].id == id then ApplyEdit(trips[i], locations, edit) else trips[i])
  }

  /** `trips.filter(trip => trip.id !== id)`: every trip with that id goes, every other
      trip stays, with its copies, in its relative order. */
  function WithoutId(trips: seq<Trip>, id: int): (r: seq<Trip>)
    ensures forall t :: t in r <==> t in trips && t.id != id
    ensures forall t :: multiset(r)[t] == if t.id != id then multiset(trips)[t] else 0
    ensures IsSubsequence(r, trips)
  {
    var p := (t: Trip) => t.id != id;
    var r := Filter(trips, p);
    FilterIsSubsequence(trips, p);
    assert forall t :: multiset(r)[t] == if t.id != id then multiset(trips)[t] else 0 by {
      forall t ensures multiset(r)[t] == if t.id != id then multiset(trips)[t] else 0 {
        FilterMultiset(trips, p, t);
      }
    }
    r
  }

  predicate SortedByStart(trips: seq<Trip>) {
    forall i, j :: 0 <= i < j < |trips| ==> trips[i].startDate <= trips[j].startDate
  }

  /** Deleting keeps a sorted list sorted (`deleteTrip` does not re-sort). */
  lemma {:induction false} SubsequenceKeepsSorted(a: seq<Trip>, b: seq<Trip>)
    requires IsSubsequence(a, b) && SortedByStart(b)
    ensures SortedByStart(a)
    decreases |b|
  {
    if a != [] && b != [] {
      if a[0] == b[0] {
        SubsequenceKeepsSorted(a[1..], b[1..]);
        SubsequenceElements(a[1..], b[1..]);
        forall j | 0 < j < |a| ensures a[0].startDate <= a[j].startDate {
          assert a[1..][j - 1] in b[1..];
        }
      } else {
        SubsequenceKeepsSorted(a, b[1..]);
      }
    }
  }

  /** A list whose neighbours are in order is sorted. */
  lemma {:induction false} AdjacentSorted(trips: seq<Trip>)
    requires forall i :: 0 < i < |trips| ==> trips[i - 1].startDate <= trips[i].startDate
    ensures SortedByStart(trips)
    decreases |trips|
  {
    if |trips| > 1 {
      var front := trips[..|trips| - 1];
      AdjacentSorted(front);
      forall i, j | 0 <= i < j < |trips| ensures trips[i].startDate <= trips[j].startDate {
        if j < |trips| - 1 {
          assert front[i] == trips[i] && front[j] == trips[j];
        } else if i < j - 1 {
          assert front[i] == trips[i] && front[j - 1] == trips[j - 1];
        }
      }
    }
  }

  /** The default trips are in start order. */
  lemma DefaultTripsSorted()
    ensures SortedByStart(DefaultTrips)
  {
    DefaultTripsOrdered();
    AdjacentSorted(DefaultTrips);
  }

  /** The elements of a subsequence are elements of the sequence. */
  lemma {:induction false} SubsequenceElements<T>(a: seq<T>, b: seq<T>)
    requires IsSubsequence(a, b)
    ensures forall x :: x in a ==> x in b
    decreases |b|
  {
    if a != [] && b != [] {
      if a[0] == b[0] {
        SubsequenceElements(a[1..], b[1..]);
        assert a == [a[0]] + a[1..];
      } else {
        SubsequenceElements(a, b[1..]);
      }
    }
  }

  /** The state of `useData`. */
  class Store {
    var trips: seq<Trip>
    var locations: seq<Location>

    /** The registry never holds two entries with one name. */
    predicate Valid()
      reads this
    {
      NamesDistinct(locations)
    }

    /** `useState([])` and `useState(DEFAULT_LOCATIONS)`. */
    constructor ()
      ensures Valid()
      ensures trips == [] && locations == DefaultLocations
    {
      trips := [];
      locations := DefaultLocations;
    }

    /** The load effect: the cached trips, or the default trips when the cache is empty. */
    method LoadTrips(cachedTrips: seq<Trip>)
      requires Valid()
      modifies this
      ensures Valid()
      ensures trips == if |cachedTrips| > 0 then cachedTrips else DefaultTrips
      ensures locations == old(locations)
    {
      if |cachedTrips| > 0 {
        trips := cachedTrips;
      } else {
        trips := DefaultTrips;
      }
    }

    /** `addTrip`, with the clock's id as `freshId`. */
    method AddTrip(newTrip: TripForm, freshId: int)
      requires Valid()
      modifies this
      ensures Valid()
      ensures trips == SortTrips(old(trips) + [NewTrip(old(locations), newTrip, freshId)])
      ensures |trips| == |old(trips)| + 1
      ensures multiset(trips) == multiset(old(trips)) + multiset{NewTrip(old(locations), newTrip, freshId)}
      ensures SortedByStart(trips)
      ensures locations == RegisterLocation(old(locations), newTrip)
    {
      var isCustomLocation := FindLocation(locations, newTrip.location).None?;
      var tripColor := FormColor(newTrip);
      var isSchengenArea := newTrip.isSchengen;
      if isCustomLocation {
        RegisterLocationKeepsNamesDistinct(locations, newTrip);
        locations := locations + [Location(newTrip.location, newTrip.isSchengen, tripColor)];
      } else {
        var locationObj := FindLocation(locations, newTrip.location);
        tripColor := locationObj.value.color;
        isSchengenArea := locationObj.value.isSchengen;
      }
      var newTripWithId := Trip(freshId, newTrip.location, isSchengenArea, newTrip.startDate, newTrip.endDate, tripColor);
      assert newTripWithId == NewTrip(old(locations), newTrip, freshId);
      var updatedTrips := trips + [newTripWithId];
      trips := SortTrips(updatedTrips);
    }

    /** `editTrip`: edit the trips with that id, then re-sort. */
    method EditTrip(id: int, edit: TripEdit)
      requires Valid()
      modifies this
      ensures Valid()
      ensures trips == SortTrips(EditTrips(old(trips), old(locations), id, edit))
      ensures |trips| == |old(trips)|
      ensures multiset(trips) == multiset(EditTrips(old(trips), old(locations), id, edit))
      ensures SortedByStart(trips)
      ensures forall t :: t in old(trips) && t.id != id ==> t in trips
      ensures locations == old(locations)
    {
      var updatedTrips := EditTrips(trips, locations, id, edit);
      forall t | t in trips && t.id != id ensures t in updatedTrips {
        var i :| 0 <= i < |trips| && trips[i] == t;
        assert updatedTrips[i] == t;
      }
      trips := SortTrips(updatedTrips);
      assert |multiset(trips)| == |multiset(updatedTrips)|;
      forall t | t in updatedTrips ensures t in trips {
        assert t in multiset(updatedTrips);
      }
    }

    /** `deleteTrip`. */
    method DeleteTrip(id: int)
      requires Valid()
      modifies this
      ensures Valid()
      ensures trips == WithoutId(old(trips), id)
      ensures SortedByStart(old(trips)) ==> SortedByStart(trips)
      ensures locations == old(locations)
    {
      if SortedByStart(trips) {
        SubsequenceKeepsSorted(WithoutId(trips, id), trips);
      }
      trips := WithoutId(trips, id);
    }

    /** `resetToDefaultTrips`. */
    method ResetToDefaultTrips()
      requires Valid()
      modifies this
      ensures Valid()
      ensures trips == DefaultTrips && SortedByStart(trips)
      ensures locations == old(locations)
    {
      DefaultTripsSorted();
      trips := DefaultTrips;
    }
  }
}

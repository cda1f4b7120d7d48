/** Timeline dragging (src/hooks/useInteractions.ts): moving a trip, or dragging
    its start or end. The pointer position, the timeline's width and the rounding
    to whole days are outside the model; a drag arrives as its day delta. */
module Interactions {

  import opened Options
  import opened Constants
  import opened DateUtils

  datatype DragType = Move | ResizeStart | ResizeEnd

  /** `dragStartDate`: one date for a resize, both dates for a move. */
  datatype DragSnapshot = SingleDate(date: Day) | Span(start: Day, end: Day)

  /** `trips.find(t => t.id === id)`: the first trip with that id. */
  function FindTrip(trips: seq<Trip>, id: int): (r: Option<Trip>)
    ensures r.None? <==> forall i :: 0 <= i < |trips| ==> trips[i].id != id
    ensures r.Some? ==> exists i :: (0 <= i < |trips| && trips[i] == r.value
                                     && forall j :: 0 <= j < i ==> trips[j].id != id)
    ensures r.Some? ==> r.value.id == id
    decreases |trips|
  {
    if trips == [] then None
    else if trips[0].id == id then Some(trips[0])
    else
      var r := FindTrip(trips[1..], id);
      assert forall i :: 1 <= i < |trips| ==> trips[i] == trips[1..][i - 1];
      if r.Some? then
        var i :| 0 <= i < |trips[1..]| && trips[1..][i] == r.value
                 && (forall j :: 0 <= j < i ==> trips[1..][j].id != id);
        assert trips[i + 1] == r.value;
        r
      else r
  }

  /** The new dates of a drag, or `None` when the snapshot does not fit the drag type
      (the source's early `return`s). `current` is the dragged trip as it is now. */
  function DraggedRange(dragType: DragType, snapshot: DragSnapshot, current: Trip, daysDelta: int): (r: Option<DateRange>)
    ensures r.None? <==> (dragType.Move? != snapshot.Span?)
    ensures r.Some? && dragType.Move? ==>
      r.value == DateRange(snapshot.start + daysDelta, snapshot.end + daysDelta)
    ensures r.Some? && dragType.ResizeStart? ==>
      (r.value.start == (if snapshot.date + daysDelta > current.endDate then current.endDate else snapshot.date + daysDelta)
       && r.value.end == current.endDate)
    ensures r.Some? && dragType.ResizeEnd? ==>
      (r.value.end == (if snapshot.date + daysDelta < current.startDate then current.startDate else snapshot.date + daysDelta)
       && r.value.start == current.startDate)
  {
    match dragType
    case Move =>
      if snapshot.Span? then Some(DateRange(snapshot.start + daysDelta, snapshot.end + daysDelta)) else None
    case ResizeStart =>
      if snapshot.SingleDate? then
        var newStartDate := snapshot.date + daysDelta;
        Some(DateRange(if newStartDate > current.endDate then current.endDate else newStartDate, current.endDate))
      else None
    case ResizeEnd =>
      if snapshot.SingleDate? then
        var newEndDate := snapshot.date + daysDelta;
        Some(DateRange(current.startDate, if newEndDate < current.startDate then current.startDate else newEndDate))
      else None
  }

  /** A move keeps the snapshot's length; both resizes leave a trip whose start is not
      after its end, and a resize moves only the end it grabs. */
  lemma DraggedRangeShape(dragType: DragType, snapshot: DragSnapshot, current: Trip, daysDelta: int)
    requires DraggedRange(dragType, snapshot, current, daysDelta).Some?
    ensures var r := DraggedRange(dragType, snapshot, current, daysDelta).value;
      && (dragType.Move? ==> r.end - r.start == snapshot.end - snapshot.start)
      && (dragType.ResizeStart? ==> (r.start <= r.end && r.end == current.endDate && r.start - snapshot.date <= daysDelta))
      && (dragType.ResizeEnd? ==> (r.start <= r.end && r.start == current.startDate && r.end - snapshot.date >= daysDelta))
  {
  }

  /** The `trips.map(...)` of a drag: every trip with the dragged id gets the new
      dates, every other trip is left as it was. */
  function WithDates(trips: seq<Trip>, id: int, range: DateRange): (r: seq<Trip>)
    ensures |r| == |trips|
    ensures forall i :: 0 <= i < |trips| && trips[i].id != id ==> r[i] == trips[i]
    ensures forall i :: 0 <= i < |trips| && trips[i].id == id ==>
      r[i] == trips[i].(startDate := range.start, endDate := range.end)
  {
    seq(|trips|, i requires 0 <= i < |trips| =>
      if trips[i].id == id then trips[i].(startDate := range.start, endDate := range.end) else trips[i])
  }

  /** The drag state of `useInteractions`. */
  class TimelineInteractions {
    var draggedTrip: Option<Trip>
    var dragType: Option<DragType>
    var dragStartPos: Option<int>
    var dragStartDate: Option<DragSnapshot>

    constructor ()
      ensures draggedTrip.None? && dragType.None? && dragStartPos.None? && dragStartDate.None?
    {
      draggedTrip, dragType, dragStartPos, dragStartDate := None, None, None, None;
    }

    /** `handleTimelineDragStart`: snapshot the grabbed date, or both dates for a
        move (and for a drag without a type). */
    method DragStart(trip: Trip, kind: Option<DragType>, clientX: int)
      modifies this
      ensures draggedTrip == Some(trip) && dragType == kind && dragStartPos == Some(clientX)
      ensures dragStartDate == Some(
        if kind == Some(ResizeStart) then SingleDate(trip.startDate)
        else if kind == Some(ResizeEnd) then SingleDate(trip.endDate)
        else Span(trip.startDate, trip.endDate))
    {
      draggedTrip := Some(trip);
      dragType := kind;
      dragStartPos := Some(clientX);
      if kind == Some(ResizeStart) {
        dragStartDate := Some(SingleDate(trip.startDate));
      } else if kind == Some(ResizeEnd) {
        dragStartDate := Some(SingleDate(trip.endDate));
      } else {
        dragStartDate := Some(Span(trip.startDate, trip.endDate));
      }
    }

    /** `handleTimelineDrag`: the list to hand to `setTrips`, or `None` when the handler
        returns early. `timelineMounted` is `timelineRef.current` being set. */
    method Drag(trips: seq<Trip>, timelineMounted: bool, daysDelta: int) returns (updated: Option<seq<Trip>>)
      ensures (draggedTrip.None? || !timelineMounted || dragStartPos.None? || dragStartDate.None?
               || daysDelta == 0 || dragType.None?) ==> updated.None?
      ensures draggedTrip.Some? && FindTrip(trips, draggedTrip.value.id).None? ==> updated.None?
      ensures updated.Some? ==> (draggedTrip.Some? && dragType.Some? && dragStartDate.Some?
        && FindTrip(trips, draggedTrip.value.id).Some?
        && DraggedRange(dragType.value, dragStartDate.value, FindTrip(trips, draggedTrip.value.id).value, daysDelta).Some?)
      ensures updated.Some? ==> |updated.value| == |trips|
      ensures updated.Some? ==> forall i :: 0 <= i < |trips| && trips[i].id != draggedTrip.value.id ==>
        updated.value[i] == trips[i]
      ensures updated.Some? ==> forall i :: 0 <= i < |trips| && trips[i].id == draggedTrip.value.id ==>
        var r := DraggedRange(dragType.value, dragStartDate.value, FindTrip(trips, draggedTrip.value.id).value, daysDelta).value;
        updated.value[i] == trips[i].(startDate := r.start, endDate := r.end)
      ensures (draggedTrip.Some? && timelineMounted && dragStartPos.Some? && dragStartDate.Some? && daysDelta != 0
               && dragType.Some? && FindTrip(trips, draggedTrip.value.id).Some?
               && DraggedRange(dragType.value, dragStartDate.value, FindTrip(trips, draggedTrip.value.id).value, daysDelta).Some?)
              ==> updated.Some?
    {
      if draggedTrip.None? || !timelineMounted || dragStartPos.None? || dragStartDate.None? {
        return None;
      }
      if daysDelta == 0 {
        return None;
      }
      var newStartDate: Day, newEndDate: Day;
      var found := FindTrip(trips, draggedTrip.value.id);
      if found.None? {
        return None;
      }
      var trip := found.value;
      var snapshot := dragStartDate.value;
      if dragType == Some(Move) {
        if snapshot.Span? {
          newStartDate := snapshot.start + daysDelta;
          newEndDate := snapshot.end + daysDelta;
        } else {
          return None;
        }
      } else if dragType == Some(ResizeStart) {
        if snapshot.SingleDate? {
          newStartDate := snapshot.date + daysDelta;
          var endDate := trip.endDate;
          if newStartDate > endDate {
            newStartDate := endDate;
          }
          newEndDate := trip.endDate;
        } else {
          return None;
        }
      } else if dragType == Some(ResizeEnd) {
        if snapshot.SingleDate? {
          newEndDate := snapshot.date + daysDelta;
          var startDate := trip.startDate;
          if newEndDate < startDate {
            newEndDate := startDate;
          }
          newStartDate := trip.startDate;
        } else {
          return None;
        }
      } else {
        return None;
      }
      assert DraggedRange(dragType.value, snapshot, trip, daysDelta) == Some(DateRange(newStartDate, newEndDate));
      updated := Some(WithDates(trips, draggedTrip.value.id, DateRange(newStartDate, newEndDate)));
    }

    /** `handleTimelineDragEnd`: all four pieces of drag state are cleared. */
    method DragEnd()
      modifies this
      ensures draggedTrip.None? && dragType.None? && dragStartPos.None? && dragStartDate.None?
    {
      draggedTrip := None;
      dragType := None;
      dragStartPos := None;
      dragStartDate := None;
    }
  }

  /** A resize of the first trip with its id, snapshotted as `DragStart` does, always
      applies, and leaves that trip's start on or before its end. */
  lemma ResizeApplies(trips: seq<Trip>, i: int, kind: DragType, daysDelta: int)
    requires 0 <= i < |trips| && kind != Move
    requires forall j :: 0 <= j < i ==> trips[j].id != trips[i].id
    ensures var snapshot := if kind == ResizeStart then SingleDate(trips[i].startDate) else SingleDate(trips[i].endDate);
      var r := DraggedRange(kind, snapshot, FindTrip(trips, trips[i].id).value, daysDelta);
      r.Some? && r.value.start <= r.value.end
  {
    var f := FindTrip(trips, trips[i].id);
    var k :| 0 <= k < |trips| && trips[k] == f.value && (forall j :: 0 <= j < k ==> trips[j].id != trips[i].id);
    assert k == i;
  }
}

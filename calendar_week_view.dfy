/** The scheduling logic of components/calendar-week-view.tsx: the Monday-based week
    window and its navigation, the per-day lists of pickup and return events, and the
    drag-and-drop state machine whose drop reschedules a booking both in the store's
    overlay and, optimistically, in the view's own list of bookings. */
module CalendarWeekView {
  import opened Wrappers
  import opened Seqs
  import opened Domain
  import BookingStore

  // ---------------------------------------------------------------------------------
  // The week window

  /** Days from an anchor with weekday `weekday` back to the Monday of its week; a Sunday
      belongs to the week that began six days before. */
  function MondayOffset(weekday: int): (offset: int)
    requires 0 <= weekday < 7
    ensures -6 <= offset <= 0
    ensures (weekday + offset + 7) % 7 == 1
  {
    if weekday == 0 then -6 else 1 - weekday
  }

  /** The Monday that starts the week shown for `anchor`. */
  function WeekStart(anchor: Day): (monday: Day)
    ensures Weekday(monday) == 1
    ensures monday <= anchor < monday + 7
  {
    anchor + MondayOffset(Weekday(anchor))
  }

  /** The week start is the only Monday at most six days before the anchor. */
  lemma WeekStartUnique(anchor: Day, m: Day)
    requires Weekday(m) == 1 && m <= anchor < m + 7
    ensures m == WeekStart(anchor)
  {
    var w := WeekStart(anchor);
    assert -6 <= m - w <= 6;
    var qm, qw := (m + 4) / 7, (w + 4) / 7;
    assert m + 4 == 7 * qm + 1 && w + 4 == 7 * qw + 1;
    assert m - w == 7 * (qm - qw);
  }

  /** Moving the anchor by whole weeks moves the week start by the same amount. */
  lemma WeekStartShift(anchor: Day, k: int)
    ensures WeekStart(anchor + 7 * k) == WeekStart(anchor) + 7 * k
  {
    var m := WeekStart(anchor) + 7 * k;
    WeekdayPeriodic(WeekStart(anchor), k);
    WeekStartUnique(anchor + 7 * k, m);
  }

  /** A week start is its own week start. */
  lemma WeekStartIdempotent(anchor: Day)
    ensures WeekStart(WeekStart(anchor)) == WeekStart(anchor)
  {
    WeekStartUnique(WeekStart(anchor), WeekStart(anchor));
  }

  datatype Direction = Prev | Next

  /** Days `navigateWeek(direction)` moves the week start by. */
  function Step(direction: Direction): int {
    if direction == Next then 7 else -7
  }

  // ---------------------------------------------------------------------------------
  // Bookings per day

  /** The booking is picked up or returned on day `d`. */
  predicate OccursOn(b: Booking, d: Day) {
    b.startDate == d || b.endDate == d
  }

  /** `getBookingsForDay(d)`: the bookings picked up or returned on `d`, each once, in
      their order in the list. */
  function BookingsOn(bs: seq<Booking>, d: Day): (r: seq<Booking>)
    ensures IsSubsequence(r, bs)
    ensures forall b :: b in r <==> b in bs && OccursOn(b, d)
    ensures forall b :: multiset(r)[b] == if OccursOn(b, d) then multiset(bs)[b] else 0
  {
    Filter(bs, b => OccursOn(b, d))
  }

  /** The badges drawn on the card of `b` in the cell of day `d`, in drawing order: a
      Pickup badge when the booking starts that day, then a Return badge when it ends
      that day. */
  function Badges(b: Booking, d: Day): (ks: seq<EventKind>)
    ensures forall k :: k in ks <==> EventDate(b, k) == d
    ensures ks == [Pickup, Return] <==> b.startDate == d && b.endDate == d
  {
    (if b.startDate == d then [Pickup] else []) + (if b.endDate == d then [Return] else [])
  }

  /** A booking of the list is listed under a day exactly when its card there draws a
      badge; each badge drawn is for an event on that very day, which is the origin
      date a drag from it records. */
  lemma BadgesMatchListing(bs: seq<Booking>, d: Day, b: Booking)
    requires b in bs
    ensures b in BookingsOn(bs, d) <==> Badges(b, d) != []
    ensures forall k :: k in Badges(b, d) ==> EventDate(b, k) == d
  {
  }

  /** `prevBookings.map(...)` in `handleDrop`: every booking with id `id` gets event `kind`
      moved to `d`; no other field and no other booking changes, and the length stays. */
  function MoveEvent(bs: seq<Booking>, id: string, kind: EventKind, d: Day): (r: seq<Booking>)
    ensures |r| == |bs|
    ensures forall i :: 0 <= i < |bs| && bs[i].id == id ==>
              && EventDate(r[i], kind) == d
              && EventDate(r[i], kind.Other()) == EventDate(bs[i], kind.Other())
              && r[i].(startDate := bs[i].startDate, endDate := bs[i].endDate) == bs[i]
    ensures forall i :: 0 <= i < |bs| && bs[i].id != id ==> r[i] == bs[i]
  {
    Map(bs, (b: Booking) => if b.id == id then WithEventDate(b, kind, d) else b)
  }

  // ---------------------------------------------------------------------------------
  // The overlay, as the badges read it

  /** `getRescheduledDate(id, kind)`: nothing when the overlay has no entry for `id`,
      otherwise the entry's date for `kind` (possibly none). */
  function RescheduledDate(overlay: map<string, BookingStore.RescheduleEntry>, id: string, kind: EventKind): (r: Option<Day>)
    ensures id !in overlay ==> r == None
    ensures id in overlay ==> r == (if kind == Pickup then overlay[id].pickupDate else overlay[id].returnDate)
  {
    if id !in overlay then None
    else if kind == Pickup then overlay[id].pickupDate
    else overlay[id].returnDate
  }

  /** The action `handleDrop` dispatches for event `kind` of booking `id` dropped on `d`:
      the moved date is given, the other is passed as `undefined`. */
  function DropAction(id: string, kind: EventKind, d: Day): (a: BookingStore.Action)
    ensures a.Reschedule? && a.bookingId == id
    ensures (if kind == Pickup then a.pickupDate else a.returnDate) == BookingStore.Given(Some(d))
    ensures (if kind == Pickup then a.returnDate else a.pickupDate) == BookingStore.Given(None)
  {
    BookingStore.RescheduleBooking(id, if kind == Pickup then Some(d) else None, if kind == Return then Some(d) else None)
  }

  /** After a drop, the badge of the moved event reads the new day, the badge of the other
      event of the same booking reads no rescheduled day, and every other booking's
      overlay reads as before. */
  lemma DropMarksOnlyMovedEvent(s: BookingStore.BookingState, id: string, kind: EventKind, d: Day)
    ensures var t := BookingStore.Reduce(s, DropAction(id, kind, d));
            && RescheduledDate(t.rescheduledBookings, id, kind) == Some(d)
            && RescheduledDate(t.rescheduledBookings, id, kind.Other()) == None
            && forall other, k :: other != id ==>
                 RescheduledDate(t.rescheduledBookings, other, k) == RescheduledDate(s.rescheduledBookings, other, k)
  {
  }

  // ---------------------------------------------------------------------------------
  // The component

  /** The drag payload: which event of which booking, and the day it was dragged from. */
  datatype DragData = DragData(bookingId: string, kind: EventKind, originalDate: Day)

  /** The component's state. `store` is the booking store it dispatches to. */
  class WeekView {
    const store: BookingStore.Store
    var currentWeekStart: Day
    var bookings: seq<Booking>
    var loading: bool
    var draggedItem: Option<DragData>
    var dragOverDay: Option<Day>

    /** The shown week always starts on a Monday. */
    predicate Valid()
      reads this
    {
      Weekday(currentWeekStart) == 1
    }

    /** Mounting on day `today`: the week of `today`, nothing loaded or dragged. */
    constructor (store: BookingStore.Store, today: Day)
      ensures Valid()
      ensures this.store == store
      ensures currentWeekStart == WeekStart(today) && currentWeekStart <= today < currentWeekStart + 7
      ensures bookings == [] && !loading && draggedItem == None && dragOverDay == None
    {
      this.store := store;
      currentWeekStart := WeekStart(today);
      bookings := [];
      loading := false;
      draggedItem := None;
      dragOverDay := None;
    }

    /** `weekDays`: the seven days of the shown week, Monday to Sunday. */
    method WeekDays() returns (days: seq<Day>)
      requires Valid()
      ensures |days| == 7
      ensures forall i :: 0 <= i < 7 ==> days[i] == currentWeekStart + i
      ensures forall i :: 0 <= i < 7 ==> Weekday(days[i]) == (i + 1) % 7
    {
      days := [];
      for i := 0 to 7
        invariant |days| == i
        invariant forall j :: 0 <= j < i ==> days[j] == currentWeekStart + j
        invariant forall j :: 0 <= j < i ==> Weekday(days[j]) == (j + 1) % 7
      {
        days := days + [currentWeekStart + i];
      }
    }

    /** The first and last day the load effect asks bookings for: Monday to Sunday. */
    function WeekRange(): (range: (Day, Day))
      requires Valid()
      reads this
      ensures Weekday(range.0) == 1 && Weekday(range.1) == 0
      ensures range.1 - range.0 == 6
    {
      (currentWeekStart, currentWeekStart + 6)
    }

    /** `navigateWeek(direction)`: the window moves by one week and still starts on a Monday. */
    method NavigateWeek(direction: Direction)
      requires Valid()
      modifies this
      ensures Valid()
      ensures currentWeekStart == old(currentWeekStart) + Step(direction)
      ensures bookings == old(bookings) && loading == old(loading)
      ensures draggedItem == old(draggedItem) && dragOverDay == old(dragOverDay)
    {
      WeekdayPeriodic(currentWeekStart, if direction == Next then 1 else -1);
      currentWeekStart := currentWeekStart + Step(direction);
    }

    /** The load effect starts: the grid is replaced by the loading indicator. */
    method BeginLoad()
      modifies this`loading
      ensures loading
    {
      loading := true;
    }

    /** The load effect ends with the fetched bookings, or with none when the fetch threw. */
    method FinishLoad(fetched: Option<seq<Booking>>)
      modifies this`bookings, this`loading
      ensures bookings == fetched.GetOr([]) && !loading
    {
      bookings := fetched.GetOr([]);
      loading := false;
    }

    /** `handleDragStart`: event `kind` of booking `id` is picked up from day `originalDate`. */
    method HandleDragStart(bookingId: string, kind: EventKind, originalDate: Day)
      modifies this`draggedItem
      ensures draggedItem == Some(DragData(bookingId, kind, originalDate))
    {
      draggedItem := Some(DragData(bookingId, kind, originalDate));
    }

    /** `handleDragOver(d)`: the cell of day `d` is highlighted as the drop target. */
    method HandleDragOver(d: Day)
      modifies this`dragOverDay
      ensures dragOverDay == Some(d)
    {
      dragOverDay := Some(d);
    }

    /** `handleDragLeave`: no cell is highlighted. */
    method HandleDragLeave()
      modifies this`dragOverDay
      ensures dragOverDay == None
    {
      dragOverDay := None;
    }

    /** `handleDragEnd`: the drag is over, dropped or not. */
    method HandleDragEnd()
      modifies this`draggedItem, this`dragOverDay
      ensures draggedItem == None && dragOverDay == None
    {
      draggedItem := None;
      dragOverDay := None;
    }

    /** `handleDrop(newDate)`. Without a drag it only clears the highlight; a drop on the
      day the event came from only ends the drag; any other drop dispatches the reschedule
      to the store and moves the event in the view's own bookings. */
    method HandleDrop(newDate: Day)
      modifies this`draggedItem, this`dragOverDay, this`bookings, store
      ensures dragOverDay == None && draggedItem == None
      ensures old(draggedItem).None? || old(draggedItem).value.originalDate == newDate ==>
                bookings == old(bookings) && store.state == old(store.state)
      ensures old(draggedItem).Some? && old(draggedItem).value.originalDate != newDate ==>
                var drag := old(draggedItem).value;
                && store.state == BookingStore.Reduce(old(store.state), DropAction(drag.bookingId, drag.kind, newDate))
                && bookings == MoveEvent(old(bookings), drag.bookingId, drag.kind, newDate)
    {
      dragOverDay := None;
      if draggedItem.None? {
        return;
      }
      var drag := draggedItem.value;
      if drag.originalDate == newDate {
        draggedItem := None;
        return;
      }
      store.Dispatch(DropAction(drag.bookingId, drag.kind, newDate));
      bookings := MoveEvent(bookings, drag.bookingId, drag.kind, newDate);
      draggedItem := None;
    }
  }

  /** A client of the component: a week forward and a week back shows the same week. */
  method NavigateThereAndBack(view: WeekView)
    requires view.Valid()
    modifies view
    ensures view.Valid() && view.currentWeekStart == old(view.currentWeekStart)
  {
    view.NavigateWeek(Next);
    view.NavigateWeek(Prev);
  }

  /** A client of the component: dragging the pickup of a booking to another day moves it in
      the store's overlay and in the view's list, and leaves the return day where it was. */
  method DragPickupScenario(store: BookingStore.Store, b: Booking, target: Day)
    requires b.startDate != target
    modifies store
    ensures RescheduledDate(store.state.rescheduledBookings, b.id, Pickup) == Some(target)
    ensures RescheduledDate(store.state.rescheduledBookings, b.id, Return) == None
  {
    var view := new WeekView(store, b.startDate);
    view.FinishLoad(Some([b]));
    view.HandleDragStart(b.id, Pickup, b.startDate);
    view.HandleDragOver(target);
    view.HandleDrop(target);
    view.HandleDragEnd();
    assert view.bookings == [b.(startDate := target)];
    DropMarksOnlyMovedEvent(old(store.state), b.id, Pickup, target);
  }
}

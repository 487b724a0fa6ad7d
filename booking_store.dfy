/** The booking store of lib/store/booking-context.tsx: its state record, its nine
    actions, the reducer, the action creators, and the `useReducer` cell that holds the
    current state and applies dispatched actions. */
module BookingStore {
  import opened Wrappers
  import opened Domain

  datatype View = CalendarView | BookingDetailView

  /** One entry of the reschedule overlay. A date the entry does not hold (key missing or
      set to `undefined`; reading either gives `undefined`) is `None`. */
  datatype RescheduleEntry = RescheduleEntry(bookingId: string, pickupDate: Option<Day>, returnDate: Option<Day>)

  /** One optional key of an action payload: left out of the object, or present with a
      value that may be `undefined`. Spreading the payload overwrites exactly the present keys. */
  datatype Slot<T> = Omitted | Given(value: Option<T>)

  datatype BookingState = BookingState(
    selectedStation: Option<LabeledOption>,
    selectedBooking: Option<Booking>,
    currentView: View,
    currentWeek: Day,
    bookings: seq<Booking>,
    rescheduledBookings: map<string, RescheduleEntry>,
    loading: bool,
    error: Option<string>)

  datatype Action =
    | SetSelectedStation(station: Option<LabeledOption>)
    | SetSelectedBooking(booking: Option<Booking>)
    | SetCurrentView(view: View)
    | SetCurrentWeek(week: Day)
    | SetBookings(list: seq<Booking>)
    | Reschedule(bookingId: string, pickupDate: Slot<Day>, returnDate: Slot<Day>)
    | SetLoading(isLoading: bool)
    | SetError(message: Option<string>)
    | ResetError
      /** Any object whose `type` is none of the above. */
    | Unrecognised(tag: string)

  /** The store's state when the application mounts; `now` is the clock reading `new Date()`. */
  function InitialState(now: Day): BookingState {
    BookingState(None, None, CalendarView, now, [], map[], false, None)
  }

  /** The names of the eight state fields. */
  datatype Field = SelectedStationField | SelectedBookingField | CurrentViewField | CurrentWeekField
                 | BookingsField | RescheduledField | LoadingField | ErrorField

  /** Fields `s` and `t` hold the same value in field `f`. */
  predicate Agree(s: BookingState, t: BookingState, f: Field) {
    match f
    case SelectedStationField => s.selectedStation == t.selectedStation
    case SelectedBookingField => s.selectedBooking == t.selectedBooking
    case CurrentViewField => s.currentView == t.currentView
    case CurrentWeekField => s.currentWeek == t.currentWeek
    case BookingsField => s.bookings == t.bookings
    case RescheduledField => s.rescheduledBookings == t.rescheduledBookings
    case LoadingField => s.loading == t.loading
    case ErrorField => s.error == t.error
  }

  /** The one field an action may write (none for an unrecognised action). */
  function Writes(a: Action): set<Field> {
    match a
    case SetSelectedStation(_) => {SelectedStationField}
    case SetSelectedBooking(_) => {SelectedBookingField}
    case SetCurrentView(_) => {CurrentViewField}
    case SetCurrentWeek(_) => {CurrentWeekField}
    case SetBookings(_) => {BookingsField}
    case Reschedule(_, _, _) => {RescheduledField}
    case SetLoading(_) => {LoadingField}
    case SetError(_) => {ErrorField}
    case ResetError => {ErrorField}
    case Unrecognised(_) => {}
  }

  /** The value a spread leaves for one date: the payload's if its key is present. */
  function Patch(previous: Option<Day>, slot: Slot<Day>): (r: Option<Day>)
    ensures slot.Given? ==> r == slot.value
    ensures slot.Omitted? ==> r == previous
  {
    match slot
    case Omitted => previous
    case Given(v) => v
  }

  /** `{...overlay[id], ...payload}`: the entry after a reschedule payload is merged in. */
  function Merge(overlay: map<string, RescheduleEntry>, id: string, p: Slot<Day>, r: Slot<Day>): (e: RescheduleEntry)
    ensures e.bookingId == id
    ensures e.pickupDate == Patch(if id in overlay then overlay[id].pickupDate else None, p)
    ensures e.returnDate == Patch(if id in overlay then overlay[id].returnDate else None, r)
  {
    if id in overlay then RescheduleEntry(id, Patch(overlay[id].pickupDate, p), Patch(overlay[id].returnDate, r))
    else RescheduleEntry(id, Patch(None, p), Patch(None, r))
  }

  /** `bookingReducer`. Every action writes at most its own field; the setters store
      their payload; a reschedule changes the overlay entry of its own id only. */
  function Reduce(s: BookingState, a: Action): (t: BookingState)
    ensures forall f :: f !in Writes(a) ==> Agree(s, t, f)
    ensures a.SetSelectedStation? ==> t.selectedStation == a.station
    ensures a.SetSelectedBooking? ==> t.selectedBooking == a.booking
    ensures a.SetCurrentView? ==> t.currentView == a.view
    ensures a.SetCurrentWeek? ==> t.currentWeek == a.week
    ensures a.SetBookings? ==> t.bookings == a.list
    ensures a.SetLoading? ==> t.loading == a.isLoading
    ensures a.SetError? ==> t.error == a.message
    ensures a.ResetError? ==> t.error == None
    ensures a.Reschedule? ==>
              && t.rescheduledBookings.Keys == s.rescheduledBookings.Keys + {a.bookingId}
              && t.rescheduledBookings[a.bookingId]
                 == Merge(s.rescheduledBookings, a.bookingId, a.pickupDate, a.returnDate)
              && forall k :: k in s.rescheduledBookings && k != a.bookingId ==>
                   t.rescheduledBookings[k] == s.rescheduledBookings[k]
    ensures a.Unrecognised? ==> t == s
  {
    match a
    case SetSelectedStation(station) => s.(selectedStation := station)
    case SetSelectedBooking(booking) => s.(selectedBooking := booking)
    case SetCurrentView(view) => s.(currentView := view)
    case SetCurrentWeek(week) => s.(currentWeek := week)
    case SetBookings(list) => s.(bookings := list)
    case Reschedule(id, p, r) =>
      s.(rescheduledBookings := s.rescheduledBookings[id := Merge(s.rescheduledBookings, id, p, r)])
    case SetLoading(b) => s.(loading := b)
    case SetError(m) => s.(error := m)
    case ResetError => s.(error := None)
    case Unrecognised(_) => s
  }

  /** Dispatching `acts` one after another, in order: the state after the last action is
      the reducer applied to the state after all the others. */
  function ReduceAll(s: BookingState, acts: seq<Action>): BookingState
    decreases |acts|
  {
    if acts == [] then s else Reduce(ReduceAll(s, acts[..|acts| - 1]), acts[|acts| - 1])
  }

  /** `bookingActions.rescheduleBooking(id, pickupDate?, returnDate?)`: the payload object
      always has both date keys, even when a date argument is `undefined`. */
  function RescheduleBooking(id: string, pickupDate: Option<Day>, returnDate: Option<Day>): (a: Action)
    ensures a.Reschedule? && a.bookingId == id
    ensures a.pickupDate.Given? && a.returnDate.Given?
  {
    Reschedule(id, Given(pickupDate), Given(returnDate))
  }

  // ---------------------------------------------------------------------------------
  // Properties of the reducer

  /** The mounted store selects nothing, shows the calendar and holds no data. */
  lemma InitialStateIsEmpty(now: Day)
    ensures var s := InitialState(now);
            && s.selectedStation == None && s.selectedBooking == None
            && s.currentView == CalendarView && s.currentWeek == now
            && s.bookings == [] && s.rescheduledBookings == map[]
            && !s.loading && s.error == None
  {
  }

  /** A reschedule dispatched through the action creator stores exactly the dates it was
      given, together with the id: a date passed as `undefined` REPLACES the date the entry
      held before instead of keeping it. */
  lemma CreatorRescheduleOverwrites(s: BookingState, id: string, p: Option<Day>, r: Option<Day>)
    ensures Reduce(s, RescheduleBooking(id, p, r)).rescheduledBookings[id] == RescheduleEntry(id, p, r)
  {
  }

  /** Loading switched on and then off again is off. */
  lemma LoadingOnThenOff(s: BookingState)
    ensures ReduceAll(s, [SetLoading(true), SetLoading(false)]) == s.(loading := false)
  {
    assert [SetLoading(true), SetLoading(false)][..1] == [SetLoading(true)];
    assert [SetLoading(true)][..0] == [];
    assert ReduceAll(s, [SetLoading(true)]) == s.(loading := true);
  }

  /** An error that is set and then reset is gone, and nothing else has changed. */
  lemma ErrorThenReset(s: BookingState, m: string)
    ensures ReduceAll(s, [SetError(Some(m)), ResetError]) == s.(error := None)
  {
    assert [SetError(Some(m)), ResetError][..1] == [SetError(Some(m))];
    assert [SetError(Some(m))][..0] == [];
    assert ReduceAll(s, [SetError(Some(m))]) == s.(error := Some(m));
  }

  /** The overlay never loses a key: over any run of actions its key set only grows. */
  lemma {:induction false} RescheduledKeysGrow(s: BookingState, acts: seq<Action>)
    ensures s.rescheduledBookings.Keys <= ReduceAll(s, acts).rescheduledBookings.Keys
    decreases |acts|
  {
    if acts != [] {
      RescheduledKeysGrow(s, acts[..|acts| - 1]);
    }
  }

  /** Actions that do not reschedule `id` leave its overlay entry as it was. */
  lemma {:induction false} OtherActionsKeepEntry(s: BookingState, acts: seq<Action>, id: string)
    requires id in s.rescheduledBookings
    requires forall i :: 0 <= i < |acts| ==> !(acts[i].Reschedule? && acts[i].bookingId == id)
    ensures id in ReduceAll(s, acts).rescheduledBookings
    ensures ReduceAll(s, acts).rescheduledBookings[id] == s.rescheduledBookings[id]
    decreases |acts|
  {
    if acts != [] {
      OtherActionsKeepEntry(s, acts[..|acts| - 1], id);
    }
  }

  /** The date a run of payload slots leaves behind, starting from `previous`: the value of
      the last slot whose key is present, or `previous` when no key is present. */
  function LastGiven(previous: Option<Day>, slots: seq<Slot<Day>>): Option<Day>
    decreases |slots|
  {
    if slots == [] then previous
    else if slots[|slots| - 1].Given? then slots[|slots| - 1].value
    else LastGiven(previous, slots[..|slots| - 1])
  }

  /** The reschedule actions for `id` whose payloads carry the slots `ps` and `rs`. */
  function RescheduleRun(id: string, ps: seq<Slot<Day>>, rs: seq<Slot<Day>>): (acts: seq<Action>)
    requires |ps| == |rs|
    ensures |acts| == |ps|
  {
    seq(|ps|, i requires 0 <= i < |ps| => Reschedule(id, ps[i], rs[i]))
  }

  /** Dispatching reschedules of one id in turn merges them field by field: each date ends
      as the last value whose key was present, later payloads overriding earlier ones. */
  lemma {:induction false} RescheduleRunMerges(s: BookingState, id: string, ps: seq<Slot<Day>>, rs: seq<Slot<Day>>)
    requires |ps| == |rs| && |ps| >= 1
    ensures var overlay := s.rescheduledBookings;
            var t := ReduceAll(s, RescheduleRun(id, ps, rs));
            && id in t.rescheduledBookings
            && t.rescheduledBookings[id] == RescheduleEntry(
                 id,
                 LastGiven(if id in overlay then overlay[id].pickupDate else None, ps),
                 LastGiven(if id in overlay then overlay[id].returnDate else None, rs))
    decreases |ps|
  {
    var n := |ps|;
    var acts := RescheduleRun(id, ps, rs);
    assert acts[..n - 1] == RescheduleRun(id, ps[..n - 1], rs[..n - 1]);
    if n > 1 {
      RescheduleRunMerges(s, id, ps[..n - 1], rs[..n - 1]);
    } else {
      assert acts[..n - 1] == [];
    }
  }

  /** Two drags of the same booking, first its pickup and then its return: the overlay
      entry no longer records the moved pickup day. */
  lemma PickupThenReturnForgetsPickup(s: BookingState, id: string, d1: Day, d2: Day)
    ensures ReduceAll(s, [RescheduleBooking(id, Some(d1), None), RescheduleBooking(id, None, Some(d2))])
              .rescheduledBookings[id] == RescheduleEntry(id, None, Some(d2))
  {
    var acts := [RescheduleBooking(id, Some(d1), None), RescheduleBooking(id, None, Some(d2))];
    assert acts[..1] == [RescheduleBooking(id, Some(d1), None)];
    assert acts[..1][..0] == [];
  }

  /** The `useReducer` cell: the current state, replaced on every dispatch. */
  class Store {
    var state: BookingState

    constructor (now: Day)
      ensures state == InitialState(now)
    {
      state := InitialState(now);
    }

    /** `dispatch(action)`. */
    method Dispatch(a: Action)
      modifies this
      ensures state == Reduce(old(state), a)
    {
      state := Reduce(state, a);
    }
  }
}

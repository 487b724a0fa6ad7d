/** The navigation logic of app/page.tsx: the station search adapter handed to the
    autocomplete, the handlers that switch between the calendar and a booking's details
    by dispatching to the store, and the test that picks which view is drawn. */
module HomePage {
  import opened Wrappers
  import opened Seqs
  import opened Domain
  import Api
  import opened BookingStore

  /** A station as an autocomplete option: its id, and its name as both label and value. */
  function AsOption(s: Station): LabeledOption {
    LabeledOption(s.id, s.name, s.name)
  }

  /** `fetchStationsForAutocomplete(query)`: the stations `fetchStations` answers, as
      options, one per station and in the same order. */
  function FetchStationsForAutocomplete(query: string, reply: Api.Reply<seq<Station>>): (r: seq<LabeledOption>)
    ensures var stations := Api.FetchStations(query, reply).answer;
            && |r| == |stations|
            && forall i :: 0 <= i < |r| ==>
                 r[i].id == stations[i].id && r[i].caption == stations[i].name && r[i].value == stations[i].name
  {
    Map(Api.FetchStations(query, reply).answer, AsOption)
  }

  /** The actions `handleBookingClick(b)` dispatches, in order. */
  function BookingClickActions(b: Booking): seq<Action> {
    [SetSelectedBooking(Some(b)), SetCurrentView(BookingDetailView)]
  }

  /** The actions `handleBackToCalendar` dispatches, in order. */
  function BackToCalendarActions(): seq<Action> {
    [SetCurrentView(CalendarView), SetSelectedBooking(None)]
  }

  /** The page draws the detail view, rather than the calendar, exactly when the detail
      view is current and a booking is selected. */
  predicate ShowsBookingDetail(s: BookingState) {
    s.currentView == BookingDetailView && s.selectedBooking.Some?
  }

  /** Clicking a booking selects it and shows its details; nothing else changes. */
  lemma BookingClickShowsDetail(s: BookingState, b: Booking)
    ensures var t := ReduceAll(s, BookingClickActions(b));
            && t == s.(selectedBooking := Some(b), currentView := BookingDetailView)
            && ShowsBookingDetail(t) && t.selectedBooking.value.id == b.id
  {
    var acts := BookingClickActions(b);
    assert acts[..1] == [SetSelectedBooking(Some(b))];
    assert acts[..1][..0] == [];
    assert ReduceAll(s, acts[..1]) == s.(selectedBooking := Some(b));
  }

  /** Going back shows the calendar with no booking selected; nothing else changes. */
  lemma BackToCalendarShowsCalendar(s: BookingState)
    ensures var t := ReduceAll(s, BackToCalendarActions());
            && t == s.(currentView := CalendarView, selectedBooking := None)
            && !ShowsBookingDetail(t)
  {
    var acts := BackToCalendarActions();
    assert acts[..1] == [SetCurrentView(CalendarView)];
    assert acts[..1][..0] == [];
    assert ReduceAll(s, acts[..1]) == s.(currentView := CalendarView);
  }

  /** A booking click followed by going back restores the state as it was, except that
      the calendar is shown and no booking is selected. */
  lemma ClickThenBack(s: BookingState, b: Booking)
    ensures ReduceAll(ReduceAll(s, BookingClickActions(b)), BackToCalendarActions())
            == s.(currentView := CalendarView, selectedBooking := None)
  {
    BookingClickShowsDetail(s, b);
    BackToCalendarShowsCalendar(ReduceAll(s, BookingClickActions(b)));
  }

  /** `handleBookingClick(b)`. */
  method HandleBookingClick(store: Store, b: Booking)
    modifies store
    ensures store.state == ReduceAll(old(store.state), BookingClickActions(b))
    ensures ShowsBookingDetail(store.state) && store.state.selectedBooking == Some(b)
  {
    BookingClickShowsDetail(store.state, b);
    store.Dispatch(SetSelectedBooking(Some(b)));
    store.Dispatch(SetCurrentView(BookingDetailView));
  }

  /** `handleBackToCalendar`. */
  method HandleBackToCalendar(store: Store)
    modifies store
    ensures store.state == ReduceAll(old(store.state), BackToCalendarActions())
    ensures !ShowsBookingDetail(store.state) && store.state.currentView == CalendarView
  {
    BackToCalendarShowsCalendar(store.state);
    store.Dispatch(SetCurrentView(CalendarView));
    store.Dispatch(SetSelectedBooking(None));
  }

  /** `handleStationSelect(station)`: only the selected station is replaced. */
  method HandleStationSelect(store: Store, station: Option<LabeledOption>)
    modifies store
    ensures store.state == old(store.state).(selectedStation := station)
  {
    store.Dispatch(SetSelectedStation(station));
  }
}

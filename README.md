# Campervan booking dashboard — a Dafny model

This project models the core of a campervan rental dashboard, a Next.js application that
station staff use to see the week's vehicle pickups and returns and to reschedule them.
The model covers:

- the two mock API routes: `GET /api/stations`, a case-insensitive name-or-city search cut
  to ten results, and `GET /api/bookings`, a station and date-range filter over six
  fixed bookings;
- the client helpers that call them, including the URL `fetchBookings` builds and the
  fallback data every helper answers with when a request fails;
- the booking store: its state record, its reducer, its action creators and the
  `useReducer` cell;
- the weekly calendar: the Monday-based week window and its navigation, the bookings
  listed under each day, and the drag-and-drop state machine whose drop writes the
  store's reschedule overlay and moves the booking in the view's own list;
- the station autocomplete: the query and its debounced search, the keyboard highlight,
  selection and clearing;
- the home page: the station adapter, and the handlers that switch between the calendar
  and a booking's details.

Dates are whole days counted from 1970-01-01 (`Domain.Day`). The app's `YYYY-MM-DD` strings
and local-midnight `Date` values both stand for such a day. The server's replies, the
clock (`new Date()`) and the timer are parameters of the operations that use them.

Modules, one per source file plus shared helpers:

| module | file | models |
|---|---|---|
| `BookingStore` | `booking_store.dfy` | lib/store/booking-context.tsx |
| `BookingsRoute` | `bookings_route.dfy` | app/api/bookings/route.ts |
| `StationsRoute` | `stations_route.dfy` | app/api/stations/route.ts |
| `Api` | `api.dfy` | lib/api.ts |
| `CalendarWeekView` | `calendar_week_view.dfy` | components/calendar-week-view.tsx |
| `Autocomplete` | `autocomplete.dfy` | components/autocomplete.tsx |
| `HomePage` | `home_page.dfy` | app/page.tsx |
| `Domain` | `domain.dfy` | shared records: `Station`, `Booking`, the `{id, label, value}` option, calendar days |
| `Text` | `text.dfy` | ASCII `toLowerCase`, `includes`, `trim`-blankness, number-to-string |
| `Seqs` | `seqs.dfy` | `Array.filter`, `map` and `slice`, and the subsequence order |
| `Wrappers` | `wrappers.dfy` | `Option` |

Stateful parts of the source are Dafny classes whose methods update fields:
`BookingStore.Store`, `CalendarWeekView.WeekView` and `Autocomplete.Widget`. What the
component does on each event is proved against the pure functions beside the class
(`Reduce`, `MoveEvent`, `QueryChanged`, `NextIndex`, ...). The lemmas are proved about
those functions.

**The reschedule merge.** The reducer spreads the payload over the previous entry. The
action creator, however, always builds a payload with both date keys, one of them set to
`undefined`. So every drop overwrites the date it does not move with nothing.
`BookingStore.CreatorRescheduleOverwrites` and `BookingStore.PickupThenReturnForgetsPickup`
prove this. The payload's `pickupDate?` and `returnDate?` are optional, which suggests that a
drop was meant to change one date only. But the spread at lib/store/booking-context.tsx:66-69
overwrites every key that is present, even when its value is `undefined`. The model
follows the code. The `Slot` type keeps "key left out" apart from "key
present with `undefined`", so `BookingStore.RescheduleRunMerges` also states the merge a
payload without the key would give.

## Model

| member | source | states |
|---|---|---|
| Domain.Weekday | components/calendar-week-view.tsx:29 | `getDay()` of a day: in 0..6, and 0 (Sunday) exactly for the days 3 modulo 7 |
| Domain.WeekdayNext | components/calendar-week-view.tsx:29 | the next day has the next weekday, Saturday wrapping to Sunday |
| Domain.WeekdayPeriodic | components/calendar-week-view.tsx:141-145 | a whole number of weeks later is the same weekday |
| Domain.WithEventDate | components/calendar-week-view.tsx:124-127 | the chosen event's date becomes `d`; the other date and every other field are kept |
| Domain.EmptyQueryMatches | app/api/stations/route.ts:18-25 | the empty query matches every station |
| Text.Lower | app/api/stations/route.ts:24 | lower-casing keeps the length and maps each character (ASCII letters only) |
| Text.LowerOfUpper | app/api/stations/route.ts:18-24 | lower-casing erases the difference between a text and its upper-cased form |
| Text.LowerIdempotent | app/api/stations/route.ts:18 | lower-casing twice is lower-casing once |
| Text.Contains | app/api/stations/route.ts:24 | `includes` holds iff the needle occurs at some position of the text |
| Text.NatToString | lib/api.ts:69 | decimal digits only, at least one, no leading zero |
| Text.NatToStringValue | lib/api.ts:69 | the digits read back give the number |
| Text.IntToString | lib/api.ts:69 | non-empty; starts with `-` iff the number is negative |
| Seqs.Filter | app/api/stations/route.ts:23-25 | the kept elements are exactly those satisfying the predicate, in order and with their multiplicities |
| BookingStore.InitialStateIsEmpty | lib/store/booking-context.tsx:37-46 | `InitialState`, the mounted store, selects nothing, shows the calendar, holds no bookings, overlay or error, and is not loading |
| BookingStore.Patch | lib/store/booking-context.tsx:66-69 | a present payload key wins, even an `undefined` one; an absent key keeps the previous date |
| BookingStore.Merge | lib/store/booking-context.tsx:64-70 | the merged entry carries the id, and each date is patched from the previous entry, or from nothing when there was none |
| BookingStore.Reduce | lib/store/booking-context.tsx:49-81 | each action writes only its own field; setters store their payload; `RESET_ERROR` clears the error; a reschedule adds its id to the overlay, merges its entry and keeps every other entry; an unknown action returns the state unchanged |
| BookingStore.RescheduleBooking | lib/store/booking-context.tsx:127-130 | the creator's payload names the booking and always holds both date keys |
| BookingStore.CreatorRescheduleOverwrites | lib/store/booking-context.tsx:61-71 | through the creator, the stored entry is exactly the id and the two dates passed, `undefined` ones included |
| BookingStore.LoadingOnThenOff | lib/store/booking-context.tsx:72-73 | loading on, then off, leaves the state as before with loading off |
| BookingStore.ErrorThenReset | lib/store/booking-context.tsx:74-77 | setting and then resetting an error leaves the state as before with no error |
| BookingStore.RescheduledKeysGrow | lib/store/booking-context.tsx:61-71 | over any run of actions, no overlay key is ever lost |
| BookingStore.OtherActionsKeepEntry | lib/store/booking-context.tsx:61-71 | actions that do not reschedule a booking leave its overlay entry untouched |
| BookingStore.RescheduleRunMerges | lib/store/booking-context.tsx:66-69 | successive reschedules of one id merge field by field: each date is the last one given, later payloads winning |
| BookingStore.PickupThenReturnForgetsPickup | components/calendar-week-view.tsx:107-108 | a pickup drag followed by a return drag of the same booking leaves only the return date in its overlay entry |
| BookingStore.Store.constructor | lib/store/booking-context.tsx:90-91 | the cell starts at the initial state for the clock reading |
| BookingStore.Store.Dispatch | lib/store/booking-context.tsx:91 | dispatch replaces the state with the reducer's result |
| BookingsRoute.Fixture | app/api/bookings/route.ts:3-82 | six bookings |
| BookingsRoute.FixtureWellFormed | app/api/bookings/route.ts:3-82 | no fixture booking is returned before it is picked up, and the ids are distinct |
| BookingsRoute.TwoStageIsOneFilter | app/api/bookings/route.ts:93-111 | the route's two filters in turn, by station and then by range, equal one filter by both conditions (`Wanted`) |
| BookingsRoute.Select | app/api/bookings/route.ts:93-111 | the answer is one filter by `Wanted`: it keeps the list order, holds a booking iff it is at the station (when given) and overlaps the closed range (when both bounds are given), and keeps every copy of a booking that passes |
| BookingsRoute.Get | app/api/bookings/route.ts:84-114 | the route never answers more bookings than the fixture holds |
| BookingsRoute.NoParametersGivesAll | app/api/bookings/route.ts:93-113 | without parameters the whole fixture is answered, in order |
| BookingsRoute.OneBoundIgnored | app/api/bookings/route.ts:102-111 | a range with only one bound does not filter |
| StationsRoute.Fixture | app/api/stations/route.ts:3-14 | ten stations |
| StationsRoute.QueryOf | app/api/stations/route.ts:18 | a missing `q` is the empty query; a given one is lower-cased |
| StationsRoute.Search | app/api/stations/route.ts:23-27 | the answer is the first ten matching stations, or all of them when fewer match, in list order; each answer matches in name or city; when at most ten match, all of them are answered |
| StationsRoute.SearchEmptyQuery | app/api/stations/route.ts:18-27 | the empty query keeps a list of at most ten stations whole |
| StationsRoute.Get | app/api/stations/route.ts:16-28 | over the fixture, which has ten stations, a station is answered iff its name or city contains the lower-cased query |
| StationsRoute.EmptyQueryGivesAll | app/api/stations/route.ts:18-27 | a missing or empty query answers every station, in order |
| StationsRoute.CaseInsensitive | app/api/stations/route.ts:18-25 | a query and its upper-cased form get the same answer |
| Api.Settle | lib/api.ts:39-60 | a successful, decodable response gives its body; a rejected call, a non-ok status or an undecodable body gives the fallback |
| Api.StationsUrl | lib/api.ts:40 | the stations URL is the fixed path and `?q=`, followed by the query, which can be read back from it |
| Api.FetchStations | lib/api.ts:38-61 | the URL requested is `StationsUrl(query)`; success gives the server's stations; on failure, a station of the three fallbacks is answered iff it matches the lower-cased query, in fallback order |
| Api.BookingsParamsShape | lib/api.ts:66-76 | the parameters of `BookingsParams` come in the order stationId, startDate, endDate; each is there iff its argument is truthy, and carries that argument's value |
| Api.Join | lib/api.ts:78 | the query string is empty iff there are no parameters |
| Api.JoinAppend | lib/api.ts:66-78 | for any number of earlier pairs, appending a pair appends `&` (unless it is the first) and `key=value` to the query string |
| Api.BookingsUrl | lib/api.ts:78 | the URL is the bare path iff no argument is truthy; otherwise it is the path, `?` and the joined parameters |
| Api.BuildBookingsUrl | lib/api.ts:66-78 | the successive `append`s build exactly that URL |
| Api.FallbackBookings | lib/api.ts:90-117 | two bookings at the requested station, or at stations 1 and 2 when none is requested |
| Api.FetchBookings | lib/api.ts:64-119 | the URL requested, and the server's bookings on success or the fallback bookings on any failure |
| Api.JoinThree | lib/api.ts:78 | three pairs join as `key=value`, separated by `&` |
| Api.FullQueryUrl | lib/api.ts:66-78 | with all three arguments the URL is `/api/bookings?stationId=..&startDate=..&endDate=..` |
| Api.EmptyQueryUrl | lib/api.ts:78 | with no argument, or only falsy ones, no `?` is added |
| Api.DetailsUrl | lib/api.ts:124 | the details URL is `/api/bookings/` followed by the booking id, which can be read back from it |
| Api.FallbackDetails | lib/api.ts:135-155 | the fallback record carries the requested id and no station objects |
| Api.FetchBookingDetails | lib/api.ts:122-157 | the URL requested is `DetailsUrl(bookingId)`; success gives the server's record; any failure gives the fallback record for the requested id |
| Api.RescheduleResult | lib/api.ts:185-197 | the mock result has the requested id, the moved event on the new day, the other event on the previous day, stations 1 and status confirmed |
| CalendarWeekView.MondayOffset | components/calendar-week-view.tsx:29-30 | the offset is between -6 and 0 and lands on a Monday |
| CalendarWeekView.WeekStart | components/calendar-week-view.tsx:27-35 | the week start is a Monday, at most six days before the anchor |
| CalendarWeekView.WeekStartUnique | components/calendar-week-view.tsx:27-35 | it is the only such Monday |
| CalendarWeekView.WeekStartShift | components/calendar-week-view.tsx:141-145 | moving the anchor by whole weeks moves the week start by the same amount |
| CalendarWeekView.WeekStartIdempotent | components/calendar-week-view.tsx:27-35 | a Monday is its own week start |
| CalendarWeekView.BookingsOn | components/calendar-week-view.tsx:147-154 | a day lists exactly the bookings picked up or returned on it, in list order, each as often as in the list |
| CalendarWeekView.Badges | components/calendar-week-view.tsx:301-325 | a card draws a badge for exactly the events on its day; it draws both, pickup first, exactly when the booking starts and ends that day |
| CalendarWeekView.BadgesMatchListing | components/calendar-week-view.tsx:301-325 | a booking is listed under a day iff its card there draws at least one badge, and every badge drawn is for an event on that day (the origin a drag from it records) |
| CalendarWeekView.MoveEvent | components/calendar-week-view.tsx:121-131 | same length; the booking with the dragged id has the event moved and nothing else changed; others stay as they were |
| CalendarWeekView.RescheduledDate | components/calendar-week-view.tsx:189-193 | a booking without an overlay entry reads no rescheduled date; one with an entry reads that entry's pickup or return date, by the kind asked |
| CalendarWeekView.DropAction | components/calendar-week-view.tsx:107-108 | a drop dispatches a reschedule of the dragged booking that gives the new day for the moved event and `undefined` for the other |
| CalendarWeekView.DropMarksOnlyMovedEvent | components/calendar-week-view.tsx:107-108 | after a drop, the moved event reads the new day, the other event of that booking reads none, and every other booking reads as before |
| CalendarWeekView.WeekView.constructor | components/calendar-week-view.tsx:27-40 | the component mounts on the Monday of today's week, with nothing loaded or dragged |
| CalendarWeekView.WeekView.WeekDays | components/calendar-week-view.tsx:42-50 | seven consecutive days from the week start, Monday to Sunday |
| CalendarWeekView.WeekView.WeekRange | components/calendar-week-view.tsx:56-59 | the requested range runs from a Monday to the Sunday six days later |
| CalendarWeekView.WeekView.NavigateWeek | components/calendar-week-view.tsx:141-145 | the window moves by seven days either way, still starts on a Monday, and nothing else changes |
| CalendarWeekView.WeekView.BeginLoad | components/calendar-week-view.tsx:52-54 | loading is switched on |
| CalendarWeekView.WeekView.FinishLoad | components/calendar-week-view.tsx:62-70 | the list becomes the fetched bookings, or empty when the fetch threw, and loading ends |
| CalendarWeekView.WeekView.HandleDragStart | components/calendar-week-view.tsx:76-81 | the drag records the booking, the event and the day it came from |
| CalendarWeekView.WeekView.HandleDragOver | components/calendar-week-view.tsx:83-87 | the day under the pointer is highlighted |
| CalendarWeekView.WeekView.HandleDragLeave | components/calendar-week-view.tsx:89-92 | no day is highlighted |
| CalendarWeekView.WeekView.HandleDragEnd | components/calendar-week-view.tsx:136-139 | no drag and no highlight remain |
| CalendarWeekView.WeekView.HandleDrop | components/calendar-week-view.tsx:94-134 | the highlight and the drag end; with no drag, or on the original day, store and list are unchanged; otherwise the store applies the reschedule and the list moves the event |
| CalendarWeekView.NavigateThereAndBack | components/calendar-week-view.tsx:141-145 | next then previous shows the same week again |
| CalendarWeekView.DragPickupScenario | components/calendar-week-view.tsx:94-134 | dragging a pickup to another day marks the pickup as moved in the overlay and the return as not moved |
| Autocomplete.NextIndex | components/autocomplete.tsx:74 | ArrowDown moves to the next option and wraps from the last to the first; from no highlight it goes to the first |
| Autocomplete.PrevIndex | components/autocomplete.tsx:78 | ArrowUp moves to the previous option and wraps from the first to the last; from no highlight it goes to the last |
| Autocomplete.UpUndoesDown | components/autocomplete.tsx:72-78 | on a highlighted option, ArrowDown and ArrowUp undo each other |
| Autocomplete.DownPressesCompose | components/autocomplete.tsx:72-75 | `a` presses and then `b` more are `a + b` presses |
| Autocomplete.DownPressesAdvance | components/autocomplete.tsx:74 | before the end of the list each press moves one place down |
| Autocomplete.FullCycleReturns | components/autocomplete.tsx:72-75 | `n` presses over `n` options come back to the starting option |
| Autocomplete.QueryChanged | components/autocomplete.tsx:44-64 | an unchanged query changes nothing; a blank new query clears the options and arms no timer; any other new query arms the timer for itself |
| Autocomplete.Typed | components/autocomplete.tsx:44-64 | after a run of edits the query is the last text typed |
| Autocomplete.TypedKeepsPendingCurrent | components/autocomplete.tsx:50-63 | an armed timer always belongs to the current query |
| Autocomplete.OnlyLatestQueryPending | components/autocomplete.tsx:50-63 | after a burst of edits only the last text can still be waiting for its fetch |
| Autocomplete.Widget.constructor | components/autocomplete.tsx:33-37 | mounting: closed, nothing highlighted, selected or fetched, and the query synced to `LabelOf` the selected option |
| Autocomplete.Widget.SetQuery | components/autocomplete.tsx:44-64 | the search state moves as `QueryChanged` says, and the widget invariant is kept |
| Autocomplete.Widget.TimerFires | components/autocomplete.tsx:50-61 | with a pending query: one fetch for it, and its answer (empty on rejection) becomes the options; without one: nothing happens |
| Autocomplete.Widget.HandleInputChange | components/autocomplete.tsx:123-128 | the query changes as typed, and the dropdown is open afterwards iff it was open or the text is not blank |
| Autocomplete.Widget.HandleSelect | components/autocomplete.tsx:109-114 | one `onSelect(option)` call; the query becomes its label; closed, nothing highlighted |
| Autocomplete.Widget.HandleClear | components/autocomplete.tsx:116-121 | one `onSelect(null)` call; an empty query, no options, no timer |
| Autocomplete.Widget.SyncSelectedValue | components/autocomplete.tsx:131-137 | the query follows `LabelOf` the externally selected option: its label, or empty for none |
| Autocomplete.Widget.HandleMouseEnter | components/autocomplete.tsx:190 | the hovered option is highlighted |
| Autocomplete.Widget.HandleKeyDown | components/autocomplete.tsx:66-95 | closed: nothing; arrows move the highlight round the list; Enter selects the highlighted option as `HandleSelect` does, or does nothing without one; Escape closes; other keys are ignored |
| Autocomplete.TypingBurstFetchesOnce | components/autocomplete.tsx:44-64 | three keystrokes within the debounce window lead to one fetch, for the final text |
| HomePage.FetchStationsForAutocomplete | app/page.tsx:10-17 | one option per station fetched (`AsOption`), in order, with the station's id and its name as label and value |
| HomePage.BookingClickShowsDetail | app/page.tsx:22-26 | a booking click selects the booking and makes `ShowsBookingDetail`, the page's guard at line 37, hold for it; nothing else changes |
| HomePage.BackToCalendarShowsCalendar | app/page.tsx:28-31 | going back shows the calendar with no booking selected, so `ShowsBookingDetail` fails; nothing else changes |
| HomePage.ClickThenBack | app/page.tsx:22-31 | a click followed by going back leaves the store as it was, with the calendar shown and no booking selected |
| HomePage.HandleBookingClick | app/page.tsx:22-26 | the two dispatches leave the page drawing the detail view of the clicked booking |
| HomePage.HandleBackToCalendar | app/page.tsx:28-31 | the two dispatches leave the page drawing the calendar |
| HomePage.HandleStationSelect | app/page.tsx:33-35 | only the selected station changes |

## Left out

- Network, `async`/`await`, the simulated latencies and `console` output are left out. Each server reply is an input (`Api.Reply`): a rejected call, or a response with its `ok` flag and its decoded body.
- The request body and URL that `rescheduleBooking` and `handleDrop` only log are left out. `rescheduleBooking` is modelled by the booking it resolves to.
- Dates are day numbers. `toISOString`, `toLocaleDateString`, the local time zone and `setHours` are not modelled. Neither are the month-name formatting of `formatWeekRange` and `isToday`. The route's `new Date(...)` comparisons become comparisons of day numbers.
- Percent-encoding (`encodeURIComponent`, `URLSearchParams`) is not modelled: keys and values are joined as they are.
- Text.Lower: only ASCII letters are case-mapped, unlike JavaScript's full Unicode `toLowerCase`. The fixture's `ü` is not affected.
- Text.IsBlank approximates `trim()` by the JavaScript white-space and line-terminator characters, listed one by one.
- Ids are integers in the option record (`Domain.LabeledOption`) and the booking station fields, as the API's `Station` declares them. The store's type calls the station id a string. `Number.parseInt` of a non-numeric `stationId` (`NaN`, which matches nothing) is not modelled. `BookingsRoute.Select` takes the already-parsed id.
- BookingsRoute.Get: the route's parameters are taken as already parsed. An empty parameter counts as missing, as its falsy check does.
- The calendar's load effect (calendar-week-view.tsx:52-74) is modelled by `BeginLoad` and `FinishLoad`. The `fetchBookings` call between them is `Api.FetchBookings`. Re-running the effect on a new station or week is not modelled as an event of its own. Neither is a late response overwriting a newer one.
- Autocomplete.Widget.TimerFires: the fetch and its answer happen in one step. The `loading` flag and a late answer arriving after the query changed are not modelled. The effect's dependency on `fetchOptions` is not modelled either; the model re-runs it only when the query changes.
- Autocomplete.Widget: the dropdown is not reopened on focus (components/autocomplete.tsx:149) and not closed by a click outside (components/autocomplete.tsx:98-107). In the model `isOpen` changes only through input, selection and Escape. Since `isOpen` gates the keyboard handling, the model does not capture key presses ignored after a click outside, or handled after a refocus.
- Moving the browser's focus (`focus`, `blur`) is left out. So are the `dataTransfer` calls, whose drag data the component never reads back.
- React rendering, the context provider, and the error `useBookingStore` throws outside a provider are left out. `BookingStore.Store` is the `useReducer` cell itself.
- components/booking-detail-view.tsx, app/api/bookings/[id]/route.ts, app/layout.tsx and the ui components are not part of this model.
- Some of the repository's tests expect what the code does not do. They are not modelled:
  - the booking-context test expects an overlay entry without the `bookingId` the payload spread copies into it;
  - the api test expects the stations URL with `query=` instead of `q=`, an empty list where the code answers fallback stations, and `null` where the code answers the fallback details.

/** The records shared by the dashboard's modules (lib/api.ts declares `Station` and
    `Booking`; the `{id, label, value}` shape is what lib/store/booking-context.tsx calls
    `Station` and components/autocomplete.tsx calls `AutocompleteOption`), and calendar days. */
module Domain {
  import opened Text

  /** A calendar day, counted from 1970-01-01 (day 0, a Thursday). The source's
      `YYYY-MM-DD` strings and local-midnight `Date` values both stand for one of these. */
  type Day = int

  /** `Date.getDay()`: 0 is Sunday, 1 Monday, ..., 6 Saturday. */
  function Weekday(d: Day): (w: int)
    ensures 0 <= w < 7
    ensures w == 0 <==> d % 7 == 3
  {
    (d + 4) % 7
  }

  /** The next day is the next weekday, Saturday (6) being followed by Sunday (0). */
  lemma WeekdayNext(d: Day)
    ensures Weekday(d + 1) == (Weekday(d) + 1) % 7
  {
    assert d + 1 + 4 == (d + 4) + 1;
  }

  /** A week later is the same weekday. */
  lemma WeekdayPeriodic(d: Day, k: int)
    ensures Weekday(d + 7 * k) == Weekday(d)
  {
    assert (d + 7 * k + 4) == (d + 4) + 7 * k;
  }

  /** A rental station as the API returns it. */
  datatype Station = Station(id: int, name: string, city: string, country: string)

  datatype Status = Confirmed | Pending | Completed

  /** One reservation: it occupies its pickup day `startDate` and its return day `endDate`. */
  datatype Booking = Booking(
    id: string,
    customerName: string,
    startDate: Day,
    endDate: Day,
    pickupStationId: int,
    returnStationId: int,
    vehicleModel: string,
    vehiclePlate: string,
    status: Status,
    pickupTime: string,
    returnTime: string)

  /** A selectable option: an id, the text shown (the source's `label`, a reserved word
      in Dafny) and the value behind it. */
  datatype LabeledOption = LabeledOption(id: int, caption: string, value: string)

  /** Which of a booking's two calendar events is meant. */
  datatype EventKind = Pickup | Return {
    function Other(): EventKind {
      if Pickup? then Return else Pickup
    }
  }

  /** The day on which event `kind` of `b` takes place. */
  function EventDate(b: Booking, kind: EventKind): Day {
    if kind == Pickup then b.startDate else b.endDate
  }

  /** `b` with event `kind` moved to day `d` (`{...booking, [startDate|endDate]: d}`). */
  function WithEventDate(b: Booking, kind: EventKind, d: Day): (r: Booking)
    ensures EventDate(r, kind) == d
    ensures EventDate(r, kind.Other()) == EventDate(b, kind.Other())
    ensures r.(startDate := b.startDate, endDate := b.endDate) == b
  {
    if kind == Pickup then b.(startDate := d) else b.(endDate := d)
  }

  /** The case-insensitive search both the stations route and its client fallback apply:
      the lower-cased name or the lower-cased city contains `loweredQuery`. */
  predicate NameOrCityContains(s: Station, loweredQuery: string) {
    Contains(Lower(s.name), loweredQuery) || Contains(Lower(s.city), loweredQuery)
  }

  /** The empty query is contained in every name. */
  lemma EmptyQueryMatches(s: Station)
    ensures NameOrCityContains(s, "")
  {
    assert OccursAt(Lower(s.name), "", 0);
  }
}

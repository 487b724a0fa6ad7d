/** The mock `GET /api/bookings` route of app/api/bookings/route.ts: a fixed list of six
    bookings, narrowed by an optional station id and an optional date range. */
module BookingsRoute {
  import opened Wrappers
  import opened Seqs
  import opened Domain

  /** The route's fixture. Days: 20315 is 2025-08-15, ..., 20330 is 2025-08-30. */
  function Fixture(): (bs: seq<Booking>)
    ensures |bs| == 6
  {
    [ Booking("BK001", "John Smith", 20315, 20322, 1, 1, "VW California Ocean", "B-VW 1234", Confirmed, "10:00", "16:00"),
      Booking("BK002", "Sarah Johnson", 20316, 20320, 1, 2, "Mercedes Marco Polo", "M-MB 5678", Confirmed, "14:00", "11:00"),
      Booking("BK003", "Mike Wilson", 20317, 20324, 1, 1, "Ford Transit Custom", "B-FD 9012", Pending, "09:00", "18:00"),
      Booking("BK004", "Emma Davis", 20318, 20321, 2, 1, "Peugeot Boxer", "M-PG 3456", Confirmed, "12:00", "15:00"),
      Booking("BK005", "David Brown", 20319, 20326, 1, 3, "Fiat Ducato", "B-FT 7890", Confirmed, "08:00", "17:00"),
      Booking("BK006", "Lisa Anderson", 20325, 20330, 2, 2, "Renault Master", "B-RN 2468", Confirmed, "11:00", "14:00") ]
  }

  /** Every fixture booking is returned no earlier than it is picked up, and ids are distinct. */
  lemma FixtureWellFormed()
    ensures forall i :: 0 <= i < |Fixture()| ==> Fixture()[i].startDate <= Fixture()[i].endDate
    ensures forall i, j :: 0 <= i < j < |Fixture()| ==> Fixture()[i].id != Fixture()[j].id
  {
  }

  /** The booking is picked up or returned at station `id`. */
  predicate AtStation(b: Booking, id: int) {
    b.pickupStationId == id || b.returnStationId == id
  }

  /** The closed interval [startDate, endDate] of the booking meets [rangeStart, rangeEnd]. */
  predicate Overlaps(b: Booking, rangeStart: Day, rangeEnd: Day) {
    b.startDate <= rangeEnd && b.endDate >= rangeStart
  }

  /** A booking passes both of the route's filters: it is at the station, when one is
      given, and it overlaps the range, when both bounds are given. */
  predicate Wanted(b: Booking, stationId: Option<int>, startDate: Option<Day>, endDate: Option<Day>) {
    && (stationId.Some? ==> AtStation(b, stationId.value))
    && (startDate.Some? && endDate.Some? ==> Overlaps(b, startDate.value, endDate.value))
  }

  /** `Wanted` as a filter predicate. */
  function WantedBy(stationId: Option<int>, startDate: Option<Day>, endDate: Option<Day>): Booking -> bool {
    b => Wanted(b, stationId, startDate, endDate)
  }

  /** The station filter of line 97 as a filter predicate. */
  function AtStationBy(id: int): Booking -> bool {
    b => AtStation(b, id)
  }

  /** The range filter of lines 103-110 as a filter predicate. */
  function OverlapsBy(rangeStart: Day, rangeEnd: Day): Booking -> bool {
    b => Overlaps(b, rangeStart, rangeEnd)
  }

  /** The route's two filters in turn, by station when one is given and then by range
      when both bounds are given. */
  function TwoStage(bs: seq<Booking>, stationId: Option<int>, startDate: Option<Day>, endDate: Option<Day>): seq<Booking> {
    var byStation := if stationId.Some? then Filter(bs, AtStationBy(stationId.value)) else bs;
    if startDate.Some? && endDate.Some? then Filter(byStation, OverlapsBy(startDate.value, endDate.value))
    else byStation
  }

  /** Filtering twice is filtering once by both conditions. */
  lemma TwoStageIsOneFilter(bs: seq<Booking>, stationId: Option<int>, startDate: Option<Day>, endDate: Option<Day>)
    ensures TwoStage(bs, stationId, startDate, endDate) == Filter(bs, WantedBy(stationId, startDate, endDate))
  {
    var wanted := WantedBy(stationId, startDate, endDate);
    if startDate.Some? && endDate.Some? {
      var inRange := OverlapsBy(startDate.value, endDate.value);
      if stationId.Some? {
        FilterFilter(bs, AtStationBy(stationId.value), inRange, wanted);
      } else {
        FilterCongruent(bs, inRange, wanted);
      }
    } else if stationId.Some? {
      FilterCongruent(bs, AtStationBy(stationId.value), wanted);
    } else {
      FilterAll(bs, wanted);
    }
  }

  /** The filtering of `GET` over any list of bookings. `stationId` is the parsed
      `stationId` parameter, `None` when it is missing or empty; `startDate` and `endDate` are
      the parsed range bounds, `None` when missing or empty. The answer is that of one filter
      by both conditions, so it keeps the list order and every copy of a booking that passes. */
  function Select(bs: seq<Booking>, stationId: Option<int>, startDate: Option<Day>, endDate: Option<Day>): (r: seq<Booking>)
    ensures r == Filter(bs, WantedBy(stationId, startDate, endDate))
    ensures IsSubsequence(r, bs)
    ensures forall b :: b in r <==> b in bs && Wanted(b, stationId, startDate, endDate)
    ensures forall b :: multiset(r)[b] == if Wanted(b, stationId, startDate, endDate) then multiset(bs)[b] else 0
  {
    TwoStageIsOneFilter(bs, stationId, startDate, endDate);
    TwoStage(bs, stationId, startDate, endDate)
  }

  /** `GET /api/bookings` over the fixture. */
  function Get(stationId: Option<int>, startDate: Option<Day>, endDate: Option<Day>): (r: seq<Booking>)
    ensures |r| <= |Fixture()|
  {
    Select(Fixture(), stationId, startDate, endDate)
  }

  /** Without parameters the route answers the whole fixture, in order. */
  lemma NoParametersGivesAll()
    ensures Get(None, None, None) == Fixture()
  {
  }

  /** A single range bound is ignored. */
  lemma OneBoundIgnored(stationId: Option<int>, bound: Day)
    ensures Get(stationId, Some(bound), None) == Get(stationId, None, None)
    ensures Get(stationId, None, Some(bound)) == Get(stationId, None, None)
  {
  }
}

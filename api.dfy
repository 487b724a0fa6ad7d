/** The client helpers of lib/api.ts. Each fetch turns a failed request (the network
    call rejects, the status is not ok, or the body is not JSON) into fallback data. The
    reply the server gives is an input. */
module Api {
  import opened Wrappers
  import opened Seqs
  import opened Text
  import opened Domain

  /** What `fetch` produced: a rejected call, or a response with its `ok` flag and its
      body decoded by `response.json()` (`None` when decoding throws). */
  datatype Reply<T> = NetworkError | Response(ok: bool, json: Option<T>)

  /** What a fetch helper did: the URL it requested and the value it resolved to. */
  datatype Fetched<T> = Fetched(url: string, answer: T)

  /** The request succeeded and the body decoded. */
  predicate Succeeded<T>(reply: Reply<T>) {
    reply.Response? && reply.ok && reply.json.Some?
  }

  /** The `try { ... return data } catch { return fallback }` shape shared by the fetches:
      the decoded body on success; the fallback on any failure, a non-ok status included. */
  function Settle<T>(reply: Reply<T>, fallback: T): (r: T)
    ensures Succeeded(reply) ==> r == reply.json.value
    ensures !Succeeded(reply) ==> r == fallback
    ensures reply.Response? && !reply.ok ==> r == fallback
  {
    if Succeeded(reply) then reply.json.value else fallback
  }

  // ---------------------------------------------------------------------------------
  // fetchStations

  /** `/api/stations?q=<query>` (percent-encoding is not modelled). */
  function StationsUrl(query: string): (url: string)
    ensures |url| == |StationsPath| + |query|
    ensures url[..|StationsPath|] == StationsPath && url[|StationsPath|..] == query
  {
    StationsPath + query
  }

  const StationsPath: string := "/api/stations?q="

  /** The three stations answered when the stations request fails. */
  function FallbackStations(): seq<Station> {
    [ Station(1, "Berlin Central Station", "Berlin", "Germany"),
      Station(2, "Munich Airport Hub", "Munich", "Germany"),
      Station(3, "Hamburg Port Terminal", "Hamburg", "Germany") ]
  }

  /** `fetchStations(query)`: it requests `StationsUrl(query)`. On failure it answers the
      fallback stations whose lower-cased name or city contains the lower-cased query, in
      their order. */
  function FetchStations(query: string, reply: Reply<seq<Station>>): (r: Fetched<seq<Station>>)
    ensures r.url == StationsUrl(query)
    ensures Succeeded(reply) ==> r.answer == reply.json.value
    ensures !Succeeded(reply) ==>
              && IsSubsequence(r.answer, FallbackStations())
              && forall s :: s in r.answer <==> s in FallbackStations() && NameOrCityContains(s, Lower(query))
  {
    Fetched(StationsUrl(query), Settle(reply, Filter(FallbackStations(), s => NameOrCityContains(s, Lower(query)))))
  }

  // ---------------------------------------------------------------------------------
  // fetchBookings

  /** One `key=value` pair of a `URLSearchParams`. */
  datatype Param = Param(key: string, value: string)

  /** A JavaScript number is truthy unless it is 0 (`NaN` does not arise from the model's ids). */
  predicate IdGiven(stationId: Option<int>) {
    stationId.Some? && stationId.value != 0
  }

  /** A string is truthy unless it is empty. */
  predicate TextGiven(text: Option<string>) {
    text.Some? && text.value != ""
  }

  /** The keys of a parameter list, in order. */
  function Keys(ps: seq<Param>): (ks: seq<string>)
    ensures |ks| == |ps|
    ensures forall i :: 0 <= i < |ps| ==> ks[i] == ps[i].key
  {
    if ps == [] then [] else [ps[0].key] + Keys(ps[1..])
  }

  /** The pairs `fetchBookings` appends: each parameter only when it is truthy, in the
      order stationId, startDate, endDate. */
  function BookingsParams(stationId: Option<int>, startDate: Option<string>, endDate: Option<string>): seq<Param> {
    StationPart(stationId) + TextPart("startDate", startDate) + TextPart("endDate", endDate)
  }

  /** The parameters come in the order stationId, startDate, endDate; each is there exactly
      when its argument is truthy, and carries that argument's value. */
  lemma BookingsParamsShape(stationId: Option<int>, startDate: Option<string>, endDate: Option<string>)
    ensures var ps := BookingsParams(stationId, startDate, endDate);
            && IsSubsequence(Keys(ps), ["stationId", "startDate", "endDate"])
            && ("stationId" in Keys(ps) <==> IdGiven(stationId))
            && ("startDate" in Keys(ps) <==> TextGiven(startDate))
            && ("endDate" in Keys(ps) <==> TextGiven(endDate))
            && forall p :: p in ps ==>
                 && (p.key == "stationId" ==> p.value == IntToString(stationId.value))
                 && (p.key == "startDate" ==> p.value == startDate.value)
                 && (p.key == "endDate" ==> p.value == endDate.value)
  {
    var a, b, c := StationPart(stationId), TextPart("startDate", startDate), TextPart("endDate", endDate);
    assert BookingsParams(stationId, startDate, endDate) == a + b + c;
    DistinctParamNames();
    KeysOfThree(a, b, c, "stationId", "startDate", "endDate");
    KeysPresent(a, b, c, "stationId", "startDate", "endDate");
    PartOfKey(a, b, c, "stationId", "startDate", "endDate");
  }

  /** The pair for the station id: present exactly when the id is truthy. */
  function StationPart(stationId: Option<int>): (a: seq<Param>)
    ensures |a| <= 1 && (a != [] <==> IdGiven(stationId))
    ensures a != [] ==> a[0] == Param("stationId", IntToString(stationId.value))
  {
    if IdGiven(stationId) then [Param("stationId", IntToString(stationId.value))] else []
  }

  /** The pair for a text parameter: present exactly when the text is truthy. */
  function TextPart(key: string, text: Option<string>): (b: seq<Param>)
    ensures |b| <= 1 && (b != [] <==> TextGiven(text))
    ensures b != [] ==> b[0] == Param(key, text.value)
  {
    if TextGiven(text) then [Param(key, text.value)] else []
  }

  /** The three parameter names differ. */
  lemma DistinctParamNames()
    ensures "stationId" != "startDate" && "stationId" != "endDate" && "startDate" != "endDate"
  {
    assert "stationId"[3] != "startDate"[3];
  }

  /** In a list of at most one pair per key, for three distinct keys, a key is present
      exactly when its pair is. */
  lemma KeysPresent(a: seq<Param>, b: seq<Param>, c: seq<Param>, k1: string, k2: string, k3: string)
    requires k1 != k2 && k1 != k3 && k2 != k3
    requires |a| <= 1 && |b| <= 1 && |c| <= 1
    requires a != [] ==> a[0].key == k1
    requires b != [] ==> b[0].key == k2
    requires c != [] ==> c[0].key == k3
    ensures k1 in Keys(a + b + c) <==> a != []
    ensures k2 in Keys(a + b + c) <==> b != []
    ensures k3 in Keys(a + b + c) <==> c != []
  {
    KeysAppend(a + b, c);
    KeysAppend(a, b);
    assert Keys(a + b + c) == Keys(a) + Keys(b) + Keys(c);
    assert Keys(a) == (if a == [] then [] else [k1]);
    assert Keys(b) == (if b == [] then [] else [k2]);
    assert Keys(c) == (if c == [] then [] else [k3]);
  }

  /** A pair with one of the three keys comes from that key's part. */
  lemma PartOfKey(a: seq<Param>, b: seq<Param>, c: seq<Param>, k1: string, k2: string, k3: string)
    requires k1 != k2 && k1 != k3 && k2 != k3
    requires |a| <= 1 && |b| <= 1 && |c| <= 1
    requires a != [] ==> a[0].key == k1
    requires b != [] ==> b[0].key == k2
    requires c != [] ==> c[0].key == k3
    ensures forall p :: p in a + b + c ==> (p.key == k1 ==> p in a) && (p.key == k2 ==> p in b) && (p.key == k3 ==> p in c)
  {
    forall p | p in a + b + c
      ensures (p.key == k1 ==> p in a) && (p.key == k2 ==> p in b) && (p.key == k3 ==> p in c)
    {
      assert p in a || p in b || p in c;
    }
  }

  /** The keys of two lists one after the other are their keys one after the other. */
  lemma {:induction false} KeysAppend(x: seq<Param>, y: seq<Param>)
    ensures Keys(x + y) == Keys(x) + Keys(y)
    decreases |x|
  {
    if x != [] {
      assert (x + y)[1..] == x[1..] + y;
      KeysAppend(x[1..], y);
    } else {
      assert x + y == y;
    }
  }

  /** The keys of such a list come in the order `k1`, `k2`, `k3`. */
  lemma KeysOfThree(a: seq<Param>, b: seq<Param>, c: seq<Param>, k1: string, k2: string, k3: string)
    requires |a| <= 1 && |b| <= 1 && |c| <= 1
    requires a != [] ==> a[0].key == k1
    requires b != [] ==> b[0].key == k2
    requires c != [] ==> c[0].key == k3
    ensures IsSubsequence(Keys(a + b + c), [k1, k2, k3])
  {
    var all := [k1, k2, k3];
    var tail := Keys(b + c);
    assert IsSubsequence(Keys(c), all[2..]) by {
      EmptyIsSubsequence(all[2..][1..]);
      if c == [] { EmptyIsSubsequence(all[2..]); }
      else { assert Keys(c)[1..] == []; }
    }
    assert IsSubsequence(tail, all[1..]) by {
      if b == [] { assert tail == Keys(c); }
      else { assert tail[1..] == Keys(c); }
    }
    if a == [] {
      assert Keys(a + b + c) == tail;
      assert b + c == a + b + c;
    } else {
      assert Keys(a + b + c)[1..] == tail;
    }
  }

  /** `params.toString()`: the pairs as `key=value`, joined by `&` (no percent-encoding). */
  function Join(ps: seq<Param>): (r: string)
    ensures ps == [] <==> r == ""
  {
    if ps == [] then ""
    else if |ps| == 1 then ps[0].key + "=" + ps[0].value
    else ps[0].key + "=" + ps[0].value + "&" + Join(ps[1..])
  }

  const BookingsPath: string := "/api/bookings"

  /** The URL `fetchBookings` requests: the bare path when no parameter is truthy, otherwise
      the path, `?` and the joined parameters. */
  function BookingsUrl(stationId: Option<int>, startDate: Option<string>, endDate: Option<string>): (url: string)
    ensures url == BookingsPath <==> !IdGiven(stationId) && !TextGiven(startDate) && !TextGiven(endDate)
    ensures url != BookingsPath ==> url == BookingsPath + "?" + Join(BookingsParams(stationId, startDate, endDate))
  {
    var ps := BookingsParams(stationId, startDate, endDate);
    if ps == [] then BookingsPath else BookingsPath + "?" + Join(ps)
  }

  /** The URL built as `fetchBookings` does it: successive `append`s to one parameter list. */
  method BuildBookingsUrl(stationId: Option<int>, startDate: Option<string>, endDate: Option<string>) returns (url: string)
    ensures url == BookingsUrl(stationId, startDate, endDate)
  {
    var params: seq<Param> := [];
    if IdGiven(stationId) {
      params := params + [Param("stationId", IntToString(stationId.value))];
    }
    if TextGiven(startDate) {
      params := params + [Param("startDate", startDate.value)];
    }
    if TextGiven(endDate) {
      params := params + [Param("endDate", endDate.value)];
    }
    assert params == BookingsParams(stationId, startDate, endDate);
    var query := Join(params);
    url := if query != "" then BookingsPath + "?" + query else BookingsPath;
  }

  /** The two bookings answered when the bookings request fails; they are placed at the
      requested station (`stationId || 1`, and `stationId || 2` for the second return). */
  function FallbackBookings(stationId: Option<int>): (bs: seq<Booking>)
    ensures |bs| == 2
    ensures bs[0].pickupStationId == bs[0].returnStationId == bs[1].pickupStationId
              == (if IdGiven(stationId) then stationId.value else 1)
    ensures bs[1].returnStationId == (if IdGiven(stationId) then stationId.value else 2)
  {
    var s := if IdGiven(stationId) then stationId.value else 1;
    var s2 := if IdGiven(stationId) then stationId.value else 2;
    [ Booking("BK001", "John Smith", 19737, 19744, s, s, "VW California Ocean", "B-VW 1234", Confirmed, "10:00", "16:00"),
      Booking("BK002", "Sarah Johnson", 19738, 19740, s, s2, "Mercedes Marco Polo", "M-MB 5678", Pending, "14:00", "11:00") ]
  }

  /** `fetchBookings(stationId?, startDate?, endDate?)`: the URL requested and the bookings
      returned for the server's `reply`. */
  method FetchBookings(stationId: Option<int>, startDate: Option<string>, endDate: Option<string>, reply: Reply<seq<Booking>>)
    returns (url: string, bookings: seq<Booking>)
    ensures url == BookingsUrl(stationId, startDate, endDate)
    ensures Succeeded(reply) ==> bookings == reply.json.value
    ensures !Succeeded(reply) ==> bookings == FallbackBookings(stationId)
  {
    url := BuildBookingsUrl(stationId, startDate, endDate);
    bookings := Settle(reply, FallbackBookings(stationId));
  }

  /** Appending a pair to the parameters appends `&` (unless it is the first) and
      `key=value` to the query string, whatever the number of pairs before it. */
  lemma {:induction false} JoinAppend(ps: seq<Param>, p: Param)
    ensures Join(ps + [p]) == (if ps == [] then "" else Join(ps) + "&") + p.key + "=" + p.value
    decreases |ps|
  {
    if ps == [] {
      assert ps + [p] == [p];
    } else if |ps| == 1 {
      assert ps + [p] == [ps[0], p];
      assert (ps + [p])[1..] == [p];
    } else {
      assert (ps + [p])[1..] == ps[1..] + [p];
      JoinAppend(ps[1..], p);
    }
  }

  /** Three pairs joined: each as `key=value`, separated by `&`. */
  lemma JoinThree(p: Param, q: Param, r: Param)
    ensures Join([p, q, r]) == p.key + "=" + p.value + "&" + q.key + "=" + q.value + "&" + r.key + "=" + r.value
  {
    var ps := [p, q, r];
    assert ps[1..] == [q, r] && ps[1..][1..] == [r];
    var x := p.key + "=" + p.value;
    var y := q.key + "=" + q.value;
    var z := r.key + "=" + r.value;
    assert Join([q, r]) == y + "&" + z;
    assert Join(ps) == x + "&" + (y + "&" + z);
  }

  /** A query with every parameter: all three pairs in order, joined by `&`. */
  lemma FullQueryUrl(id: nat, start: string, end: string)
    requires id != 0 && start != "" && end != ""
    ensures BookingsUrl(Some(id), Some(start), Some(end))
            == BookingsPath + "?" + ("stationId" + "=" + NatToString(id) + "&" + "startDate" + "=" + start + "&" + "endDate" + "=" + end)
  {
    var ps := [Param("stationId", NatToString(id)), Param("startDate", start), Param("endDate", end)];
    assert BookingsParams(Some(id), Some(start), Some(end)) == ps;
    JoinThree(ps[0], ps[1], ps[2]);
  }

  /** Without parameters no `?` is added. */
  lemma EmptyQueryUrl()
    ensures BookingsUrl(None, None, None) == "/api/bookings"
    ensures BookingsUrl(Some(0), Some(""), Some("")) == "/api/bookings"
  {
  }

  // ---------------------------------------------------------------------------------
  // fetchBookingDetails

  /** A booking with the fields only its detail view shows. */
  datatype BookingDetails = BookingDetails(
    booking: Booking,
    customerEmail: string,
    customerPhone: string,
    vehicleColor: string,
    totalPrice: int,
    currency: string,
    bookingDate: Day,
    specialRequests: string,
    insuranceType: string,
    pickupStation: Option<Station>,
    returnStation: Option<Station>)

  /** `/api/bookings/<id>`. */
  function DetailsUrl(bookingId: string): (url: string)
    ensures |url| == |BookingsPath| + 1 + |bookingId|
    ensures url[..|BookingsPath| + 1] == BookingsPath + "/" && url[|BookingsPath| + 1..] == bookingId
  {
    BookingsPath + "/" + bookingId
  }

  /** The record answered when the detail request fails: the requested id on otherwise
      fixed data (days 19737 and 19742 are 2024-01-15 and 2024-01-20). */
  function FallbackDetails(bookingId: string): (d: BookingDetails)
    ensures d.booking.id == bookingId
    ensures d.pickupStation.None? && d.returnStation.None?
  {
    BookingDetails(
      Booking(bookingId, "John Smith", 19737, 19742, 1, 1, "VW California Ocean", "B-VW 1234", Confirmed, "10:00", "16:00"),
      "john.smith@email.com", "+49 30 12345678", "White", 1890, "EUR", 19723,
      "Child seat required", "Premium Coverage", None, None)
  }

  /** `fetchBookingDetails(bookingId)`: it requests `DetailsUrl(bookingId)` and never
      answers null; a failure gives the fallback record for the requested id. */
  function FetchBookingDetails(bookingId: string, reply: Reply<BookingDetails>): (r: Fetched<BookingDetails>)
    ensures r.url == DetailsUrl(bookingId)
    ensures Succeeded(reply) ==> r.answer == reply.json.value
    ensures !Succeeded(reply) ==> r.answer == FallbackDetails(bookingId) && r.answer.booking.id == bookingId
  {
    Fetched(DetailsUrl(bookingId), Settle(reply, FallbackDetails(bookingId)))
  }

  // ---------------------------------------------------------------------------------
  // rescheduleBooking

  /** The mock booking `rescheduleBooking` resolves to: the requested id, the moved event
      on `newDate` and the other event on `previousDate`. */
  function RescheduleResult(bookingId: string, kind: EventKind, newDate: Day, previousDate: Day): (b: Booking)
    ensures b.id == bookingId
    ensures EventDate(b, kind) == newDate
    ensures EventDate(b, kind.Other()) == previousDate
    ensures b.pickupStationId == 1 && b.returnStationId == 1 && b.status == Confirmed
  {
    Booking(bookingId, "Updated Customer",
            if kind == Pickup then newDate else previousDate,
            if kind == Return then newDate else previousDate,
            1, 1, "Updated Vehicle", "XYZ-9876", Confirmed, "10:00", "16:00")
  }
}

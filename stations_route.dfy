/** The mock `GET /api/stations` route of app/api/stations/route.ts: a case-insensitive
    name-or-city search over ten fixed stations, answering at most ten of them. */
module StationsRoute {
  import opened Wrappers
  import opened Seqs
  import opened Text
  import opened Domain

  /** The route's fixture. */
  function Fixture(): (ss: seq<Station>)
    ensures |ss| == 10
  {
    [ Station(1, "Berlin Central Station", "Berlin", "Germany"),
      Station(2, "Munich Airport Hub", "Munich", "Germany"),
      Station(3, "Hamburg Port Terminal", "Hamburg", "Germany"),
      Station(4, "Frankfurt Main Station", "Frankfurt", "Germany"),
      Station(5, "Cologne Downtown", "Cologne", "Germany"),
      Station(6, "Stuttgart City Center", "Stuttgart", "Germany"),
      Station(7, "Düsseldorf Airport", "Düsseldorf", "Germany"),
      Station(8, "Leipzig Central", "Leipzig", "Germany"),
      Station(9, "Dresden Old Town", "Dresden", "Germany"),
      Station(10, "Nuremberg Station", "Nuremberg", "Germany") ]
  }

  /** The most stations one answer holds. */
  const MaxResults: nat := 10

  /** `searchParams.get("q")?.toLowerCase() || ""`: a missing parameter is the empty query. */
  function QueryOf(q: Option<string>): (r: string)
    ensures q.None? ==> r == ""
    ensures q.Some? ==> r == Lower(q.value)
  {
    match q
    case None => ""
    case Some(text) => Lower(text)
  }

  /** The stations of `ss` matching `query`, in their order. */
  function Matching(ss: seq<Station>, query: string): seq<Station> {
    Filter(ss, MatchesBy(query))
  }

  /** The name-or-city test as a filter predicate. */
  function MatchesBy(query: string): Station -> bool {
    s => NameOrCityContains(s, query)
  }

  /** The search over any list of stations: those matching the lower-cased query, in
      their original order, cut to the first `MaxResults`. */
  function Search(ss: seq<Station>, query: string): (r: seq<Station>)
    ensures |r| <= MaxResults
    ensures IsSubsequence(r, ss)
    ensures forall s :: s in r ==> s in ss && NameOrCityContains(s, query)
    ensures |Matching(ss, query)| <= MaxResults ==>
              forall s :: s in ss && NameOrCityContains(s, query) ==> s in r
    ensures var m := Matching(ss, query);
            |r| == (if |m| < MaxResults then |m| else MaxResults) && r == m[..|r|]
  {
    var matching := Matching(ss, query);
    var r := Take(matching, MaxResults);
    assert r == matching[..|r|];
    PrefixOfSubsequence(matching, ss, |r|);
    assert forall i :: 0 <= i < |r| ==> r[i] in matching;
    r
  }

  /** `GET /api/stations?q=...` over the fixture; `q` is the raw parameter. */
  function Get(q: Option<string>): (r: seq<Station>)
    ensures |r| <= MaxResults
    ensures IsSubsequence(r, Fixture())
    ensures forall s :: s in r <==> s in Fixture() && NameOrCityContains(s, QueryOf(q))
  {
    Search(Fixture(), QueryOf(q))
  }

  /** The empty query keeps a list of at most `MaxResults` stations whole. */
  lemma SearchEmptyQuery(ss: seq<Station>)
    requires |ss| <= MaxResults
    ensures Search(ss, "") == ss
  {
    forall i | 0 <= i < |ss| ensures MatchesBy("")(ss[i]) {
      EmptyQueryMatches(ss[i]);
    }
    FilterAll(ss, MatchesBy(""));
  }

  /** The empty or missing query answers every station, in fixture order. */
  lemma EmptyQueryGivesAll()
    ensures Get(None) == Fixture()
    ensures Get(Some("")) == Fixture()
  {
    SearchEmptyQuery(Fixture());
    assert QueryOf(Some("")) == "";
  }

  /** The search ignores case: a query and its upper-cased form get the same answer. */
  lemma CaseInsensitive(text: string)
    ensures Get(Some(Upper(text))) == Get(Some(text))
  {
    LowerOfUpper(text);
  }
}

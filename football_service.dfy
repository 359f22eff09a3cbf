/** The client football service as it runs in the demo: every query is
    answered from the sample collections, which are passed in here (loading
    them over HTTP is not modelled). Fixture dates are given both as text and
    as the timestamp `new Date(date).getTime()` yields for that text. */
module FootballService {
  import opened Common
  import opened Text
  import opened Seqs

  /** A fixture or team id as it appears in data and requests. */
  datatype Id = NumId(n: int) | TextId(s: string)

  /** `String(id)`. */
  function IdString(id: Id): string {
    match id
    case NumId(n) => IntToString(n)
    case TextId(s) => s
  }

  /** A sample fixture: `fixture.id`, `fixture.date`, and that date's
      timestamp, `None` when the text is not a date (NaN). */
  datatype Fixture = Fixture(id: Id, date: string, timestamp: Option<int>)

  /** The `date` parameter: falsy, a valid date whose ISO day is `day`
      ("YYYY-MM-DD"), or a truthy value that is not a date (on which
      `toISOString` throws). */
  datatype DateParam = NoDate | OnDay(day: string) | InvalidDate

  /** `from` and `to` are the timestamps of truthy parameters; `None` stands
      for an absent parameter and for one that is not a date (NaN), which
      the code treats alike. */
  datatype FixtureQuery = FixtureQuery(date: DateParam, from: Option<int>, to: Option<int>)

  /** `fromTs && ...`: a bound constrains only when it is a non-zero number. */
  predicate Constrains(bound: Option<int>) {
    bound.Some? && bound.value != 0
  }

  /** The window test: `ts < fromTs` and `ts > toTs` reject, so both ends are
      inclusive; a fixture whose date is not a date compares false and stays. */
  predicate InWindow(from: Option<int>, to: Option<int>, f: Fixture) {
    && (Constrains(from) && f.timestamp.Some? ==> f.timestamp.value >= from.value)
    && (Constrains(to) && f.timestamp.Some? ==> f.timestamp.value <= to.value)
  }

  /** Whether the query keeps `f`: the day filter when a date is given,
      otherwise the window. */
  predicate Keeps(q: FixtureQuery, f: Fixture) {
    match q.date
    case OnDay(day) => StartsWith(f.date, day)
    case _ => InWindow(q.from, q.to, f)
  }

  const InvalidTimeValue := "Invalid time value"

  /** `getFixtures(params)`: fails only on a date that is not a date;
      otherwise the fixtures the query keeps, in their order, or the whole
      sample when it keeps none. */
  function GetFixtures(sample: seq<Fixture>, q: FixtureQuery): (r: Result<seq<Fixture>, string>)
    ensures r.Failure? <==> q.date == InvalidDate
    ensures r.Failure? ==> r.error == InvalidTimeValue
    ensures r.Success? ==> IsSubsequence(r.value, sample)
    ensures r.Success? && (exists i :: 0 <= i < |sample| && Keeps(q, sample[i])) ==>
              (forall i :: 0 <= i < |r.value| ==> Keeps(q, r.value[i]))
              && (forall i :: 0 <= i < |sample| && Keeps(q, sample[i]) ==> sample[i] in r.value)
              && (forall f :: multiset(r.value)[f] == if Keeps(q, f) then multiset(sample)[f] else 0)
    ensures r.Success? && !(exists i :: 0 <= i < |sample| && Keeps(q, sample[i])) ==> r.value == sample
  {
    if q.date == InvalidDate then Failure(InvalidTimeValue)
    else
      var filtered := Filtered(sample, q);
      FilteredSpec(sample, q);
      SubsequenceRefl(sample);
      Success(if |filtered| > 0 then filtered else sample)
  }

  /** The filter `getFixtures` applies: by day when a date is given, by
      window when a bound is given, and none otherwise. */
  function Filtered(sample: seq<Fixture>, q: FixtureQuery): seq<Fixture> {
    if q.date.OnDay? then Filter(sample, (f: Fixture) => StartsWith(f.date, q.date.day))
    else if q.from.Some? || q.to.Some? then Filter(sample, (f: Fixture) => InWindow(q.from, q.to, f))
    else sample
  }

  /** The filtered list keeps, in order, every copy of each fixture the query
      keeps and nothing else. */
  lemma {:induction false} FilteredSpec(sample: seq<Fixture>, q: FixtureQuery)
    ensures var r := Filtered(sample, q);
      && IsSubsequence(r, sample)
      && (forall i :: 0 <= i < |r| ==> Keeps(q, r[i]))
      && (forall i :: 0 <= i < |sample| && Keeps(q, sample[i]) ==> sample[i] in r)
      && (forall f :: multiset(r)[f] == if Keeps(q, f) then multiset(sample)[f] else 0)
  {
    if q.date.OnDay? {
      var p := (f: Fixture) => StartsWith(f.date, q.date.day);
      FilterIsSubsequence(sample, p);
      FilterCounts(sample, p);
    } else if q.from.Some? || q.to.Some? {
      var p := (f: Fixture) => InWindow(q.from, q.to, f);
      FilterIsSubsequence(sample, p);
      FilterCounts(sample, p);
    } else {
      SubsequenceRefl(sample);
    }
  }

  /** With no filter the whole sample comes back, and a non-empty sample
      never yields an empty list. */
  lemma GetFixturesNeverEmpty(sample: seq<Fixture>, q: FixtureQuery)
    ensures GetFixtures(sample, FixtureQuery(NoDate, None, None)) == Success(sample)
    ensures sample != [] && q.date != InvalidDate ==> GetFixtures(sample, q).value != []
  {
  }

  /** A date wins over `from`/`to`, and a bound of 0 is no bound. */
  lemma FilterPrecedence(sample: seq<Fixture>, day: string, from: Option<int>, to: Option<int>, from': Option<int>, to': Option<int>)
    ensures GetFixtures(sample, FixtureQuery(OnDay(day), from, to))
         == GetFixtures(sample, FixtureQuery(OnDay(day), from', to'))
    ensures GetFixtures(sample, FixtureQuery(NoDate, Some(0), to))
         == GetFixtures(sample, FixtureQuery(NoDate, None, to))
  {
    var q0, q1 := FixtureQuery(NoDate, Some(0), to), FixtureQuery(NoDate, None, to);
    var p0 := (f: Fixture) => InWindow(q0.from, q0.to, f);
    var p1 := (f: Fixture) => InWindow(q1.from, q1.to, f);
    if to.None? {
      FilterAll(sample, p0);
    } else {
      FilterExt(sample, p0, p1);
    }
  }

  // ---------------------------------------------------------------------
  // Lookups

  /** `getFixtureById(id)`: the first sample fixture whose id reads the same
      as `id`, or an error naming the id. */
  function GetFixtureById(sample: seq<Fixture>, id: Id): (r: Result<Fixture, string>)
    ensures r.Success? ==>
              exists i :: 0 <= i < |sample| && sample[i] == r.value
                && IdString(r.value.id) == IdString(id)
                && forall j :: 0 <= j < i ==> IdString(sample[j].id) != IdString(id)
    ensures r.Failure? <==> forall i :: 0 <= i < |sample| ==> IdString(sample[i].id) != IdString(id)
    ensures r.Failure? ==> r.error == "Fixture " + IdString(id) + " not found"
  {
    match FindFirst(sample, (f: Fixture) => IdString(f.id) == IdString(id))
    case None => Failure("Fixture " + IdString(id) + " not found")
    case Some(i) => Success(sample[i])
  }

  /** A route parameter arrives as text, yet finds the fixture whose id is
      the number it spells. */
  lemma TextIdFindsNumericFixture(n: nat, date: string, ts: Option<int>)
    ensures GetFixtureById([Fixture(NumId(n), date, ts)], TextId(NatToString(n))) == Success(Fixture(NumId(n), date, ts))
  {
    var f := Fixture(NumId(n), date, ts);
    assert IdString(f.id) == IdString(TextId(NatToString(n)));
  }

  /** `getTeamStatistics(teamId)`: always a success; the sample entry when it
      is truthy, with source "sample", otherwise `null` with source "none". */
  datatype TeamStats = TeamStats(data: Option<Json>, source: string)

  function GetTeamStatistics(stats: map<string, Json>, teamId: Id): (r: TeamStats)
    ensures r.source == "sample" <==> IdString(teamId) in stats && Truthy(stats[IdString(teamId)])
    ensures r.source == "sample" ==> r.data == Some(stats[IdString(teamId)])
    ensures r.source != "sample" ==> r == TeamStats(None, "none")
  {
    var key := IdString(teamId);
    if key in stats && Truthy(stats[key]) then TeamStats(Some(stats[key]), "sample")
    else TeamStats(None, "none")
  }

  /** `getOdds(fixtureId)`: the entry's bookmaker and odds when the entry and
      its `odds` are truthy, otherwise no data and a message. */
  datatype OddsResult =
    | SampleOdds(bookmaker: Option<Json>, odds: Json)
    | NoOdds(message: string)

  function GetOdds(odds: map<string, Json>, fixtureId: Id): (r: OddsResult)
    ensures var entry := if IdString(fixtureId) in odds then Some(odds[IdString(fixtureId)]) else None;
      && (r.SampleOdds? <==> Present(entry) && Present(Member(entry.value, "odds")))
      && (r.SampleOdds? ==> Some(r.odds) == Member(entry.value, "odds")
                            && r.bookmaker == Member(entry.value, "bookmaker"))
      && (r.NoOdds? ==> r.message == "No odds available for this fixture")
  {
    var key := IdString(fixtureId);
    if key in odds && Truthy(odds[key]) && Present(Member(odds[key], "odds")) then
      SampleOdds(Member(odds[key], "bookmaker"), Member(odds[key], "odds").value)
    else
      NoOdds("No odds available for this fixture")
  }
}

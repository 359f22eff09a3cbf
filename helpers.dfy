/** The client helpers that shape raw data: the season summary sent with a
    prediction request, the payload that holds two of them, and the test that
    tells sample fixtures (non-numeric ids) from live ones. */
module Helpers {
  import opened Common
  import opened Text

  // ---------------------------------------------------------------------
  // Template text and `Number(v)` for JSON values

  /** What a template literal `${v}` writes for `v`; `None` where the
      rendering is not modelled (fractional numbers, arrays, objects). */
  function Interpolate(v: Json): Option<string> {
    match v
    case JNull => Some("null")
    case JBool(b) => Some(if b then "true" else "false")
    case JNum(n) => if n == n.Floor as real then Some(IntToString(n.Floor)) else None
    case JStr(s) => Some(s)
    case JArr(_) => None
    case JObj(_) => None
  }

  /** `Number(v)` for a present value; `None` is NaN. An array converts
      through its joined text, so two or more elements always give NaN (the
      comma), and a single element converts as its own text. */
  function NumberOfJson(v: Json): (r: Option<real>)
    ensures v == JNull ==> r == Some(0.0)
    ensures v.JNum? ==> r == Some(v.n)
    ensures v.JStr? ==> r == NumberOf(v.s)
    ensures v.JObj? ==> r.None?
  {
    match v
    case JNull => Some(0.0)
    case JBool(b) => Some(if b then 1.0 else 0.0)
    case JNum(n) => Some(n)
    case JStr(s) => NumberOf(s)
    case JObj(_) => None
    case JArr(items) =>
      if items == [] then Some(0.0)
      else if |items| > 1 then None
      else match items[0]
        case JNull => Some(0.0)          // String([null]) is ""
        case JBool(_) => None            // "true" / "false"
        case JObj(_) => None             // "[object Object]"
        case _ => NumberOfJson(items[0])
  }

  /** `Number(v)` where `v` may be `undefined`, which gives NaN. */
  function NumberOfValue(v: Option<Json>): (r: Option<real>)
    ensures v.None? ==> r.None?
    ensures v.Some? ==> r == NumberOfJson(v.value)
  {
    if v.None? then None else NumberOfJson(v.value)
  }

  // ---------------------------------------------------------------------
  // isSampleFixture

  /** `isNaN(Number(fixture?.fixture?.id))`. */
  predicate IsSampleFixture(fixture: Option<Json>) {
    NumberOfValue(Path(fixture, ["fixture", "id"])).None?
  }

  function FixtureWithId(id: Json): Json {
    JObj(map["fixture" := JObj(map["id" := id])])
  }

  /** Numeric ids are live, a missing id marks a sample, and a string id is a
      sample exactly when `Number` cannot read it. */
  lemma SampleFixtureById(id: Json)
    ensures id.JNum? ==> !IsSampleFixture(Some(FixtureWithId(id)))
    ensures id.JStr? ==> (IsSampleFixture(Some(FixtureWithId(id))) <==> NumberOf(id.s).None?)
    ensures IsSampleFixture(Some(JObj(map["fixture" := JObj(map[])])))
    ensures IsSampleFixture(None)
  {
    assert Path(Some(FixtureWithId(id)), ["fixture", "id"]) == Some(id);
    assert Path(Some(JObj(map["fixture" := JObj(map[])])), ["fixture", "id"]) == None;
  }

  /** The sample ids are words such as "sample-42". */
  lemma WordIdIsSample(rest: string)
    ensures IsSampleFixture(Some(FixtureWithId(JStr("sample-" + rest))))
  {
    SampleFixtureById(JStr("sample-" + rest));
    NumberOfWord("sample-" + rest);
  }

  /** A string of digits, such as "17", still counts as live. */
  lemma NumericStringIdIsLive(n: nat)
    ensures !IsSampleFixture(Some(FixtureWithId(JStr(NatToString(n)))))
  {
    SampleFixtureById(JStr(NatToString(n)));
    NumberOfNatToString(n);
  }

  /** So does the empty string, which `Number` reads as 0. */
  lemma EmptyIdIsLive()
    ensures !IsSampleFixture(Some(FixtureWithId(JStr(""))))
  {
    SampleFixtureById(JStr(""));
    assert Trim("") == "";
  }

  // ---------------------------------------------------------------------
  // summarizeSeasonStats and buildStatsPayload

  datatype Summary = Summary(
    season: Json,
    rank: Json,
    form: Json,
    goalsFor: Json,
    goalsAgainst: Json,
    record: Option<string>)

  /** The "W-D-L" record of three win, draw and loss counts. */
  function Record(wins: Json, draws: Json, loses: Json): Option<string> {
    match (Interpolate(wins), Interpolate(draws), Interpolate(loses))
    case (Some(w), Some(d), Some(l)) => Some(w + "W-" + d + "D-" + l + "L")
    case _ => None
  }

  const WinsPath: seq<string> := ["fixtures", "wins", "total"]
  const DrawsPath: seq<string> := ["fixtures", "draws", "total"]
  const LosesPath: seq<string> := ["fixtures", "loses", "total"]
  const GoalsForPath: seq<string> := ["goals", "for", "total", "total"]
  const GoalsAgainstPath: seq<string> := ["goals", "against", "total", "total"]

  /** `summarizeSeasonStats(period)`: nothing for a falsy period; otherwise
      the league's season and rank (`??` keeps falsy values), the form (`||`
      replaces every falsy value), the goal totals and the record, with 0 for
      each missing count. */
  function SummarizeSeasonStats(period: Option<Json>): (r: Option<Summary>)
    ensures r.None? <==> !Present(period)
    ensures r.Some? ==>
              && (Path(period, ["league", "season"]) in {None, Some(JNull)} ==> r.value.season == JStr("N/A"))
              && (Path(period, ["league", "season"]) !in {None, Some(JNull)} ==>
                    r.value.season == Path(period, ["league", "season"]).value)
              && (Path(period, ["league", "rank"]) in {None, Some(JNull)} ==> r.value.rank == JStr("N/A"))
              && (Path(period, ["league", "rank"]) !in {None, Some(JNull)} ==>
                    r.value.rank == Path(period, ["league", "rank"]).value)
              && (!Present(Path(period, ["form"])) ==> r.value.form == JStr("N/A"))
              && (Present(Path(period, ["form"])) ==> r.value.form == Path(period, ["form"]).value)
    ensures r.Some? ==>
              && r.value.goalsFor == Coalesce(Path(period, GoalsForPath), JNum(0.0))
              && r.value.goalsAgainst == Coalesce(Path(period, GoalsAgainstPath), JNum(0.0))
              && r.value.record == Record(Coalesce(Path(period, WinsPath), JNum(0.0)),
                                          Coalesce(Path(period, DrawsPath), JNum(0.0)),
                                          Coalesce(Path(period, LosesPath), JNum(0.0)))
  {
    if !Present(period) then None
    else
      var wins := Coalesce(Path(period, WinsPath), JNum(0.0));
      var draws := Coalesce(Path(period, DrawsPath), JNum(0.0));
      var loses := Coalesce(Path(period, LosesPath), JNum(0.0));
      Some(Summary(
        Coalesce(Path(period, ["league", "season"]), JStr("N/A")),
        Coalesce(Path(period, ["league", "rank"]), JStr("N/A")),
        Or(Path(period, ["form"]), JStr("N/A")),
        Coalesce(Path(period, GoalsForPath), JNum(0.0)),
        Coalesce(Path(period, GoalsAgainstPath), JNum(0.0)),
        Record(wins, draws, loses)))
  }

  /** The two season summaries sent with a prediction request. */
  datatype StatsPayload = StatsPayload(season2021: Option<Summary>, season2022PreMatch: Option<Summary>)

  function BuildStatsPayload(rawStats: Option<Json>): (p: StatsPayload)
    ensures p.season2021.None? <==> !Present(Path(rawStats, ["season2021"]))
    ensures p.season2022PreMatch.None? <==> !Present(Path(rawStats, ["season2022PreMatch"]))
    ensures !Present(rawStats) ==> p == StatsPayload(None, None)
  {
    StatsPayload(
      SummarizeSeasonStats(Path(rawStats, ["season2021"])),
      SummarizeSeasonStats(Path(rawStats, ["season2022PreMatch"])))
  }

  // ---------------------------------------------------------------------
  // Properties

  /** The record of whole counts. */
  function CountsRecord(w: nat, d: nat, l: nat): string {
    NatToString(w) + "W-" + NatToString(d) + "D-" + NatToString(l) + "L"
  }

  /** Whole counts are written in decimal. */
  lemma RecordOfCounts(w: nat, d: nat, l: nat)
    ensures Record(JNum(w as real), JNum(d as real), JNum(l as real)) == Some(CountsRecord(w, d, l))
  {
  }

  /** A count as `?? 0` reads it: missing (or null) means 0, otherwise the
      whole number given. */
  predicate CountIs(v: Option<Json>, n: nat) {
    if v.None? || v.value == JNull then n == 0 else v.value == JNum(n as real)
  }

  /** The record a summary keeps: a period whose win, draw and loss counts are
      each missing or a whole number reports "{w}W-{d}D-{l}L", with 0 for a
      missing count. */
  lemma SummaryRecord(period: Option<Json>, w: nat, d: nat, l: nat)
    requires Present(period)
    requires CountIs(Path(period, WinsPath), w)
    requires CountIs(Path(period, DrawsPath), d)
    requires CountIs(Path(period, LosesPath), l)
    ensures SummarizeSeasonStats(period).Some?
    ensures SummarizeSeasonStats(period).value.record == Some(CountsRecord(w, d, l))
  {
    RecordOfCounts(w, d, l);
  }

  /** A period with no fixture counts at all reports "0W-0D-0L". */
  lemma NoCountsRecord(period: Option<Json>)
    requires Present(period)
    requires Path(period, WinsPath).None? && Path(period, DrawsPath).None? && Path(period, LosesPath).None?
    ensures SummarizeSeasonStats(period).value.record == Some("0W-0D-0L")
  {
    SummaryRecord(period, 0, 0, 0);
    assert CountsRecord(0, 0, 0) == "0W-0D-0L";
  }

  /** The digit run of digits followed by a non-digit marker ends at the
      marker. */
  lemma {:induction false} DigitRunToMarker(a: string, x: char, r: string)
    requires AllDigits(a) && !IsDigit(x)
    ensures DigitRun(a + [x] + r) == |a|
  {
    var u := a + [x] + r;
    if a == [] {
      assert u[0] == x;
    } else {
      assert u[0] == a[0] && IsDigit(a[0]);
      assert u[1..] == a[1..] + [x] + r;
      assert AllDigits(a[1..]) by {
        forall i | 0 <= i < |a| - 1 ensures IsDigit(a[1..][i]) {
          assert a[1..][i] == a[i + 1];
        }
      }
      DigitRunToMarker(a[1..], x, r);
    }
  }

  /** Digits followed by a non-digit marker: the marker fixes where the digits
      end, so equal texts have equal digit parts. */
  lemma DigitsBeforeMarker(a: string, b: string, x: char, r: string, r': string)
    requires AllDigits(a) && AllDigits(b) && !IsDigit(x)
    requires a + [x] + r == b + [x] + r'
    ensures a == b && r == r'
  {
    var u := a + [x] + r;
    DigitRunToMarker(a, x, r);
    DigitRunToMarker(b, x, r');
    assert |a| == |b|;
    forall i | 0 <= i < |a| ensures a[i] == b[i] {
      assert u[i] == a[i];
      assert u[i] == (b + [x] + r')[i];
    }
    assert |r| == |r'|;
    forall i | 0 <= i < |r| ensures r[i] == r'[i] {
      assert u[|a| + 1 + i] == r[i];
      assert u[|a| + 1 + i] == (b + [x] + r')[|b| + 1 + i];
    }
  }

  /** The record split after its win count and after its draw count. */
  lemma SplitRecord(w: nat, d: nat, l: nat)
    ensures CountsRecord(w, d, l) == NatToString(w) + ['W'] + DrawsAndLosses(d, l)
    ensures DrawsAndLosses(d, l) == ['-'] + (NatToString(d) + ['D'] + Losses(l))
    ensures Losses(l) == ['-'] + (NatToString(l) + ['L'] + [])
  {
    SplitAfterWins(w, d, l);
    SplitAfterDraws(d, l);
    SplitLosses(l);
  }

  lemma SplitAfterWins(w: nat, d: nat, l: nat)
    ensures CountsRecord(w, d, l) == NatToString(w) + ['W'] + DrawsAndLosses(d, l)
  {
  }

  lemma SplitAfterDraws(d: nat, l: nat)
    ensures DrawsAndLosses(d, l) == ['-'] + (NatToString(d) + ['D'] + Losses(l))
  {
  }

  lemma SplitLosses(l: nat)
    ensures Losses(l) == ['-'] + (NatToString(l) + ['L'] + [])
  {
  }

  function DrawsAndLosses(d: nat, l: nat): string {
    "-" + NatToString(d) + "D-" + NatToString(l) + "L"
  }

  function Losses(l: nat): string {
    "-" + NatToString(l) + "L"
  }

  /** Different counts give different records: the record can be read back. */
  lemma {:induction false} RecordInjective(w: nat, d: nat, l: nat, w': nat, d': nat, l': nat)
    requires CountsRecord(w, d, l) == CountsRecord(w', d', l')
    ensures w == w' && d == d' && l == l'
  {
    SplitRecord(w, d, l);
    SplitRecord(w', d', l');
    DigitsBeforeMarker(NatToString(w), NatToString(w'), 'W', DrawsAndLosses(d, l), DrawsAndLosses(d', l'));
    NatToStringInjective(w, w');
    assert DrawsAndLosses(d, l)[1..] == NatToString(d) + ['D'] + Losses(l);
    assert DrawsAndLosses(d', l')[1..] == NatToString(d') + ['D'] + Losses(l');
    DigitsBeforeMarker(NatToString(d), NatToString(d'), 'D', Losses(l), Losses(l'));
    NatToStringInjective(d, d');
    assert Losses(l)[1..] == NatToString(l) + ['L'] + [];
    assert Losses(l')[1..] == NatToString(l') + ['L'] + [];
    DigitsBeforeMarker(NatToString(l), NatToString(l'), 'L', [], []);
    NatToStringInjective(l, l');
  }

  /** `??` and `||` differ on falsy values: a season of 0 is kept while an
      empty form becomes "N/A". */
  lemma SeasonKeptFormReplaced()
    ensures var period := JObj(map["league" := JObj(map["season" := JNum(0.0)]), "form" := JStr("")]);
      var r := SummarizeSeasonStats(Some(period));
      r.Some? && r.value.season == JNum(0.0) && r.value.form == JStr("N/A")
        && r.value.record == Some("0W-0D-0L")
  {
    var period := JObj(map["league" := JObj(map["season" := JNum(0.0)]), "form" := JStr("")]);
    assert Path(Some(period), ["league", "season"]) == Some(JNum(0.0));
    assert Path(Some(period), ["form"]) == Some(JStr(""));
    assert Path(Some(period), WinsPath) == None;
    assert Path(Some(period), DrawsPath) == None;
    assert Path(Some(period), LosesPath) == None;
    NoCountsRecord(Some(period));
  }
}

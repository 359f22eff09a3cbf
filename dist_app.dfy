/** The newer dashboard in `dist/app.js`: which fixtures it lists, the state
    it keeps for the selected fixture (prediction, decimal odds, the match
    data last sent, the follow-up chat), and the guards on each step.
    Requests are not made here: what they return is passed in. */
module DistApp {
  import opened Common
  import opened Text
  import opened Seqs
  import opened Odds
  import opened Comparison
  import opened Helpers

  // ---------------------------------------------------------------------
  // The fixture list

  /** `displayFixtures`: nothing (and no banner) for a missing or empty list;
      otherwise only the sample fixtures when there are any, with the
      banner, and the whole list when there are none. */
  function FixturesToRender(fixtures: Option<seq<Json>>): (r: (seq<Json>, bool))
    ensures fixtures.None? || fixtures.value == [] ==> r == ([], false)
    ensures fixtures.Some? ==> IsSubsequence(r.0, fixtures.value)
    ensures fixtures.Some? ==>
              (r.1 <==> exists i :: 0 <= i < |fixtures.value| && IsSampleFixture(Some(fixtures.value[i])))
    ensures r.1 ==> forall i :: 0 <= i < |r.0| ==> IsSampleFixture(Some(r.0[i]))
    ensures r.1 ==> forall i :: 0 <= i < |fixtures.value| && IsSampleFixture(Some(fixtures.value[i])) ==>
                      fixtures.value[i] in r.0
    ensures r.1 ==> forall f :: multiset(r.0)[f] == if IsSampleFixture(Some(f)) then multiset(fixtures.value)[f] else 0
    ensures fixtures.Some? && !r.1 ==> r.0 == fixtures.value
  {
    if fixtures.None? || fixtures.value == [] then ([], false)
    else
      var isSample := (f: Json) => IsSampleFixture(Some(f));
      var sampleOnly := Filter(fixtures.value, isSample);
      FilterIsSubsequence(fixtures.value, isSample);
      FilterCounts(fixtures.value, isSample);
      SubsequenceRefl(fixtures.value);
      if |sampleOnly| > 0 then (sampleOnly, true)
      else
        assert forall i :: 0 <= i < |fixtures.value| ==> !IsSampleFixture(Some(fixtures.value[i]));
        (fixtures.value, false)
  }

  /** A list of live fixtures is shown whole; adding one sample fixture to
      it hides every live one. */
  lemma {:induction false} OneSampleHidesLiveFixtures(live: seq<Json>, sample: Json)
    requires forall i :: 0 <= i < |live| ==> !IsSampleFixture(Some(live[i]))
    requires IsSampleFixture(Some(sample))
    ensures live != [] ==> FixturesToRender(Some(live)) == (live, false)
    ensures FixturesToRender(Some(live + [sample])) == ([sample], true)
  {
    var all := live + [sample];
    var isSample := (f: Json) => IsSampleFixture(Some(f));
    assert all[|live|] == sample;
    var r := FixturesToRender(Some(all));
    assert r.0 == Filter(all, isSample);
    FilterOfOneMatch(live, sample, isSample);
  }

  /** Filtering a list where only its last element passes keeps that one. */
  lemma {:induction false} FilterOfOneMatch<T>(s: seq<T>, x: T, p: T -> bool)
    requires forall i :: 0 <= i < |s| ==> !p(s[i])
    requires p(x)
    ensures Filter(s + [x], p) == [x]
  {
    if s == [] {
      assert [] + [x] == [x];
      assert [x][1..] == [];
    } else {
      assert (s + [x])[0] == s[0];
      assert (s + [x])[1..] == s[1..] + [x];
      assert forall i :: 0 <= i < |s| - 1 ==> s[1..][i] == s[i + 1];
      FilterOfOneMatch(s[1..], x, p);
    }
  }

  // ---------------------------------------------------------------------
  // Values read from responses

  /** `v === undefined || v === null`: the values on which a property read
      throws. */
  predicate Nullish(v: Option<Json>) {
    v.None? || v == Some(JNull)
  }

  /** `parseFloat(v)` for a JSON value: a number is itself, a string is
      read by `parseFloat`; `null`, booleans and objects give NaN (`None`).
      Arrays, which convert through their joined text, are not modelled and
      give `None`. */
  function FloatOf(v: Option<Json>): (r: Option<real>)
    ensures v.Some? && v.value.JNum? ==> r == Some(v.value.n)
    ensures v.Some? && v.value.JStr? ==> r == ParseFloat(v.value.s)
    ensures v.None? || (!v.value.JNum? && !v.value.JStr?) ==> r.None?
  {
    match v
    case Some(JNum(n)) => Some(n)
    case Some(JStr(s)) => ParseFloat(s)
    case _ => None
  }

  /** `market.bookmaker?.title || market.bookmaker?.key || 'Bookmaker'`. */
  function BookmakerName(market: Json): (r: Json)
    ensures Truthy(r)
    ensures Present(Path(Some(market), ["bookmaker", "title"])) ==>
              r == Path(Some(market), ["bookmaker", "title"]).value
    ensures !Present(Path(Some(market), ["bookmaker", "title"])) && Present(Path(Some(market), ["bookmaker", "key"])) ==>
              r == Path(Some(market), ["bookmaker", "key"]).value
    ensures !Present(Path(Some(market), ["bookmaker", "title"])) && !Present(Path(Some(market), ["bookmaker", "key"])) ==>
              r == JStr("Bookmaker")
  {
    Or(Path(Some(market), ["bookmaker", "title"]), Or(Path(Some(market), ["bookmaker", "key"]), JStr("Bookmaker")))
  }

  // ---------------------------------------------------------------------
  // The page state

  /** The odds the page holds: three decimals, their American text, and the
      bookmaker's name. */
  datatype DistOdds = DistOdds(
    homeWinDecimal: real, drawDecimal: real, awayWinDecimal: real,
    homeWinAmerican: string, drawAmerican: string, awayWinAmerican: string,
    bookmakerName: Json)

  function StoreOdds(h: real, d: real, a: real, name: Json): DistOdds
  {
    DistOdds(h, d, a, ConvertDecimalToAmerican(h), ConvertDecimalToAmerican(d), ConvertDecimalToAmerican(a), name)
  }

  /** The match data sent with a prediction request (and kept for the
      follow-up questions). `date` is the fixture date as `formatDate`
      writes it. */
  datatype MatchData = MatchData(
    homeTeam: Option<Json>, awayTeam: Option<Json>, date: string,
    homeStats: StatsPayload, awayStats: StatsPayload)

  /** One message of the follow-up chat. */
  datatype ChatEntry =
    | UserQuestion(question: string)
    | AssistantReply(explanation: Json, model: Option<Json>, timestamp: Option<Json>)

  /** The match data `generatePrediction` sends, or `None` when it throws
      first: on a missing fixture, on reading the teams or the `fixture` of a
      fixture without them, or when a statistics request fails. */
  function MatchDataFor(f: Option<Json>, stats: Option<(Option<Json>, Option<Json>)>, date: string): (r: Option<MatchData>)
    ensures r.Some? <==>
              && Present(f) && !Nullish(Path(f, ["teams", "home"])) && !Nullish(Path(f, ["teams", "away"]))
              && stats.Some? && !Nullish(Path(f, ["fixture"]))
    ensures r.Some? ==>
              && r.value.homeTeam == Path(f, ["teams", "home", "name"])
              && r.value.awayTeam == Path(f, ["teams", "away", "name"])
              && r.value.date == date
  {
    if !Present(f) || Nullish(Path(f, ["teams", "home"])) || Nullish(Path(f, ["teams", "away"])) || stats.None?
       || Nullish(Path(f, ["fixture"])) then None
    else
      Some(MatchData(Path(f, ["teams", "home", "name"]), Path(f, ["teams", "away", "name"]), date,
                     BuildStatsPayload(stats.value.0), BuildStatsPayload(stats.value.1)))
  }

  /** The statistics sent are the two summaries `buildStatsPayload` makes of
      the home and away responses. */
  lemma MatchDataStats(f: Option<Json>, stats: Option<(Option<Json>, Option<Json>)>, date: string)
    requires MatchDataFor(f, stats, date).Some?
    ensures stats.Some?
    ensures MatchDataFor(f, stats, date).value.homeStats == BuildStatsPayload(stats.value.0)
    ensures MatchDataFor(f, stats, date).value.awayStats == BuildStatsPayload(stats.value.1)
  {
  }

  datatype PredictOutcome = PredictNoFixture | PredictFailed | PredictionShown(compareNext: bool)

  datatype OddsOutcome = OddsNoFixture | ManualEntryShown | OddsShown(compareNext: bool)

  datatype ExplainOutcome = ExplainNoPrediction | ExplainFailed | Explained(model: string)

  const ManualOddsError := "Please enter valid decimal moneyline odds for all outcomes"
  const EmptyQuestionError := "Enter a question for the AI."

  /** The page's global state. */
  class Dashboard {
    var selectedFixture: Option<Json>
    var aiPrediction: Option<Json>
    var actualOdds: Option<DistOdds>
    var lastMatchData: Option<MatchData>
    var chatHistory: seq<ChatEntry>
    var selectedModel: string
    var lastModelUsed: string

    constructor ()
      ensures selectedFixture.None? && aiPrediction.None? && actualOdds.None? && lastMatchData.None?
      ensures chatHistory == [] && selectedModel == "qwen3-8b" && lastModelUsed == "qwen3-8b"
    {
      selectedFixture, aiPrediction, actualOdds, lastMatchData := None, None, None, None;
      chatHistory := [];
      selectedModel, lastModelUsed := "qwen3-8b", "qwen3-8b";
    }

    /** The model selector's `change` handler. */
    method SelectModel(value: string)
      modifies this
      ensures selectedModel == value
      ensures selectedFixture == old(selectedFixture) && aiPrediction == old(aiPrediction)
      ensures actualOdds == old(actualOdds) && lastMatchData == old(lastMatchData)
      ensures chatHistory == old(chatHistory) && lastModelUsed == old(lastModelUsed)
    {
      selectedModel := value;
    }

    /** `selectFixture`: the new fixture, with everything learnt about the
        old one dropped. */
    method SelectFixture(fixture: Json)
      modifies this
      ensures selectedFixture == Some(fixture)
      ensures aiPrediction.None? && actualOdds.None? && lastMatchData.None? && chatHistory == []
      ensures selectedModel == old(selectedModel) && lastModelUsed == old(lastModelUsed)
    {
      selectedFixture := Some(fixture);
      aiPrediction := None;
      actualOdds := None;
      lastMatchData := None;
      chatHistory := [];
    }

    /** `generatePrediction` given the two statistics `data` values (`None`
        when those requests fail), the formatted date, and the prediction of
        a successful reply (`None` for a failed one). The match data is
        stored before the reply is awaited, so a failed prediction keeps it. */
    method GeneratePrediction(stats: Option<(Option<Json>, Option<Json>)>, date: string, reply: Option<Json>)
      returns (outcome: PredictOutcome)
      modifies this
      ensures selectedFixture == old(selectedFixture) && actualOdds == old(actualOdds)
      ensures chatHistory == old(chatHistory) && selectedModel == old(selectedModel)
      ensures outcome == PredictNoFixture <==> !Present(old(selectedFixture))
      ensures var sent := MatchDataFor(old(selectedFixture), stats, date);
        && (sent.None? ==> lastMatchData == old(lastMatchData))
        && (sent.Some? ==> lastMatchData == sent)
        && (outcome.PredictionShown? <==> sent.Some? && reply.Some?)
      ensures outcome.PredictionShown? ==>
              aiPrediction == reply && lastModelUsed == old(selectedModel) && outcome.compareNext == actualOdds.Some?
      ensures !outcome.PredictionShown? ==> aiPrediction == old(aiPrediction) && lastModelUsed == old(lastModelUsed)
    {
      if !Present(selectedFixture) {
        return PredictNoFixture;
      }
      var sent := MatchDataFor(selectedFixture, stats, date);
      if sent.None? {
        return PredictFailed;
      }
      lastMatchData := sent;
      if reply.None? {
        return PredictFailed;
      }
      lastModelUsed := selectedModel;
      aiPrediction := reply;
      outcome := PredictionShown(actualOdds.Some?);
    }

    /** `loadActualOdds` given the response's `data` when it reports
        success (`None` otherwise): the manual form unless the market has
        odds and all three parse to numbers; then the decimals, their
        American text and the bookmaker's name. */
    method LoadActualOdds(market: Option<Json>) returns (outcome: OddsOutcome)
      modifies this
      ensures selectedFixture == old(selectedFixture) && aiPrediction == old(aiPrediction)
      ensures lastMatchData == old(lastMatchData) && chatHistory == old(chatHistory)
      ensures selectedModel == old(selectedModel) && lastModelUsed == old(lastModelUsed)
      ensures outcome == OddsNoFixture <==> !Present(old(selectedFixture))
      ensures !outcome.OddsShown? ==> actualOdds == old(actualOdds)
      ensures outcome.OddsShown? <==>
                && Present(old(selectedFixture)) && !Nullish(Path(old(selectedFixture), ["fixture"]))
                && Present(market) && Present(Path(market, ["odds"]))
                && FloatOf(Path(market, ["odds", "homeWin"])).Some?
                && FloatOf(Path(market, ["odds", "draw"])).Some?
                && FloatOf(Path(market, ["odds", "awayWin"])).Some?
      ensures outcome.OddsShown? ==>
                && actualOdds == Some(StoreOdds(FloatOf(Path(market, ["odds", "homeWin"])).value,
                                                FloatOf(Path(market, ["odds", "draw"])).value,
                                                FloatOf(Path(market, ["odds", "awayWin"])).value,
                                                BookmakerName(market.value)))
                && outcome.compareNext == Present(aiPrediction)
    {
      if !Present(selectedFixture) {
        return OddsNoFixture;
      }
      if Nullish(Path(selectedFixture, ["fixture"])) || !Present(market) || !Present(Path(market, ["odds"])) {
        return ManualEntryShown;
      }
      var h := FloatOf(Path(market, ["odds", "homeWin"]));
      var d := FloatOf(Path(market, ["odds", "draw"]));
      var a := FloatOf(Path(market, ["odds", "awayWin"]));
      if h.None? || d.None? || a.None? {
        return ManualEntryShown;
      }
      actualOdds := Some(StoreOdds(h.value, d.value, a.value, BookmakerName(market.value)));
      outcome := OddsShown(Present(aiPrediction));
    }

    /** The manual form's submit: only text that is not a number is
        refused, so odds of 1 or less are stored (and shown as "N/A"). */
    method SubmitManualOdds(home: string, draw: string, away: string) returns (r: Result<bool, string>)
      modifies this
      ensures selectedFixture == old(selectedFixture) && aiPrediction == old(aiPrediction)
      ensures lastMatchData == old(lastMatchData) && chatHistory == old(chatHistory)
      ensures selectedModel == old(selectedModel) && lastModelUsed == old(lastModelUsed)
      ensures r.Failure? <==> ParseFloat(home).None? || ParseFloat(draw).None? || ParseFloat(away).None?
      ensures r.Failure? ==> r.error == ManualOddsError && actualOdds == old(actualOdds)
      ensures r.Success? ==>
                && actualOdds == Some(StoreOdds(ParseFloat(home).value, ParseFloat(draw).value,
                                                ParseFloat(away).value, JStr("Manual Entry")))
                && (r.value <==> Present(aiPrediction))
    {
      var h, d, a := ParseFloat(home), ParseFloat(draw), ParseFloat(away);
      if h.None? || d.None? || a.None? {
        return Failure(ManualOddsError);
      }
      actualOdds := Some(StoreOdds(h.value, d.value, a.value, JStr("Manual Entry")));
      r := Success(Present(aiPrediction));
    }

    /** `sendChatQuestion`: a question that is empty once trimmed is
        refused; any other is appended, trimmed, as the user's message. */
    method SendChatQuestion(text: string) returns (r: Result<string, string>)
      modifies this
      ensures selectedFixture == old(selectedFixture) && aiPrediction == old(aiPrediction)
      ensures actualOdds == old(actualOdds) && lastMatchData == old(lastMatchData)
      ensures selectedModel == old(selectedModel) && lastModelUsed == old(lastModelUsed)
      ensures r.Failure? <==> Trim(text) == ""
      ensures r.Failure? ==> r.error == EmptyQuestionError && chatHistory == old(chatHistory)
      ensures r.Success? ==> r.value == Trim(text) && chatHistory == old(chatHistory) + [UserQuestion(Trim(text))]
    {
      var question := Trim(text);
      if question == "" {
        return Failure(EmptyQuestionError);
      }
      chatHistory := chatHistory + [UserQuestion(question)];
      r := Success(question);
    }

    /** `requestAIPredictionExplanation` given the reply body (`None` when
        the request fails): refused without a prediction and match data;
        the reply's explanation is appended when it reports success and the
        explanation is not empty. The request names the model of the last
        prediction, or the selected one when that is empty. */
    method RequestExplanation(reply: Option<Json>) returns (outcome: ExplainOutcome)
      modifies this
      ensures selectedFixture == old(selectedFixture) && aiPrediction == old(aiPrediction)
      ensures actualOdds == old(actualOdds) && lastMatchData == old(lastMatchData)
      ensures selectedModel == old(selectedModel) && lastModelUsed == old(lastModelUsed)
      ensures outcome == ExplainNoPrediction <==> !Present(aiPrediction) || lastMatchData.None?
      ensures !outcome.Explained? ==> chatHistory == old(chatHistory)
      ensures outcome.Explained? <==>
                && Present(aiPrediction) && lastMatchData.Some? && reply.Some?
                && Present(Member(reply.value, "success")) && Present(Member(reply.value, "explanation"))
      ensures outcome.Explained? ==>
                && outcome.model == (if lastModelUsed != "" then lastModelUsed else selectedModel)
                && chatHistory == old(chatHistory) + [AssistantReply(Member(reply.value, "explanation").value,
                                                                     Member(reply.value, "model"),
                                                                     Member(reply.value, "timestamp"))]
    {
      if !Present(aiPrediction) || lastMatchData.None? {
        return ExplainNoPrediction;
      }
      var model := if lastModelUsed != "" then lastModelUsed else selectedModel;
      if reply.None? || !Present(Member(reply.value, "success")) || !Present(Member(reply.value, "explanation")) {
        return ExplainFailed;
      }
      var body := reply.value;
      chatHistory := chatHistory + [AssistantReply(Member(body, "explanation").value, Member(body, "model"),
                                                   Member(body, "timestamp"))];
      outcome := Explained(model);
    }

    /** `compareOdds`: nothing unless a prediction and odds are both held;
        then the prediction as it is and the stored decimals. */
    method CompareRequest() returns (request: Option<(Json, OddsSet)>)
      ensures request.None? <==> !Present(aiPrediction) || actualOdds.None?
      ensures request.Some? ==>
                && request.value.0 == aiPrediction.value
                && request.value.1 == OddsSet(actualOdds.value.homeWinDecimal, actualOdds.value.drawDecimal,
                                              actualOdds.value.awayWinDecimal)
    {
      if !Present(aiPrediction) || actualOdds.None? {
        return None;
      }
      request := Some((aiPrediction.value, OddsSet(actualOdds.value.homeWinDecimal, actualOdds.value.drawDecimal,
                                                   actualOdds.value.awayWinDecimal)));
    }
  }

  /** A manual entry of "-3" is accepted as decimal odds of -3 and shown as
      "N/A": the form refuses only text that is not a number. */
  lemma {:induction false} ManualEntryBelowOneShownAsNA(n: nat)
    ensures ParseFloat("-" + NatToString(n)) == Some(-(n as real))
    ensures ConvertDecimalToAmerican(-(n as real)) == "N/A"
  {
    ParseFloatSigned('-', n);
  }

  /** The American text stored beside a decimal above 1 reads back, through
      `moneylineToDecimal`, within 1/200 of that decimal. */
  lemma {:induction false} StoredAmericanReadsBack(h: real, d: real, a: real, name: Json)
    requires h > 1.0
    ensures MoneylineToDecimal(StoreOdds(h, d, a, name).homeWinAmerican).Some?
    ensures Abs(MoneylineToDecimal(StoreOdds(h, d, a, name).homeWinAmerican).value - h) <= 1.0 / 200.0
  {
    AmericanRoundTrip(h);
  }
}

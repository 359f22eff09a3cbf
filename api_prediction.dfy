/** The server's prediction routes: `makeLLMPrediction` from the model's
    reply onward (the older parser, then the in-place rewrite of numeric odds
    into moneyline strings), the `/predict` input check and envelope, and the
    `/compare` input check and arithmetic. The HTTP request to the model is
    not modelled: its reply text is a parameter. */
module ApiPrediction {
  import opened Common
  import opened Text
  import opened Odds
  import opened Comparison
  import opened PredictionService
  import opened Helpers

  // ---------------------------------------------------------------------
  // makeLLMPrediction

  const OddsFields: seq<string> := ["homeWin", "draw", "awayWin"]

  /** What the rewrite does to one field: a number under an odds key becomes
      its moneyline string; anything else stays as it is. */
  function NormalizedField(key: string, v: Json): Json {
    if key in OddsFields && v.JNum? then JStr(DecimalToMoneyline(v.n)) else v
  }

  function NormalizedFields(m: map<string, Json>): map<string, Json> {
    map k | k in m :: NormalizedField(k, m[k])
  }

  /** `oddsFields.forEach(...)`: rewrite, in place and in key order, every
      odds field whose value is a number. */
  method NormalizeOddsFields(prediction: map<string, Json>) returns (result: map<string, Json>)
    ensures result == NormalizedFields(prediction)
  {
    result := prediction;
    for i := 0 to |OddsFields|
      invariant result.Keys == prediction.Keys
      invariant forall k :: k in prediction ==>
                  result[k] == if k in OddsFields[..i] then NormalizedField(k, prediction[k]) else prediction[k]
    {
      var field := OddsFields[i];
      if field in result && result[field].JNum? {
        result := result[field := JStr(DecimalToMoneyline(result[field].n))];
      }
      assert OddsFields[..i + 1] == OddsFields[..i] + [field];
    }
    assert OddsFields[..|OddsFields|] == OddsFields;
  }

  /** After the rewrite no odds field is a number, every other field is as it
      was, and rewriting again changes nothing. */
  lemma {:induction false} NormalizedFieldsProperties(m: map<string, Json>)
    ensures NormalizedFields(m).Keys == m.Keys
    ensures forall k :: k in m && k in OddsFields ==> !NormalizedFields(m)[k].JNum?
    ensures forall k :: k in m && (k !in OddsFields || !m[k].JNum?) ==> NormalizedFields(m)[k] == m[k]
    ensures forall k :: k in m && k in OddsFields && m[k].JNum? ==>
              NormalizedFields(m)[k] == JStr(DecimalToMoneyline(m[k].n))
    ensures NormalizedFields(NormalizedFields(m)) == NormalizedFields(m)
  {
    var n := NormalizedFields(m);
    forall k | k in n ensures NormalizedField(k, n[k]) == n[k] {
      assert n[k] == NormalizedField(k, m[k]);
    }
  }

  datatype ApiError =
    | KeyNotConfigured
    | NoContent
    | UnparsableReply
    | MalformedJson
    | NullPrediction

  function ApiErrorMessage(e: ApiError): string {
    match e
    case KeyNotConfigured => "Qwen API key not configured. Please set QWEN_API_KEY in .env file"
    case NoContent => "No content found in Qwen API response."
    case UnparsableReply => "Could not parse LLM response"
    case MalformedJson => "Unexpected token in JSON"
    case NullPrediction => "Cannot read properties of null (reading 'homeWin')"
  }

  /** `!apiKey || apiKey === 'your_qwen_api_key_here'`. */
  predicate KeyConfigured(apiKey: Option<string>) {
    apiKey.Some? && apiKey.value != "" && apiKey.value != "your_qwen_api_key_here"
  }

  /** `makeLLMPrediction` given the key and the reply's content (`None` when
      the reply has none): no trimming and no rate-limit test, the same brace
      span as the client, and the odds rewrite on a parsed object. */
  method MakeLLMPrediction(apiKey: Option<string>, content: Option<string>, parse: string -> Option<Json>)
    returns (r: Result<Json, ApiError>)
    ensures r == Failure(KeyNotConfigured) <==> !KeyConfigured(apiKey)
    ensures KeyConfigured(apiKey) ==>
              && (r == Failure(NoContent) <==> content.None? || content.value == "")
              && (content.Some? && content.value != "" ==>
                    var span := JsonSpan(content.value);
                    && (r == Failure(UnparsableReply) <==> span.None?)
                    && (span.Some? ==>
                          && (r == Failure(MalformedJson) <==> parse(span.value).None?)
                          && (r == Failure(NullPrediction) <==> parse(span.value) == Some(JNull))
                          && (forall m :: parse(span.value) == Some(JObj(m)) ==> r == Success(JObj(NormalizedFields(m))))
                          && (parse(span.value).Some? && !parse(span.value).value.JObj? && parse(span.value).value != JNull ==>
                                r == Success(parse(span.value).value))))
  {
    if !KeyConfigured(apiKey) {
      return Failure(KeyNotConfigured);
    }
    if content.None? || content.value == "" {
      return Failure(NoContent);
    }
    var span := JsonSpan(content.value);
    if span.None? {
      return Failure(UnparsableReply);
    }
    var parsed := parse(span.value);
    if parsed.None? {
      return Failure(MalformedJson);
    }
    match parsed.value
    case JNull =>
      r := Failure(NullPrediction);
    case JObj(m) =>
      var normalized := NormalizeOddsFields(m);
      r := Success(JObj(normalized));
    case _ =>
      r := Success(parsed.value);
  }

  /** The server's parser skips the client's rate-limit test: a "Too many
      requests" reply that carries an object is read as a prediction by the
      server and rejected as a rate limit by the client. */
  lemma RateLimitReplyDiffers(obj: string, parse: string -> Option<Json>, m: map<string, Json>)
    requires |obj| >= 2 && obj[0] == '{' && obj[|obj| - 1] == '}'
    requires parse(obj) == Some(JObj(m))
    ensures JsonSpan("Too many requests " + obj) == Some(obj)
    ensures PredictionService.ParseModelJSON(Some("Too many requests " + obj), parse) == Failure(RateLimited)
  {
    RateLimitBeforeJson(obj, parse);
    SpanAfterText("Too many requests ", obj);
  }

  // ---------------------------------------------------------------------
  // POST /predict

  datatype PredictResponse =
    | Predicted(prediction: map<string, Json>)
    | PredictFailed(status: int, error: string)

  /** The route: 400 unless both team names are truthy (before the model is
      asked anything), 500 with the message of any failure, and otherwise the
      prediction's fields with `timestamp` (the time `now`) and the model
      name added. */
  method HandlePredict(body: Json, apiKey: Option<string>, content: Option<string>,
                       parse: string -> Option<Json>, now: string)
    returns (r: PredictResponse)
    ensures !Present(Member(body, "homeTeam")) || !Present(Member(body, "awayTeam")) <==>
              r == PredictFailed(400, "Missing required match data")
    ensures r.PredictFailed? ==> r.status in {400, 500}
    ensures r.Predicted? ==>
              && "timestamp" in r.prediction && r.prediction["timestamp"] == JStr(now)
              && "model" in r.prediction && r.prediction["model"] == JStr("qwen-turbo")
              && (forall k :: k in OddsFields && k in r.prediction ==> !r.prediction[k].JNum?)
    ensures r.Predicted? ==> KeyConfigured(apiKey) && content.Some? && JsonSpan(content.value).Some?
    ensures Present(Member(body, "homeTeam")) && Present(Member(body, "awayTeam")) ==>
              && (!KeyConfigured(apiKey) ==> r == PredictFailed(500, ApiErrorMessage(KeyNotConfigured)))
              && (KeyConfigured(apiKey) && (content.None? || content.value == "") ==>
                    r == PredictFailed(500, ApiErrorMessage(NoContent)))
              && (KeyConfigured(apiKey) && content.Some? && content.value != "" ==>
                    var span := JsonSpan(content.value);
                    && (span.None? ==> r == PredictFailed(500, ApiErrorMessage(UnparsableReply)))
                    && (span.Some? ==>
                          && (parse(span.value).None? ==> r == PredictFailed(500, ApiErrorMessage(MalformedJson)))
                          && (parse(span.value) == Some(JNull) ==> r == PredictFailed(500, ApiErrorMessage(NullPrediction)))
                          && (forall m :: parse(span.value) == Some(JObj(m)) ==>
                                r == Predicted(NormalizedFields(m)["timestamp" := JStr(now)]["model" := JStr("qwen-turbo")]))
                          && (parse(span.value).Some? && !parse(span.value).value.JObj? && parse(span.value).value != JNull ==>
                                r == Predicted(map["timestamp" := JStr(now), "model" := JStr("qwen-turbo")]))))
  {
    if !Present(Member(body, "homeTeam")) || !Present(Member(body, "awayTeam")) {
      return PredictFailed(400, "Missing required match data");
    }
    var prediction := MakeLLMPrediction(apiKey, content, parse);
    if prediction.Failure? {
      return PredictFailed(500, ApiErrorMessage(prediction.error));
    }
    var fields := if prediction.value.JObj? then prediction.value.fields else map[];
    if prediction.value.JObj? {
      var span := JsonSpan(content.value);
      NormalizedFieldsProperties(parse(span.value).value.fields);
    }
    r := Predicted(fields["timestamp" := JStr(now)]["model" := JStr("qwen-turbo")]);
  }

  // ---------------------------------------------------------------------
  // POST /compare

  /** The three odds of a request object, each coerced by `-` to a number;
      `None` when one is NaN. */
  function OddsOf(v: Json): (r: Option<OddsSet>)
    ensures r.Some? <==> forall k :: k in OddsFields ==> NumberOfValue(Member(v, k)).Some?
    ensures r.Some? ==> r.value == OddsSet(NumberOfValue(Member(v, "homeWin")).value,
                                           NumberOfValue(Member(v, "draw")).value,
                                           NumberOfValue(Member(v, "awayWin")).value)
  {
    var h := NumberOfValue(Member(v, "homeWin"));
    var d := NumberOfValue(Member(v, "draw"));
    var a := NumberOfValue(Member(v, "awayWin"));
    if h.Some? && d.Some? && a.Some? then Some(OddsSet(h.value, d.value, a.value)) else None
  }

  datatype CompareResponse =
    | CompareRejected(status: int, error: string)
    | Compared(report: Report)
    | NotANumber

  /** The route: 400 when either object is missing or falsy, and otherwise
      the engine's report on the coerced odds. `NotANumber` stands for the
      NaN and Infinity results of non-numeric or zero odds. */
  function HandleCompare(body: Json): (r: CompareResponse)
    ensures r.CompareRejected? <==>
              !Present(Member(body, "llmPrediction")) || !Present(Member(body, "actualOdds"))
    ensures r.CompareRejected? ==> r == CompareRejected(400, "Missing required data for comparison")
    ensures r.Compared? <==>
              && Present(Member(body, "llmPrediction")) && Present(Member(body, "actualOdds"))
              && OddsOf(Member(body, "llmPrediction").value).Some?
              && OddsOf(Member(body, "actualOdds").value).Some?
              && NonZero(OddsOf(Member(body, "actualOdds").value).value)
    ensures r.Compared? ==>
              r.report == CompareOdds(OddsOf(Member(body, "llmPrediction").value).value,
                                      OddsOf(Member(body, "actualOdds").value).value)
    ensures r.Compared? ==>
              && 0.0 <= r.report.accuracy <= 100.0
              && r.report.comparison.Get(r.report.closestPrediction).percentageDiff
                   == Min3(r.report.comparison.homeWin.percentageDiff,
                           r.report.comparison.draw.percentageDiff,
                           r.report.comparison.awayWin.percentageDiff)
  {
    var llm := Member(body, "llmPrediction");
    var actual := Member(body, "actualOdds");
    if !Present(llm) || !Present(actual) then
      CompareRejected(400, "Missing required data for comparison")
    else
      var p := OddsOf(llm.value);
      var a := OddsOf(actual.value);
      if p.None? || a.None? || !NonZero(a.value) then NotANumber
      else Compared(CompareOdds(p.value, a.value))
  }

  function Min3(a: real, b: real, c: real): real {
    if a <= b && a <= c then a else if b <= c then b else c
  }

  /** `-` reads a moneyline string such as "+150" as the number 150, so the
      route compares moneyline numbers when it is given them as text. */
  lemma MoneylineTextCoerces(n: nat)
    ensures NumberOfValue(Some(JStr("+" + NatToString(n)))) == Some(n as real)
  {
    assert "+" + NatToString(n) == ['+'] + NatToString(n);
    NumberOfSigned('+', n);
  }
}

/** The client prediction service: reading a prediction out of the language
    model's free text (`parseModelJSON`), the model table and its default
    (`resolveModelConfig`), and the request flag that turns "thinking" off.
    The comparison it also exports is the engine in module Comparison. */
module PredictionService {
  import opened Common
  import opened Text

  // ---------------------------------------------------------------------
  // The brace span `/\{[\s\S]*\}/`

  /** The span the greedy regular expression matches: from the first `{` to
      the last `}`, when some `{` comes before some `}`. */
  function JsonSpan(s: string): (r: Option<string>)
    ensures r.Some? <==> exists i, j :: 0 <= i < j < |s| && s[i] == '{' && s[j] == '}'
    ensures r.Some? ==>
              exists i, j :: 0 <= i < j < |s| && r.value == s[i..j + 1]
                && s[i] == '{' && '{' !in s[..i]
                && s[j] == '}' && '}' !in s[j + 1..]
  {
    var first := FirstIndex(s, '{');
    var last := LastIndex(s, '}');
    BracePairsBounded(s);
    if first.Some? && last.Some? && first.value < last.value then
      Some(s[first.value..last.value + 1])
    else
      None
  }

  /** Every `{` before a `}` lies between the first `{` and the last `}`. */
  lemma BracePairsBounded(s: string)
    ensures forall i, j :: 0 <= i < j < |s| && s[i] == '{' && s[j] == '}' ==>
              && FirstIndex(s, '{').Some? && FirstIndex(s, '{').value <= i
              && LastIndex(s, '}').Some? && LastIndex(s, '}').value >= j
  {
    forall i, j | 0 <= i < j < |s| && s[i] == '{' && s[j] == '}'
      ensures FirstIndex(s, '{').Some? && FirstIndex(s, '{').value <= i
      ensures LastIndex(s, '}').Some? && LastIndex(s, '}').value >= j
    {
      BracePairBounds(s, i, j);
    }
  }

  lemma {:induction false} BracePairBounds(s: string, i: nat, j: nat)
    requires i < j < |s| && s[i] == '{' && s[j] == '}'
    ensures FirstIndex(s, '{').Some? && FirstIndex(s, '{').value <= i
    ensures LastIndex(s, '}').Some? && LastIndex(s, '}').value >= j
  {
    assert s[i] in s && s[j] in s;
    var f := FirstIndex(s, '{').value;
    var l := LastIndex(s, '}').value;
    assert forall k :: 0 <= k < f ==> s[..f][k] == s[k];
    assert forall k :: l < k < |s| ==> s[l + 1..][k - l - 1] == s[k];
  }

  function FirstIndex(s: string, c: char): (r: Option<nat>)
    ensures r.None? <==> c !in s
    ensures r.Some? ==> r.value < |s| && s[r.value] == c && c !in s[..r.value]
  {
    if s == [] then None
    else if s[0] == c then Some(0)
    else
      match FirstIndex(s[1..], c)
      case None => None
      case Some(i) =>
        assert s[..i + 1] == [s[0]] + s[1..][..i];
        Some(i + 1)
  }

  /** The first occurrence is the one with none before it. */
  lemma {:induction false} FirstIndexAt(s: string, c: char, k: nat)
    requires k < |s| && s[k] == c && c !in s[..k]
    ensures FirstIndex(s, c) == Some(k)
  {
    if k > 0 {
      assert s[0] == s[..k][0];
      assert s[1..][..k - 1] == s[..k][1..];
      FirstIndexAt(s[1..], c, k - 1);
    }
  }

  function LastIndex(s: string, c: char): (r: Option<nat>)
    ensures r.None? <==> c !in s
    ensures r.Some? ==> r.value < |s| && s[r.value] == c && c !in s[r.value + 1..]
  {
    if s == [] then None
    else if s[|s| - 1] == c then Some(|s| - 1)
    else
      match LastIndex(s[..|s| - 1], c)
      case None =>
        assert s == s[..|s| - 1] + [s[|s| - 1]];
        None
      case Some(i) =>
        assert s[i + 1..] == s[..|s| - 1][i + 1..] + [s[|s| - 1]];
        Some(i)
  }

  // ---------------------------------------------------------------------
  // parseModelJSON

  datatype ParseError = EmptyResponse | RateLimited | NoJson | InvalidJson

  function ParseErrorMessage(e: ParseError): string {
    match e
    case EmptyResponse => "Model returned an empty response. Please try again."
    case RateLimited => "Qwen rate limit reached. Wait a moment or choose a different model."
    case NoJson => "Model response did not contain JSON. Please retry or switch models."
    case InvalidJson => "Model response was not valid JSON. Please retry or switch models."
  }

  /** ASCII lower case, which is all `/i` changes in the letters of "too many". */
  function Lower(c: char): char {
    if 'A' <= c <= 'Z' then (c as int + 32) as char else c
  }

  /** `/^too many/i`. */
  predicate StartsTooMany(t: string) {
    var phrase := "too many";
    |t| >= |phrase| && forall i :: 0 <= i < |phrase| ==> Lower(t[i]) == phrase[i]
  }

  /** `parseModelJSON(content)`, with `JSON.parse` as the oracle `parse`
      (`None` when it throws). `content` is `None` when it is missing or not a
      string. The checks run in order: empty, rate limit, no brace span,
      unparsable span; a parsed span is returned as it is. */
  function ParseModelJSON(content: Option<string>, parse: string -> Option<Json>): (r: Result<Json, ParseError>)
    ensures r == Failure(EmptyResponse) <==> content.None? || content.value == ""
    ensures content.Some? && content.value != "" ==>
              var t := Trim(content.value);
              && (r == Failure(RateLimited) <==> StartsTooMany(t))
              && (r == Failure(NoJson) <==> !StartsTooMany(t) && JsonSpan(t).None?)
              && (!StartsTooMany(t) && JsonSpan(t).Some? ==>
                    (r == Failure(InvalidJson) <==> parse(JsonSpan(t).value).None?)
                    && (r.Success? ==> r == Success(parse(JsonSpan(t).value).value)))
  {
    if content.None? || content.value == "" then Failure(EmptyResponse)
    else
      var trimmed := Trim(content.value);
      if StartsTooMany(trimmed) then Failure(RateLimited)
      else match JsonSpan(trimmed)
        case None => Failure(NoJson)
        case Some(span) =>
          match parse(span)
          case None => Failure(InvalidJson)
          case Some(v) => Success(v)
  }

  /** A reply that starts with "Too many" is reported as the rate limit even
      when it also carries a JSON object, whatever the parser would say. */
  lemma RateLimitBeforeJson(rest: string, parse: string -> Option<Json>)
    ensures ParseModelJSON(Some("Too many requests " + rest), parse) == Failure(RateLimited)
  {
    var c := "Too many requests " + rest;
    TrimKeepsPrefix(c, 7);
    var t := Trim(c);
    assert c[..8] == "Too many";
    assert t[..8] == "Too many";
    assert StartsTooMany(t) by {
      forall i | 0 <= i < 8 ensures Lower(t[i]) == "too many"[i] {
        assert t[i] == t[..8][i];
      }
    }
  }

  /** The example reply "Here you go: {...}" yields exactly what the parser
      makes of the outermost braces, with nothing converted. */
  lemma SpanAfterCommentary(obj: string, parse: string -> Option<Json>)
    requires |obj| >= 2 && obj[0] == '{' && obj[|obj| - 1] == '}'
    ensures ParseModelJSON(Some("Here you go: " + obj), parse) == Failure(InvalidJson) <==> parse(obj).None?
    ensures parse(obj).Some? ==> ParseModelJSON(Some("Here you go: " + obj), parse) == Success(parse(obj).value)
  {
    var c := "Here you go: " + obj;
    assert c[|c| - 1] == '}';
    TrimUnchanged(c);
    assert !StartsTooMany(c) by {
      assert c[0] == 'H' && Lower(c[0]) != "too many"[0];
    }
    SpanAfterText("Here you go: ", obj);
  }

  /** Text without braces in front of an object does not change the span. */
  lemma {:induction false} SpanAfterText(text: string, obj: string)
    requires '{' !in text
    requires |obj| >= 2 && obj[0] == '{' && obj[|obj| - 1] == '}'
    ensures JsonSpan(text + obj) == Some(obj)
  {
    var t := text + obj;
    assert t[..|text|] == text;
    FirstIndexAt(t, '{', |text|);
    assert LastIndex(t, '}') == Some(|t| - 1);
    assert t[|text|..|t|] == obj;
  }

  // ---------------------------------------------------------------------
  // Model table

  datatype ModelConfig = ModelConfig(id: string, disableThinking: bool)

  const ModelTable: map<string, ModelConfig> := map[
    "qwen-turbo" := ModelConfig("qwen-turbo", false),
    "qwen3-max" := ModelConfig("qwen3-max", false),
    "qwen3-8b" := ModelConfig("qwen3-8b", true)
  ]

  const DefaultModel: ModelConfig := ModelConfig("qwen3-8b", true)

  /** `MODEL_CONFIG[requested] || DEFAULT_MODEL`; `None` is a missing name. */
  function ResolveModelConfig(requested: Option<string>): (c: ModelConfig)
    ensures requested.Some? && requested.value in ModelTable ==> c == ModelTable[requested.value]
    ensures !(requested.Some? && requested.value in ModelTable) ==> c == ModelTable["qwen3-8b"]
    ensures c in ModelTable.Values && ModelTable[c.id] == c
  {
    if requested.Some? && requested.value in ModelTable then ModelTable[requested.value] else DefaultModel
  }

  /** The `parameters` object of a model request: `enable_thinking` is present
      (and false) only for a model whose configuration disables thinking. */
  datatype RequestParameters = RequestParameters(resultFormat: string, enableThinking: Option<bool>)

  function ParametersFor(config: ModelConfig): (p: RequestParameters)
    ensures p.resultFormat == "message"
    ensures p.enableThinking.Some? <==> config.disableThinking
    ensures p.enableThinking != Some(true)
  {
    RequestParameters("message", if config.disableThinking then Some(false) else None)
  }

  /** Thinking is switched off exactly when the request resolves to
      `qwen3-8b`, that is, for every name other than the two larger models. */
  lemma ThinkingDisabledIff(requested: Option<string>)
    ensures var c := ResolveModelConfig(requested);
      && (ParametersFor(c).enableThinking == Some(false) <==> c.id == "qwen3-8b")
      && (c.id == "qwen3-8b" <==> !(requested == Some("qwen-turbo") || requested == Some("qwen3-max")))
  {
    var c := ResolveModelConfig(requested);
    if requested.Some? && requested.value in ModelTable {
      assert requested.value == "qwen-turbo" || requested.value == "qwen3-max" || requested.value == "qwen3-8b";
    }
    assert ModelTable["qwen-turbo"].id != "qwen3-8b";
  }
}

# Premier League odds prediction: a verified model of its rules

The application asks a language model for 1X2 odds on a Premier League
fixture and sets them against bookmaker odds. Most of its code is
rendering and HTTP plumbing. This project models the rules underneath it,
in Dafny, across the copies that live in different revisions of the app:

- the decimal ↔ American (moneyline) conversions (`Odds`);
- how the model's reply is parsed into a prediction (`PredictionService`,
  `ApiPrediction`);
- the comparison engine: per-outcome differences, clamped accuracy and the
  first-wins closest outcome (`Comparison`);
- the sample-data football service (`FootballService`);
- the season summaries sent with a prediction request, and the sample-fixture
  test (`Helpers`);
- the two browser dashboards as state machines (`PublicApp.Session`,
  `DistApp.Dashboard`).

The modules are supported by shared building blocks. `Common` holds JSON
values, `?.`, `??`, `||` and truthiness. `Text` holds `trim`, integer
printing, `parseFloat` and `Number`. `Seqs` holds `filter` and `find`.

Numbers are Dafny `real`s, and `Math.round(x)` is `⌊x + 1/2⌋`. The NaN
that `parseFloat` or `Number` gives on unreadable text is `None`.
`JSON.parse` is a parameter `parse: string -> Option<Json>` (`None` where it
throws). Anything fetched over the network is a parameter too: the model's
reply text, a response body, the statistics of a team.

## Model

| member | source | states |
|---|---|---|
| `Odds.AmericanShape` | client/src/utils/helpers.js:1-5 | `convertDecimalToAmerican` gives "N/A" exactly when `dec <= 1`; otherwise a sign ('+' from 2 up, '-' below) followed by the digits of a whole number of at least 100 |
| `Odds.ConvertDecimalToAmerican` | client/src/utils/helpers.js:1-5 | "N/A" exactly for odds of at most 1; otherwise a signed text, '+' from 2 up and '-' below |
| `Odds.DecimalToMoneyline` | public/js/app.js:7-15 | the text starts with '+' exactly from 2 up and with '-' exactly from 1 up to 2 (at 1 the "-Infinity" of -100/0); below 1 it carries no sign |
| `Odds.AmericanExamples` | client/src/utils/helpers.js:3-4 | decimal 2 gives "+100" and decimal 1.5 gives "-200" |
| `Odds.UnderdogAtLeast100` | client/src/utils/helpers.js:3 | for odds of 2 or more the rounded moneyline is at least 100 |
| `Odds.FavouriteAtLeast100` | client/src/utils/helpers.js:4 | for odds strictly between 1 and 2 the favourite's magnitude rounds to at least 100 (and the unguarded copy's value to at most -100) |
| `Odds.FormatMoneylineWithProbability` | client/src/utils/helpers.js:7-12 | "N/A" exactly when `dec <= 1`; otherwise the American text of `dec` and an implied percentage `p` with `p * dec = 100`, strictly between 0 and 100 |
| `Odds.ImpliedProbabilityOfEvens` | dist/app.js:17-22 | decimal 2 has implied probability 50% |
| `Odds.MoneylineValueToDecimal` | public/js/app.js:17-24 | the decimal is at least 1 and above 1 for every non-zero moneyline; for a moneyline of magnitude at least 100 it is at least 2 exactly on the underdog side (+100 up, or -100) |
| `Odds.MoneylineToDecimal` | public/js/app.js:17-24 | defined (not NaN) exactly when `parseFloat` reads a number, and then at least 1 |
| `Odds.IsMoneylineFormat` | public/js/app.js:26-28 | a value is in moneyline format when it is a string holding a plus or a minus sign |
| `Odds.AmericanRoundTrip` | client/src/utils/helpers.js:1-5 | for odds above 1, reading the American text back with `moneylineToDecimal` lands within 1/200 of the original odds |
| `Odds.MoneylineRoundTrip` | public/js/app.js:7-24 | the same round trip, within 1/200, for the unguarded `decimalToMoneyline` |
| `Odds.UnderdogRoundTrip` | public/js/app.js:7-10 | the round trip bound for the "+" branch |
| `Odds.FavouriteRoundTrip` | public/js/app.js:11-14 | the round trip bound for the "-" branch |
| `Odds.FavouriteRoundingError` | public/js/app.js:22 | rounding `100/a` to a whole k ≥ 100 moves `100/k` by at most 1/200 |
| `Odds.SignedStringReadsBack` | public/js/app.js:17-24 | a moneyline written with its sign reads back as `moneylineToDecimal` of its value |
| `Odds.CanonicalMoneylineComesBack` | public/js/app.js:7-24 | a whole moneyline of +100 or more, or below -100, survives decimal and back unchanged |
| `Odds.OtherMoneylineChangesSign` | public/js/app.js:7-24 | any moneyline from -100 to +99 comes back with the other sign |
| `Odds.SignedMoneylineRoundTrip` | public/js/app.js:7-24 | moneyline → decimal → moneyline is the identity exactly for `m >= 100` or `m < -100` |
| `Odds.MinusHundredBecomesPlusHundred` | public/js/app.js:7-24 | -100 becomes decimal 2, which is written "+100" |
| `Odds.RoundOfNegation` | api/prediction.js:15 | `Math.round(-x)` is `-Math.round(x)` except at halves, where it is one more |
| `Odds.RevisionsAgreeExceptAtHalves` | api/prediction.js:10-18 | for odds above 1 the guarded and unguarded converters agree exactly when the odds are 2 or more or `100/(d-1)` is not a half |
| `Odds.RevisionsDisagreeAtHalf` | client/src/utils/helpers.js:4 | at decimal 501/301 (`100/(d-1)` = 150.5) one copy writes "-151" and the other "-150" |
| `Odds.UnguardedBelowOne` | api/prediction.js:14-16 | the unguarded converter writes "200" for 0.5 and "-Infinity" for 1, where the guarded one writes "N/A" |
| `Odds.MoneylineFormatCases` | public/js/app.js:26-28 | a number is never in moneyline format; every signed moneyline string is |
| `Comparison.Diff` | client/src/services/predictionService.js:168-186 | per outcome: the two odds, the difference `abs(predicted - actual)` and a percentage difference with `pct * abs(actual) = diff * 100`; both are non-negative, and the difference is 0 exactly when the odds are equal |
| `Comparison.Compare` | client/src/services/predictionService.js:168-187 | every outcome's entry is the `Diff` of that outcome's odds |
| `Comparison.Accuracy` | client/src/services/predictionService.js:189-195 | never negative; `100 - average` while the average is at most 100, and 0 from there on |
| `Comparison.Closest` | client/src/services/predictionService.js:203-205 | the outcome kept is the starting key or one of the entries, and its percentage difference is no larger than the starting key's |
| `Comparison.CompareOdds` | client/src/services/predictionService.js:166-207 | the report: per-outcome entries; the average is the mean of the three percentage differences; accuracy in [0, 100] equal to `max(0, 100 - average)`; closest is homeWin, draw or awayWin by strict-improvement order (ties go to the earlier key) |
| `Comparison.ClosestIsFirstArgMin` | api/prediction.js:205-207 | the `reduce` returns the first entry, in order, whose percentage difference is minimal |
| `Comparison.ClosestPredictionCases` | client/src/services/predictionService.js:203-205 | the three cases of the closest outcome, each as an if-and-only-if on the three percentage differences |
| `Comparison.PerfectAccuracyIff` | client/src/services/predictionService.js:189-195 | accuracy is 100 exactly when the prediction equals the actual odds |
| `Comparison.IdenticalOdds` | client/src/services/predictionService.js:168-205 | identical odds give zero differences, accuracy 100 and homeWin as closest |
| `Comparison.WorkedExample` | api/prediction.js:169-207 | a concrete comparison: draw matches exactly, is the closest, and accuracy is between 90 and 100 |
| `PredictionService.FirstIndex` | client/src/services/predictionService.js:27 | the first position of a character, or none when it does not occur |
| `PredictionService.LastIndex` | client/src/services/predictionService.js:27 | the last position of a character, or none when it does not occur |
| `PredictionService.JsonSpan` | client/src/services/predictionService.js:27-30 | the greedy `{…}` match exists exactly when some `{` precedes some `}`, and runs from the first `{` to the last `}` |
| `PredictionService.ParseModelJSON` | client/src/services/predictionService.js:17-38 | errors in order: empty (missing or "" content), rate limit (trimmed text starts "too many", any case), no JSON span, invalid JSON; otherwise the parse of the span |
| `PredictionService.StartsTooMany` | client/src/services/predictionService.js:23 | `/^too many/i`: the text begins with "too many" in any mix of upper- and lower-case letters |
| `PredictionService.RateLimitBeforeJson` | client/src/services/predictionService.js:22-25 | "Too many requests …" is a rate-limit error even when an object follows |
| `PredictionService.SpanAfterCommentary` | client/src/services/predictionService.js:27-37 | an object after leading commentary is parsed; a span the parser rejects is the invalid-JSON error |
| `PredictionService.SpanAfterText` | client/src/services/predictionService.js:27 | text without braces in front of an object leaves the object as the span |
| `PredictionService.ResolveModelConfig` | client/src/services/predictionService.js:41-43 | a key of the model table gives its entry; a missing name, or one that is neither a table key nor a property every object inherits, gives the qwen3-8b entry |
| `PredictionService.ParametersFor` | client/src/services/predictionService.js:49-50 | `enable_thinking = false` is sent exactly when the configuration disables thinking; otherwise no flag is sent |
| `PredictionService.ThinkingDisabledIff` | client/src/services/predictionService.js:6-11 | thinking is switched off exactly when the request resolves to qwen3-8b |
| `FootballService.GetFixtures` | client/src/services/footballService.js:52-77 | fails only on an invalid date; otherwise an order-preserving sublist of the sample holding exactly the kept fixtures, each with as many copies as the sample has, or the whole sample when none is kept |
| `FootballService.FilteredSpec` | client/src/services/footballService.js:58-72 | the day filter, the window filter or no filter keeps, in order, every copy of each fixture the query keeps and nothing else |
| `FootballService.GetFixturesNeverEmpty` | client/src/services/footballService.js:58-76 | no filter returns the whole sample, and a non-empty sample never yields an empty list |
| `FootballService.FilterPrecedence` | client/src/services/footballService.js:60-69 | a date overrides `from`/`to`, and a bound of 0 constrains nothing |
| `FootballService.GetFixtureById` | client/src/services/footballService.js:87-98 | the first fixture whose id reads the same as `String(id)`; otherwise "Fixture {id} not found" |
| `FootballService.TextIdFindsNumericFixture` | client/src/services/footballService.js:91 | the text "17" finds the fixture whose id is the number 17 |
| `FootballService.GetTeamStatistics` | client/src/services/footballService.js:113-132 | a truthy entry with source "sample"; otherwise no data with source "none" |
| `FootballService.GetOdds` | client/src/services/footballService.js:142-163 | bookmaker and odds exactly when the entry and its odds are truthy; otherwise the "No odds available" message |
| `Helpers.NumberOfJson` | client/src/utils/helpers.js:15 | `Number` of a JSON value: null is 0, a number is itself, a string is read by `Number`, an object is NaN |
| `Helpers.NumberOfValue` | client/src/utils/helpers.js:15 | `Number` of a missing value is NaN; of a present one, `Number` of that value |
| `Helpers.IsSampleFixture` | client/src/utils/helpers.js:14-16 | a fixture is a sample exactly when `Number` of its id is NaN |
| `Helpers.SampleFixtureById` | client/src/utils/helpers.js:14-16 | numeric ids are live, a missing id is a sample, and a string id is a sample exactly when `Number` cannot read it |
| `Helpers.WordIdIsSample` | client/src/utils/helpers.js:15 | ids such as "sample-…" mark sample fixtures |
| `Helpers.NumericStringIdIsLive` | client/src/utils/helpers.js:15 | a string of digits is a live id |
| `Helpers.EmptyIdIsLive` | client/src/utils/helpers.js:15 | the empty string reads as 0 and so is live |
| `Helpers.SummarizeSeasonStats` | client/src/utils/helpers.js:30-44 | null exactly for a falsy period; season and rank "N/A" only when null or missing (`??`), form "N/A" for every falsy value (`\|\|`); goal totals default to 0; the record is built from the win, draw and loss counts, each defaulting to 0 |
| `Helpers.BuildStatsPayload` | client/src/utils/helpers.js:46-51 | both keys are always there, each null exactly when its period is falsy |
| `Helpers.RecordOfCounts` | client/src/utils/helpers.js:42 | whole win, draw and loss counts are written "{w}W-{d}D-{l}L" in decimal |
| `Helpers.SummaryRecord` | client/src/utils/helpers.js:32-42 | for any period whose counts are each missing, null or a whole number, the summary's record is "{w}W-{d}D-{l}L" with 0 for every missing count |
| `Helpers.NoCountsRecord` | client/src/utils/helpers.js:32-42 | a period without any fixture counts reports "0W-0D-0L" |
| `Helpers.RecordInjective` | client/src/utils/helpers.js:42 | different win/draw/loss counts give different records |
| `Helpers.SeasonKeptFormReplaced` | client/src/utils/helpers.js:37-39 | a season of 0 is kept while an empty form becomes "N/A" |
| `ApiPrediction.NormalizeOddsFields` | api/prediction.js:108-114 | the in-place rewrite loop computes the field-wise normalisation |
| `ApiPrediction.NormalizedFields` | api/prediction.js:108-114 | the prediction with each numeric odds field replaced by its moneyline text |
| `ApiPrediction.NormalizedFieldsProperties` | api/prediction.js:109-114 | afterwards no odds field is a number; numeric odds became their moneyline, every other field is unchanged, and a second pass changes nothing |
| `ApiPrediction.KeyConfigured` | api/prediction.js:24-28 | the key counts as configured when it is set, non-empty and not the placeholder text |
| `ApiPrediction.MakeLLMPrediction` | api/prediction.js:23-117 | errors in order: key not configured, no content, no span, parse failure, null prediction; an object comes back with its odds rewritten |
| `ApiPrediction.RateLimitReplyDiffers` | api/prediction.js:101-106 | a "Too many requests {…}" reply is a prediction to the server but a rate limit to the client parser |
| `ApiPrediction.HandlePredict` | api/prediction.js:123-151 | 400 exactly when a team is missing; with both teams, 500 with the message of each failure (key, content, span, parse, null), and for a parsed object its normalised fields with `timestamp` and `model` added, so no odds field is a number |
| `ApiPrediction.OddsOf` | api/prediction.js:173-185 | the three odds exist exactly when each field coerces to a number, and are then those three numbers |
| `ApiPrediction.HandleCompare` | api/prediction.js:157-209 | 400 "Missing required data for comparison" exactly when either object is falsy; a report exactly when all odds coerce and the actual ones are non-zero, and then the report is the comparison of the two coerced odds sets, with accuracy in [0, 100] and the closest outcome at the minimum |
| `ApiPrediction.MoneylineTextCoerces` | api/prediction.js:173 | the text "+150" is coerced to the number 150 |
| `PublicApp.MatchWinnerBet` | public/js/app.js:402 | the first of the bookmaker's bets named "Match Winner" (no earlier bet has that name), or none exactly when the bookmaker has no bets or no such bet |
| `PublicApp.Qualifies` | public/js/app.js:402-403 | a bookmaker is taken when its first "Match Winner" bet has exactly three values |
| `PublicApp.FirstQualifying` | public/js/app.js:401-408 | the first bookmaker whose Match Winner bet has three values; none exactly when no bookmaker has one |
| `PublicApp.BookmakersAppend` | public/js/app.js:400-401 | the bookmakers of two lists of entries, in scan order, are those of each |
| `PublicApp.FirstQualifyingAppend` | public/js/app.js:400-410 | the first qualifying bookmaker of two lists is the first list's when it has one |
| `PublicApp.PrefixDecides` | public/js/app.js:409 | once a prefix of the entries holds a qualifying bookmaker, the rest cannot change the answer |
| `PublicApp.FoundAt` | public/js/app.js:403-407 | a qualifying bookmaker with none before it is the answer for the whole response |
| `PublicApp.SearchMatchWinner` | public/js/app.js:396-410 | the nested loops with `break` find the first qualifying bookmaker's Match Winner bet and name, or nothing and "" |
| `PublicApp.OddText` | public/js/app.js:419-421 | the odds text of the first outcome with the wanted label; none when no outcome has that label or its odds are missing or empty |
| `PublicApp.OddFor` | public/js/app.js:419-421 | a missing text reads as 0; any other text is read by `parseFloat` |
| `PublicApp.IsSignedInteger` | public/js/app.js:481 | `^[+-]\d+$`: a sign followed by at least one digit and nothing else |
| `PublicApp.ValidateManualEntry` | public/js/app.js:476-491 | accepted exactly when all three trimmed entries match `^[+-]\d+$` and are non-zero; the pattern is checked first |
| `PublicApp.SignedNumberPasses` | public/js/app.js:481-491 | a sign followed by the digits of a positive number passes both checks |
| `PublicApp.AcceptsSignedOdds` | public/js/app.js:476-491 | entries such as "+150", "+220", "-200" are accepted as typed |
| `PublicApp.RejectsUnsignedOdds` | public/js/app.js:481-485 | an unsigned entry such as "150" is rejected by the pattern |
| `PublicApp.RejectsZeroOdds` | public/js/app.js:488-491 | "+0" passes the pattern and is rejected as zero |
| `PublicApp.AcceptedEntryHasDecimal` | public/js/app.js:17-24 | an accepted entry reads back as decimal odds above 1 |
| `PublicApp.DecimalField` | public/js/app.js:541-551 | text goes through `moneylineToDecimal` (NaN is sent as null); other values pass unchanged; an absent field stays absent |
| `PublicApp.DecimalPayload` | public/js/app.js:541-563 | each of the three fields of the request object is the `DecimalField` of that field |
| `PublicApp.PayloadRecoversDecimal` | public/js/app.js:430-435 | odds stored as the moneyline of a decimal above 1 are sent back within 1/200 of it |
| `PublicApp.StoredPayload` | public/js/app.js:553-563 | stored odds are sent as their three moneyline strings |
| `PublicApp.StoredOddsReachComparison` | public/js/app.js:493-563 | stored odds that pass the manual checks are sent as decimals above 1 |
| `PublicApp.ManualOddsReachComparison` | public/js/app.js:476-563 | every accepted manual entry reaches the comparison request as decimals above 1 |
| `PublicApp.Session.constructor` | public/js/app.js:1-4 | nothing is selected, predicted or stored at the start |
| `PublicApp.Session.SelectFixture` | public/js/app.js:165-167 | the new fixture, with prediction and odds cleared |
| `PublicApp.Session.RecordPrediction` | public/js/app.js:312-318 | the prediction is stored and a comparison follows exactly when odds are held |
| `PublicApp.Session.LoadActualOdds` | public/js/app.js:377-442 | the no-fixture outcome exactly when no fixture is selected, and then nothing changes; no data or no qualifying bookmaker: the manual form; three usable odds: their moneylines and the bookmaker's name are stored; a missing, zero or NaN odd: the manual form (and no other outcome) with the odds unchanged |
| `PublicApp.Session.SubmitManualOdds` | public/js/app.js:475-503 | stores the three trimmed entries under "Manual Entry" exactly when validation passes; otherwise the validation error and nothing changes |
| `PublicApp.Session.ComparisonPayload` | public/js/app.js:533-563 | nothing unless a prediction and odds are both held; then both sides in decimal odds |
| `DistApp.FixturesToRender` | dist/app.js:136-148 | nothing and no banner for an empty list; the banner exactly when a sample fixture is present, and then only the sample fixtures, each with as many copies as the list has; otherwise the whole list |
| `DistApp.OneSampleHidesLiveFixtures` | dist/app.js:146-147 | a list of live fixtures is shown whole; adding one sample fixture hides every live one |
| `DistApp.FilterOfOneMatch` | dist/app.js:146 | filtering where only the last element passes keeps exactly it |
| `DistApp.FloatOf` | dist/app.js:415-417 | `parseFloat` of a response value: numbers are themselves, strings are read, other values are NaN |
| `DistApp.BookmakerName` | dist/app.js:428 | always truthy: the title when truthy, else the key when truthy, else "Bookmaker" |
| `DistApp.StoreOdds` | dist/app.js:421-429 | the odds kept: the three decimals, the American text of each, and the bookmaker's name |
| `DistApp.MatchDataFor` | dist/app.js:336-351 | match data exists exactly when a fixture is selected, it has both teams and its `fixture` part, and both statistics requests succeeded; it then holds the two team names and the formatted date |
| `DistApp.MatchDataStats` | dist/app.js:342-351 | the statistics sent are `buildStatsPayload` of the home and of the away response |
| `DistApp.Dashboard.constructor` | dist/app.js:1-8 | empty state, with qwen3-8b as both selected and last-used model |
| `DistApp.Dashboard.SelectModel` | dist/app.js:780-783 | only the selected model changes |
| `DistApp.Dashboard.SelectFixture` | dist/app.js:175-179 | the new fixture, with prediction, odds, match data and chat history cleared |
| `DistApp.Dashboard.GeneratePrediction` | dist/app.js:327-385 | nothing without a fixture; the match data (`MatchDataFor`) is stored before the reply, so it survives a failed prediction; a successful reply stores the prediction and the model used, and the comparison follows when odds are loaded |
| `DistApp.Dashboard.LoadActualOdds` | dist/app.js:389-442 | odds are stored exactly when the market has odds and all three parse to numbers; then the decimals, their American text and the bookmaker's name |
| `DistApp.Dashboard.SubmitManualOdds` | dist/app.js:469-492 | refused exactly when an entry is not a number; otherwise the three decimals (1 or less included) are stored under "Manual Entry" |
| `DistApp.Dashboard.SendChatQuestion` | dist/app.js:586-598 | refused exactly when the trimmed text is empty; otherwise exactly one user entry, the trimmed question, is appended |
| `DistApp.Dashboard.RequestExplanation` | dist/app.js:600-636 | refused without a prediction and match data; one assistant entry is appended exactly when the reply succeeds with an explanation; the request names the last-used model, or the selected one |
| `DistApp.Dashboard.CompareRequest` | dist/app.js:639-657 | nothing unless a prediction and odds are both held; then the prediction and the stored decimals |
| `DistApp.ManualEntryBelowOneShownAsNA` | dist/app.js:474-483 | "-3" is accepted as decimal -3 and shown as "N/A" |
| `DistApp.StoredAmericanReadsBack` | dist/app.js:420-426 | the American text stored beside a decimal above 1 reads back within 1/200 of it |
| `Text.TrimIsInfix` | public/js/app.js:476-478 | `trim` returns the contiguous part of the text that has only white space before and after it |
| `Text.TrimStartSpec` | client/src/services/predictionService.js:21 | the leading part dropped is all white space, and what is left starts with something else |
| `Text.TrimEndSpec` | dist/app.js:588 | the trailing part dropped is all white space, and what is left ends with something else |
| `Text.Trim` | dist/app.js:588 | never longer than its input, and neither starts nor ends with white space |
| `Text.ParseFloat` | public/js/app.js:18 | `parseFloat`: the number the decimal literal after leading white space denotes, ignoring what follows; NaN when there is none |
| `Text.NumberOf` | client/src/utils/helpers.js:15 | `Number`: 0 for blank text, the value of text that is one decimal literal once trimmed, NaN otherwise |
| `Text.NumberOfSigned` | api/prediction.js:173 | `Number` reads a sign followed by digits as that signed whole number |
| `Text.ParseFloatSigned` | public/js/app.js:18 | `parseFloat` reads a sign followed by digits as that signed whole number |
| `Text.NumberOfNatToString` | client/src/utils/helpers.js:15 | `Number` reads a string of digits as its value |
| `Text.NumberOfWord` | client/src/utils/helpers.js:15 | `Number` of text starting with a letter is NaN |
| `Seqs.FilterIsSubsequence` | client/src/services/footballService.js:62 | `filter` keeps its elements in their order |
| `Seqs.FilterCounts` | client/src/services/footballService.js:62 | `filter` keeps every copy of an element that passes and no copy of one that fails |
| `Seqs.FindFirst` | client/src/services/footballService.js:91 | `find`: the first element that passes, or none exactly when none passes |

## Left out

- Network and HTTP I/O are not modelled: the `fetch`/axios calls, the Express routing, `server.js`, API keys read from the environment, and the sample-data loading and caching. What a request returns is a parameter of the operation that uses it.
- `JSON.parse` is a parameter. The text of its error message, the key order of parsed objects, array indices and prototype properties are not modelled.
- `api/football.js` and every React component and DOM template are not part of this model. That covers toasts, `innerHTML`, scrolling, event wiring, `formatTeamStats` and `displayComparison`.
- Dates are not parsed: `new Date`, `toISOString`, `getTime` and `formatDate`. A fixture's timestamp and day prefix are given with it, and the formatted date is a parameter.
- IEEE-754 behaviour is not modelled. This covers NaN, Infinity, `isFinite`, `toFixed`, floating-point artefacts of `Math.round`, hexadecimal, binary ("0b11" is 3) and octal ("0o17" is 15) literals and "Infinity" read by `Number` (and unary `-`), which the model reads as NaN, "Infinity" read by `parseFloat`, and the NaN or Infinity of a comparison against zero odds. Reals are exact; `NotANumber` stands for those comparison results, and the dist `isFinite` check on parsed odds reduces to "is a number".
- `Helpers.Interpolate`: a template literal's text for fractional numbers, arrays and objects is not modelled, so such counts give no record.
- `DistApp.FloatOf`: `parseFloat` of an array, which reads the array's joined text, is not modelled and gives NaN.
- `ApiPrediction.HandlePredict`: the spread of a prediction that is not an object is taken as no fields, whereas JavaScript spreads a string or an array by index (text that starts with `{` and ends with `}` parses only to an object, so this needs an unusual parser); the timestamp text is a parameter.
- `ApiPrediction.MakeLLMPrediction`: the "no content" error message stops before its "Response structure: …" suffix, which prints the reply envelope that is not modelled.
- `ApiPrediction.MakeLLMPrediction`: extracting the content from the model's reply envelope (`output.choices[0].message.content || output.text`) is not modelled; the content is a parameter.
- `PublicApp.Session.LoadActualOdds`: the failed response, the missing data and a thrown error all lead to the manual form and are one case here; the toast text is not modelled.
- `DistApp.Dashboard.GeneratePrediction`: errors raised by the statistics requests are one case (`stats` is `None`), and the request body's model field is not modelled.
- `DistApp.Dashboard.GeneratePrediction`: `compareNext` does not model a throw from `displayAIPrediction` (dist/app.js:374), which skips the comparison (dist/app.js:377-379) after the prediction is stored. It throws on a null prediction (`prediction.homeWin`, dist/app.js:529), and on an odds field that is a string or an array reading as a number above 1 (`toFixed`, dist/app.js:21). The model's `compareNext` is `actualOdds.Some?` for every stored prediction.
- `ApiPrediction.HandleCompare`: the route copies the request's raw `homeWin`, `draw` and `awayWin` values into the `llm` and `actual` fields of its reply (api/prediction.js:171-172, 177-178, 183-184), for example a string "2.5" or `null`. The model stores the coerced numbers there (2.5, 0) and does not keep the raw values.
- `Text.NumberOf`: reads binary and octal literals ("0b11", "0o17") as NaN, where `Number` reads them as 3 and 15. This carries to the members that coerce with `Number` (`Helpers.NumberOfJson`, `Helpers.IsSampleFixture`, `ApiPrediction.OddsOf`, `ApiPrediction.HandleCompare`).
- The live-API fixture lookup and the team-name odds fallback do not appear in the code and are not modelled.
- `makeLLMRequest` is only modelled for its thinking flag. The request itself is I/O.
- `PublicApp.DecimalField`: the text "-Infinity" is not read back as -Infinity. The model's `parseFloat` reads no number from it, so it is sent as null.
- `PredictionService.ResolveModelConfig`: a name that every JavaScript object inherits ("toString", "constructor", …) finds that inherited property in the table, which the model does not represent; it gives the qwen3-8b entry for such names.
- `PredictionService.ThinkingDisabledIff`: holds for every name except those inherited ones, for which JavaScript sends no thinking flag.

/** The browser dashboard in `public/js/app.js`: the odds it keeps for the
    selected fixture, the search for a bookmaker's "Match Winner" market,
    manual moneyline entry, and the decimal odds it sends for comparison.
    Requests, toasts and HTML rendering are not modelled. */
module PublicApp {
  import opened Common
  import opened Text
  import opened Seqs
  import opened Odds

  // ---------------------------------------------------------------------
  // The odds response

  /** One priced outcome of a bet: its label ("Home", "Draw", "Away") and its
      decimal odds as text, `None` when `odd` is missing. */
  datatype OddEntry = OddEntry(value: string, odd: Option<string>)

  /** A bet: its name and, when present, its outcomes. */
  datatype Bet = Bet(name: string, values: Option<seq<OddEntry>>)

  /** A bookmaker: its name and, when present, its bets. */
  datatype Bookmaker = Bookmaker(name: string, bets: Option<seq<Bet>>)

  /** One entry of the odds response, with its bookmakers when present. */
  datatype OddsData = OddsData(bookmakers: Option<seq<Bookmaker>>)

  function BookmakersOf(d: OddsData): seq<Bookmaker> {
    if d.bookmakers.Some? then d.bookmakers.value else []
  }

  /** Every bookmaker of the response, in the order the loops visit them. */
  function Bookmakers(data: seq<OddsData>): seq<Bookmaker> {
    if data == [] then [] else Bookmakers(data[..|data| - 1]) + BookmakersOf(data[|data| - 1])
  }

  /** `bookmaker.bets?.find(bet => bet.name === 'Match Winner')`. */
  function MatchWinnerBet(b: Bookmaker): (r: Option<Bet>)
    ensures r.Some? ==> r.value.name == "Match Winner"
    ensures r.Some? ==> b.bets.Some? && exists i :: (0 <= i < |b.bets.value| && r.value == b.bets.value[i]
              && forall j :: 0 <= j < i ==> b.bets.value[j].name != "Match Winner")
    ensures r.None? <==> b.bets.None? || forall i :: 0 <= i < |b.bets.value| ==> b.bets.value[i].name != "Match Winner"
  {
    if b.bets.None? then None
    else match FindFirst(b.bets.value, (bet: Bet) => bet.name == "Match Winner")
      case None => None
      case Some(i) => Some(b.bets.value[i])
  }

  /** A bookmaker is taken when its first "Match Winner" bet has exactly three
      outcomes. */
  predicate Qualifies(b: Bookmaker) {
    var bet := MatchWinnerBet(b);
    bet.Some? && bet.value.values.Some? && |bet.value.values.value| == 3
  }

  /** The first qualifying bookmaker of a list. */
  function FirstQualifying(bs: seq<Bookmaker>): (r: Option<Bookmaker>)
    ensures r.Some? ==> Qualifies(r.value) && r.value in bs
    ensures r.None? <==> forall i :: 0 <= i < |bs| ==> !Qualifies(bs[i])
  {
    if bs == [] then None
    else if Qualifies(bs[0]) then Some(bs[0])
    else
      assert forall i :: 1 <= i < |bs| ==> bs[i] == bs[1..][i - 1];
      FirstQualifying(bs[1..])
  }

  lemma {:induction false} BookmakersAppend(x: seq<OddsData>, y: seq<OddsData>)
    ensures Bookmakers(x + y) == Bookmakers(x) + Bookmakers(y)
    decreases |y|
  {
    if y != [] {
      var y' := y[..|y| - 1];
      assert (x + y)[..|x + y| - 1] == x + y';
      assert (x + y)[|x + y| - 1] == y[|y| - 1];
      BookmakersAppend(x, y');
    } else {
      assert x + y == x;
    }
  }

  lemma {:induction false} FirstQualifyingAppend(a: seq<Bookmaker>, b: seq<Bookmaker>)
    ensures FirstQualifying(a + b) == if FirstQualifying(a).Some? then FirstQualifying(a) else FirstQualifying(b)
  {
    if a == [] {
      assert a + b == b;
    } else {
      assert (a + b)[0] == a[0];
      assert (a + b)[1..] == a[1..] + b;
      FirstQualifyingAppend(a[1..], b);
    }
  }

  /** One more entry adds its bookmakers at the end. */
  lemma {:induction false} BookmakersStep(data: seq<OddsData>, i: nat)
    requires i < |data|
    ensures Bookmakers(data[..i + 1]) == Bookmakers(data[..i]) + BookmakersOf(data[i])
  {
    assert data[..i + 1][..i] == data[..i];
  }

  /** Once a prefix of the entries holds a qualifying bookmaker, the rest of
      the response cannot change which one is first. */
  lemma {:induction false} PrefixDecides(data: seq<OddsData>, k: nat)
    requires k <= |data|
    requires FirstQualifying(Bookmakers(data[..k])).Some?
    ensures FirstQualifying(Bookmakers(data)) == FirstQualifying(Bookmakers(data[..k]))
  {
    assert data == data[..k] + data[k..];
    BookmakersAppend(data[..k], data[k..]);
    FirstQualifyingAppend(Bookmakers(data[..k]), Bookmakers(data[k..]));
  }

  /** The first qualifying bookmaker of a list, when the ones before it do not
      qualify. */
  lemma {:induction false} FirstAt(bms: seq<Bookmaker>, j: nat)
    requires j < |bms|
    requires FirstQualifying(bms[..j]).None? && Qualifies(bms[j])
    ensures FirstQualifying(bms) == Some(bms[j])
  {
    assert bms == bms[..j] + ([bms[j]] + bms[j + 1..]);
    FirstQualifyingAppend(bms[..j], [bms[j]] + bms[j + 1..]);
  }

  /** A qualifying bookmaker at position `j` of entry `i`, with none before
      it, is the first qualifying bookmaker of the whole response. */
  lemma {:induction false} FoundAt(data: seq<OddsData>, i: nat, j: nat)
    requires i < |data| && j < |BookmakersOf(data[i])|
    requires FirstQualifying(Bookmakers(data[..i])).None?
    requires FirstQualifying(BookmakersOf(data[i])[..j]).None?
    requires Qualifies(BookmakersOf(data[i])[j])
    ensures FirstQualifying(Bookmakers(data)) == Some(BookmakersOf(data[i])[j])
  {
    var bms := BookmakersOf(data[i]);
    FirstAt(bms, j);
    BookmakersStep(data, i);
    FirstQualifyingAppend(Bookmakers(data[..i]), bms);
    PrefixDecides(data, i + 1);
  }

  /** The nested loops of `loadActualOdds`: scan the entries, and within each
      its bookmakers, stopping at the first one whose "Match Winner" bet has
      three outcomes. */
  method SearchMatchWinner(data: seq<OddsData>) returns (bet: Option<Bet>, bookmakerName: string)
    ensures bet.Some? <==> FirstQualifying(Bookmakers(data)).Some?
    ensures bet.Some? ==>
              var b := FirstQualifying(Bookmakers(data)).value;
              bet == MatchWinnerBet(b) && bookmakerName == b.name
    ensures bet.None? ==> bookmakerName == ""
  {
    bet, bookmakerName := None, "";
    var i := 0;
    assert data[..0] == [];
    assert FirstQualifying(Bookmakers(data[..0])).None?;
    while i < |data|
      invariant 0 <= i <= |data|
      invariant bet.None? && bookmakerName == ""
      invariant FirstQualifying(Bookmakers(data[..i])).None?
    {
      var bms := BookmakersOf(data[i]);
      var j := 0;
      if data[i].bookmakers.Some? && |data[i].bookmakers.value| > 0 {
        while j < |bms|
          invariant 0 <= j <= |bms|
          invariant bet.None? && bookmakerName == ""
          invariant FirstQualifying(bms[..j]).None?
        {
          var candidate := MatchWinnerBet(bms[j]);
          if candidate.Some? && candidate.value.values.Some? && |candidate.value.values.value| == 3 {
            bet, bookmakerName := candidate, bms[j].name;
            FoundAt(data, i, j);
            break;
          }
          NoneExtends(bms, j);
          j := j + 1;
        }
        if bet.Some? {
          break;
        }
        assert bms[..j] == bms;
      }
      assert FirstQualifying(bms).None?;
      BookmakersStep(data, i);
      FirstQualifyingAppend(Bookmakers(data[..i]), bms);
      assert FirstQualifying(Bookmakers(data[..i + 1])).None?;
      i := i + 1;
    }
    if bet.None? {
      assert data[..i] == data;
    }
  }

  lemma {:induction false} NoneExtends(bms: seq<Bookmaker>, j: nat)
    requires j < |bms|
    requires FirstQualifying(bms[..j]).None? && !Qualifies(bms[j])
    ensures FirstQualifying(bms[..j + 1]).None?
  {
    assert bms[..j + 1] == bms[..j] + [bms[j]];
    FirstQualifyingAppend(bms[..j], [bms[j]]);
  }

  /** `values.find(v => v.value === label)?.odd || 0` before it is read:
      the odds text of the first outcome with that label, or `None` when no
      outcome has it, its odds are missing or they are the empty string. */
  function OddText(values: seq<OddEntry>, wanted: string): (r: Option<string>)
    ensures (forall i :: 0 <= i < |values| ==> values[i].value != wanted) ==> r.None?
    ensures forall i :: 0 <= i < |values| && values[i].value == wanted
                        && (forall j :: 0 <= j < i ==> values[j].value != wanted) ==>
              r == if values[i].odd.None? || values[i].odd.value == "" then None else values[i].odd
  {
    match FindFirst(values, (v: OddEntry) => v.value == wanted)
    case None => None
    case Some(i) => if values[i].odd.None? || values[i].odd.value == "" then None else values[i].odd
  }

  /** `parseFloat` of that text, or of 0 when there is none; `None` is the
      NaN of text that is not a number. */
  function OddFor(values: seq<OddEntry>, wanted: string): (r: Option<real>)
    ensures OddText(values, wanted).None? ==> r == Some(0.0)
    ensures OddText(values, wanted).Some? ==> r == ParseFloat(OddText(values, wanted).value)
  {
    var text := OddText(values, wanted);
    if text.None? then Some(0.0) else ParseFloat(text.value)
  }

  /** `!x` on a number: 0 and NaN are falsy. */
  predicate UsableOdd(x: Option<real>) {
    x.Some? && x.value != 0.0
  }

  // ---------------------------------------------------------------------
  // Manual entry

  /** `/^[+-]\d+$/`. */
  predicate IsSignedInteger(s: string) {
    |s| >= 2 && (s[0] == '+' || s[0] == '-') && AllDigits(s[1..])
  }

  /** `parseInt(s) === 0` for text that matched the pattern. */
  predicate IsZero(s: string)
    requires IsSignedInteger(s)
  {
    DigitsValue(s[1..]) == 0
  }

  datatype ManualError = BadFormat | ZeroOdds

  function ManualErrorMessage(e: ManualError): string {
    match e
    case BadFormat => "Please enter valid moneyline odds (e.g., +150 or -200)"
    case ZeroOdds => "Moneyline odds cannot be zero"
  }

  /** The submit handler's checks on the three trimmed inputs: the pattern on
      all three first, then the zero test. */
  function ValidateManualEntry(home: string, draw: string, away: string): (r: Result<(string, string, string), ManualError>)
    ensures r.Success? <==>
              forall s :: s in [Trim(home), Trim(draw), Trim(away)] ==> IsSignedInteger(s) && !IsZero(s)
    ensures r.Success? ==> r.value == (Trim(home), Trim(draw), Trim(away))
    ensures r == Failure(BadFormat) <==>
              exists s :: s in [Trim(home), Trim(draw), Trim(away)] && !IsSignedInteger(s)
  {
    var h, d, a := Trim(home), Trim(draw), Trim(away);
    if !IsSignedInteger(h) || !IsSignedInteger(d) || !IsSignedInteger(a) then Failure(BadFormat)
    else if IsZero(h) || IsZero(d) || IsZero(a) then Failure(ZeroOdds)
    else Success((h, d, a))
  }

  /** "+150" is accepted; an unsigned "150" and a "+0" are not. */
  /** A sign and the decimal digits of a positive number pass both checks,
      and `trim` leaves them alone. */
  lemma {:induction false} SignedNumberPasses(sign: char, n: nat)
    requires sign == '+' || sign == '-'
    requires n > 0
    ensures var s := [sign] + NatToString(n);
      Trim(s) == s && IsSignedInteger(s) && !IsZero(s)
  {
    var s := [sign] + NatToString(n);
    assert s[1..] == NatToString(n);
    DigitsValueOfNatToString(n);
    TrimUnchanged(s);
  }

  /** Entries such as "+150", "+220" and "-200" are accepted as typed. */
  lemma {:induction false} AcceptsSignedOdds(n1: nat, n2: nat, n3: nat)
    requires n1 > 0 && n2 > 0 && n3 > 0
    ensures var h, d, a := "+" + NatToString(n1), "+" + NatToString(n2), "-" + NatToString(n3);
      ValidateManualEntry(h, d, a) == Success((h, d, a))
  {
    SignedNumberPasses('+', n1);
    SignedNumberPasses('+', n2);
    SignedNumberPasses('-', n3);
  }

  /** An unsigned entry such as "150" fails the pattern, whatever the others
      are. */
  lemma {:induction false} RejectsUnsignedOdds(n: nat, draw: string, away: string)
    ensures ValidateManualEntry(NatToString(n), draw, away) == Failure(BadFormat)
  {
    var s := NatToString(n);
    TrimUnchanged(s);
    assert !IsSignedInteger(s) by {
      assert IsDigit(s[0]);
    }
  }

  /** A signed zero such as "+0" passes the pattern and fails the zero
      test. */
  lemma {:induction false} RejectsZeroOdds(sign: char, n2: nat, n3: nat)
    requires sign == '+' || sign == '-'
    requires n2 > 0 && n3 > 0
    ensures ValidateManualEntry([sign, '0'], "+" + NatToString(n2), "-" + NatToString(n3)) == Failure(ZeroOdds)
  {
    var z := [sign, '0'];
    TrimUnchanged(z);
    assert z[1..] == "0" && "0"[..0] == "";
    assert IsSignedInteger(z) && IsZero(z);
    SignedNumberPasses('+', n2);
    SignedNumberPasses('-', n3);
  }

  /** An accepted entry reads back, through `moneylineToDecimal`, as decimal
      odds above 1. */
  lemma {:induction false} AcceptedEntryHasDecimal(s: string)
    requires IsSignedInteger(s) && !IsZero(s)
    ensures MoneylineToDecimal(s).Some? && MoneylineToDecimal(s).value > 1.0
  {
    assert s == [s[0]] + s[1..];
    ScanSignedDigitString(s[0], s[1..]);
    assert TrimStart(s) == s;
  }

  // ---------------------------------------------------------------------
  // The comparison payload

  /** One field of the comparison payload: text goes through
      `moneylineToDecimal` (NaN is sent as `null`), other values as they
      are; an absent field stays absent. */
  function DecimalField(v: Option<Json>): (r: Option<Json>)
    ensures v.None? ==> r.None?
    ensures v.Some? && !v.value.JStr? ==> r == v
    ensures v.Some? && v.value.JStr? ==>
              r == Some(if MoneylineToDecimal(v.value.s).Some? then JNum(MoneylineToDecimal(v.value.s).value) else JNull)
  {
    match v
    case None => None
    case Some(JStr(s)) =>
      var d := MoneylineToDecimal(s);
      Some(if d.Some? then JNum(d.value) else JNull)
    case Some(other) => Some(other)
  }

  /** The object literal of decimal odds sent for one side; an absent field
      (`undefined`) is left out of the request body. */
  datatype DecimalOdds = DecimalOdds(homeWin: Option<Json>, draw: Option<Json>, awayWin: Option<Json>)

  function DecimalPayload(odds: Json): (r: DecimalOdds)
    ensures r.homeWin == DecimalField(Member(odds, "homeWin"))
    ensures r.draw == DecimalField(Member(odds, "draw"))
    ensures r.awayWin == DecimalField(Member(odds, "awayWin"))
  {
    DecimalOdds(DecimalField(Member(odds, "homeWin")), DecimalField(Member(odds, "draw")),
                DecimalField(Member(odds, "awayWin")))
  }

  /** A field sent as a decimal above 1. */
  predicate AboveOne(f: Option<Json>) {
    f.Some? && f.value.JNum? && f.value.n > 1.0
  }

  /** Odds stored as the moneyline of decimal odds above 1 are sent back as
      decimals within 1/200 of the originals. */
  lemma {:induction false} PayloadRecoversDecimal(dec: real)
    requires dec > 1.0
    ensures var f := DecimalField(Some(JStr(DecimalToMoneyline(dec))));
      f.Some? && f.value.JNum? && Abs(f.value.n - dec) <= 1.0 / 200.0
  {
    MoneylineRoundTrip(dec);
  }

  // ---------------------------------------------------------------------
  // The page state

  /** The odds the page holds for the selected fixture, as moneyline text. */
  datatype StoredOdds = StoredOdds(homeWin: string, draw: string, awayWin: string, bookmaker: string)

  function StoredOddsJson(o: StoredOdds): Json {
    JObj(map["homeWin" := JStr(o.homeWin), "draw" := JStr(o.draw), "awayWin" := JStr(o.awayWin),
             "bookmaker" := JStr(o.bookmaker)])
  }

  /** Why odds were not stored: no fixture is selected, or the manual form
      is shown instead (with the reason the toast gives). */
  datatype LoadOutcome =
    | NoFixtureSelected
    | ManualNoOdds
    | ManualNoMatchWinner
    | ManualInvalidOdds
    | Loaded(compareNext: bool)

  /** The page's global state: the selected fixture, the prediction and the
      actual odds. */
  class Session {
    var selectedFixture: Option<Json>
    var aiPrediction: Option<Json>
    var actualOdds: Option<StoredOdds>

    constructor ()
      ensures selectedFixture.None? && aiPrediction.None? && actualOdds.None?
    {
      selectedFixture, aiPrediction, actualOdds := None, None, None;
    }

    /** `selectFixture`: the new fixture, with the old prediction and odds
        dropped. */
    method SelectFixture(fixture: Json)
      modifies this
      ensures selectedFixture == Some(fixture) && aiPrediction.None? && actualOdds.None?
    {
      selectedFixture := Some(fixture);
      aiPrediction := None;
      actualOdds := None;
    }

    /** A successful prediction is kept; a comparison follows when odds are
        already there. */
    method RecordPrediction(prediction: Json) returns (compareNext: bool)
      modifies this
      ensures aiPrediction == Some(prediction)
      ensures selectedFixture == old(selectedFixture) && actualOdds == old(actualOdds)
      ensures compareNext <==> actualOdds.Some?
    {
      aiPrediction := Some(prediction);
      compareNext := actualOdds.Some?;
    }

    /** `loadActualOdds` given the odds response (`None` when it failed or
        had no data): the moneylines of the first "Match Winner" market
        found, or the manual form when there is none or one of its three odds
        is missing, zero or not a number. */
    method LoadActualOdds(response: Option<seq<OddsData>>) returns (outcome: LoadOutcome)
      modifies this
      ensures selectedFixture == old(selectedFixture) && aiPrediction == old(aiPrediction)
      ensures outcome == NoFixtureSelected <==> old(selectedFixture).None?
      ensures !outcome.Loaded? ==> actualOdds == old(actualOdds)
      ensures old(selectedFixture).Some? && (response.None? || response.value == []) ==> outcome == ManualNoOdds
      ensures old(selectedFixture).Some? && response.Some? && response.value != [] ==>
                var b := FirstQualifying(Bookmakers(response.value));
                && (outcome == ManualNoMatchWinner <==> b.None?)
                && (b.Some? ==>
                      var values := MatchWinnerBet(b.value).value.values.value;
                      var h, d, a := OddFor(values, "Home"), OddFor(values, "Draw"), OddFor(values, "Away");
                      && (outcome.Loaded? <==> UsableOdd(h) && UsableOdd(d) && UsableOdd(a))
                      && (!outcome.Loaded? ==> outcome == ManualInvalidOdds)
                      && (outcome.Loaded? ==>
                            && actualOdds == Some(StoredOdds(DecimalToMoneyline(h.value), DecimalToMoneyline(d.value),
                                                             DecimalToMoneyline(a.value), b.value.name))
                            && outcome.compareNext == Present(aiPrediction)))
    {
      if selectedFixture.None? {
        return NoFixtureSelected;
      }
      if response.None? || response.value == [] {
        return ManualNoOdds;
      }
      var bet, bookmakerName := SearchMatchWinner(response.value);
      if bet.None? {
        return ManualNoMatchWinner;
      }
      var values := bet.value.values.value;
      var h, d, a := OddFor(values, "Home"), OddFor(values, "Draw"), OddFor(values, "Away");
      if !UsableOdd(h) || !UsableOdd(d) || !UsableOdd(a) {
        return ManualInvalidOdds;
      }
      actualOdds := Some(StoredOdds(DecimalToMoneyline(h.value), DecimalToMoneyline(d.value),
                                    DecimalToMoneyline(a.value), bookmakerName));
      outcome := Loaded(Present(aiPrediction));
    }

    /** The manual form's submit: the three trimmed entries, stored as typed
        under the name "Manual Entry" once they pass validation. */
    method SubmitManualOdds(home: string, draw: string, away: string) returns (r: Result<bool, ManualError>)
      modifies this
      ensures selectedFixture == old(selectedFixture) && aiPrediction == old(aiPrediction)
      ensures var v := ValidateManualEntry(home, draw, away);
        && (r.Failure? <==> v.Failure?)
        && (r.Failure? ==> r.error == v.error && actualOdds == old(actualOdds))
        && (r.Success? ==>
              actualOdds == Some(StoredOdds(v.value.0, v.value.1, v.value.2, "Manual Entry"))
              && (r.value <==> Present(aiPrediction)))
    {
      var v := ValidateManualEntry(home, draw, away);
      if v.Failure? {
        return Failure(v.error);
      }
      actualOdds := Some(StoredOdds(v.value.0, v.value.1, v.value.2, "Manual Entry"));
      r := Success(Present(aiPrediction));
    }

    /** `compareOdds`: nothing unless a prediction and odds are both held;
        then the two objects of the request, in decimal odds. */
    method ComparisonPayload() returns (payload: Option<(DecimalOdds, DecimalOdds)>)
      ensures payload.None? <==> !Present(aiPrediction) || actualOdds.None?
      ensures payload.Some? ==>
                payload.value == (DecimalPayload(aiPrediction.value), DecimalPayload(StoredOddsJson(actualOdds.value)))
    {
      if !Present(aiPrediction) || actualOdds.None? {
        return None;
      }
      payload := Some((DecimalPayload(aiPrediction.value), DecimalPayload(StoredOddsJson(actualOdds.value))));
    }
  }

  /** Stored odds that each pass the manual checks all reach the request as
      decimals above 1. */
  lemma {:induction false} StoredOddsReachComparison(o: StoredOdds)
    requires IsSignedInteger(o.homeWin) && !IsZero(o.homeWin)
    requires IsSignedInteger(o.draw) && !IsZero(o.draw)
    requires IsSignedInteger(o.awayWin) && !IsZero(o.awayWin)
    ensures var p := DecimalPayload(StoredOddsJson(o));
      AboveOne(p.homeWin) && AboveOne(p.draw) && AboveOne(p.awayWin)
  {
    AcceptedEntryHasDecimal(o.homeWin);
    AcceptedEntryHasDecimal(o.draw);
    AcceptedEntryHasDecimal(o.awayWin);
    StoredPayload(o);
  }

  /** Stored odds are sent as their three moneyline strings. */
  lemma {:induction false} StoredPayload(o: StoredOdds)
    ensures DecimalPayload(StoredOddsJson(o))
         == DecimalOdds(DecimalField(Some(JStr(o.homeWin))), DecimalField(Some(JStr(o.draw))),
                        DecimalField(Some(JStr(o.awayWin))))
  {
    var j := StoredOddsJson(o);
    assert Member(j, "homeWin") == Some(JStr(o.homeWin));
    assert Member(j, "draw") == Some(JStr(o.draw));
    assert Member(j, "awayWin") == Some(JStr(o.awayWin));
  }

  /** So every manual entry the form accepts does. */
  lemma {:induction false} ManualOddsReachComparison(home: string, draw: string, away: string)
    requires ValidateManualEntry(home, draw, away).Success?
    ensures var v := ValidateManualEntry(home, draw, away).value;
      var p := DecimalPayload(StoredOddsJson(StoredOdds(v.0, v.1, v.2, "Manual Entry")));
      AboveOne(p.homeWin) && AboveOne(p.draw) && AboveOne(p.awayWin)
  {
    var v := ValidateManualEntry(home, draw, away).value;
    assert v.0 in [Trim(home), Trim(draw), Trim(away)];
    assert v.1 in [Trim(home), Trim(draw), Trim(away)];
    assert v.2 in [Trim(home), Trim(draw), Trim(away)];
    StoredOddsReachComparison(StoredOdds(v.0, v.1, v.2, "Manual Entry"));
  }
}

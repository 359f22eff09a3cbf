/** The comparison engine behind `compareOdds` (client service) and the
    `/compare` route: per-outcome absolute and percentage differences, a
    clamped accuracy score and the outcome predicted most closely. Both copies
    do the same arithmetic; the route adds an input check (see ApiPrediction). */
module Comparison {
  import opened Common

  datatype Outcome = HomeWin | Draw | AwayWin

  /** The order of `Object.entries(comparison)`: the order the keys were written. */
  const EntryOrder: seq<Outcome> := [HomeWin, Draw, AwayWin]

  /** Odds for the three outcomes, in decimal form. */
  datatype OddsSet = OddsSet(homeWin: real, draw: real, awayWin: real) {
    function Get(o: Outcome): real {
      match o
      case HomeWin => homeWin
      case Draw => draw
      case AwayWin => awayWin
    }
  }

  /** The divisions by actual odds need them non-zero. */
  predicate NonZero(odds: OddsSet) {
    odds.homeWin != 0.0 && odds.draw != 0.0 && odds.awayWin != 0.0
  }

  datatype OutcomeDiff = OutcomeDiff(llm: real, actual: real, difference: real, percentageDiff: real)

  datatype Comparison = Comparison(homeWin: OutcomeDiff, draw: OutcomeDiff, awayWin: OutcomeDiff) {
    function Get(o: Outcome): OutcomeDiff {
      match o
      case HomeWin => homeWin
      case Draw => draw
      case AwayWin => awayWin
    }
  }

  datatype Report = Report(
    comparison: Comparison,
    accuracy: real,
    averageDifference: real,
    closestPrediction: Outcome)

  /** One outcome's entry: the two odds, `|p - a|` and `|(p - a) / a * 100|`. */
  function Diff(predicted: real, actual: real): (d: OutcomeDiff)
    requires actual != 0.0
    ensures d.llm == predicted && d.actual == actual
    ensures d.difference == Abs(predicted - actual)
    ensures d.difference >= 0.0 && d.percentageDiff >= 0.0
    ensures d.percentageDiff * Abs(actual) == d.difference * 100.0
    ensures d.difference == 0.0 <==> predicted == actual
  {
    var pd := Abs((predicted - actual) / actual * 100.0);
    assert (predicted - actual) / actual * 100.0 * actual == (predicted - actual) * 100.0;
    OutcomeDiff(predicted, actual, Abs(predicted - actual), pd)
  }

  function Compare(predicted: OddsSet, actual: OddsSet): (c: Comparison)
    requires NonZero(actual)
    ensures forall o :: c.Get(o) == Diff(predicted.Get(o), actual.Get(o))
  {
    Comparison(
      Diff(predicted.homeWin, actual.homeWin),
      Diff(predicted.draw, actual.draw),
      Diff(predicted.awayWin, actual.awayWin))
  }

  function AveragePercentageDiff(c: Comparison): real {
    (c.homeWin.percentageDiff + c.draw.percentageDiff + c.awayWin.percentageDiff) / 3.0
  }

  /** `Math.max(0, 100 - average)`. */
  function Accuracy(c: Comparison): (r: real)
    ensures r >= 0.0
    ensures AveragePercentageDiff(c) <= 100.0 ==> r == 100.0 - AveragePercentageDiff(c)
    ensures AveragePercentageDiff(c) >= 100.0 ==> r == 0.0
  {
    Max(0.0, 100.0 - AveragePercentageDiff(c))
  }

  /** The `reduce` over the entries: keep the current key unless a later entry
      has a strictly smaller percentage difference. */
  function Closest(c: Comparison, entries: seq<Outcome>, min: Outcome): (r: Outcome)
    ensures r == min || r in entries
    ensures c.Get(r).percentageDiff <= c.Get(min).percentageDiff
  {
    if entries == [] then min
    else
      var next := if c.Get(entries[0]).percentageDiff < c.Get(min).percentageDiff then entries[0] else min;
      Closest(c, entries[1..], next)
  }

  /** The report: every difference is non-negative, the accuracy lies in
      [0, 100], and the closest prediction is the first outcome, in entry
      order, with the smallest percentage difference. */
  function CompareOdds(predicted: OddsSet, actual: OddsSet): (r: Report)
    requires NonZero(actual)
    ensures forall o :: r.comparison.Get(o) == Diff(predicted.Get(o), actual.Get(o))
    ensures r.averageDifference == (r.comparison.homeWin.percentageDiff + r.comparison.draw.percentageDiff
                                    + r.comparison.awayWin.percentageDiff) / 3.0
    ensures r.averageDifference >= 0.0
    ensures 0.0 <= r.accuracy <= 100.0 && r.accuracy == Max(0.0, 100.0 - r.averageDifference)
    ensures var h, d, a := r.comparison.homeWin.percentageDiff, r.comparison.draw.percentageDiff,
                           r.comparison.awayWin.percentageDiff;
      && (r.closestPrediction == HomeWin <==> h <= d && h <= a)
      && (r.closestPrediction == Draw <==> d < h && d <= a)
      && (r.closestPrediction == AwayWin <==> a < h && a < d)
  {
    var c := Compare(predicted, actual);
    ClosestPredictionCases(c);
    Report(c, Accuracy(c), AveragePercentageDiff(c), Closest(c, EntryOrder, HomeWin))
  }

  // ---------------------------------------------------------------------
  // Properties

  /** `r` is a first-key-wins arg-min of `keys`: no key has a smaller
      percentage difference, and every key before its first occurrence has a
      strictly larger one. */
  ghost predicate FirstArgMin(c: Comparison, keys: seq<Outcome>, r: Outcome) {
    exists j :: 0 <= j < |keys| && keys[j] == r
      && (forall i :: 0 <= i < |keys| ==> c.Get(r).percentageDiff <= c.Get(keys[i]).percentageDiff)
      && (forall i :: 0 <= i < j ==> c.Get(r).percentageDiff < c.Get(keys[i]).percentageDiff)
  }

  /** The reduction started at `min` finds the first-key-wins arg-min of
      `[min] + entries`. */
  lemma {:induction false} ClosestIsFirstArgMin(c: Comparison, entries: seq<Outcome>, min: Outcome)
    ensures FirstArgMin(c, [min] + entries, Closest(c, entries, min))
  {
    var r := Closest(c, entries, min);
    if entries == [] {
      assert ([min] + entries)[0] == r;
    } else {
      var e, rest := entries[0], entries[1..];
      assert [min] + entries == [min, e] + rest;
      if c.Get(e).percentageDiff < c.Get(min).percentageDiff {
        ClosestIsFirstArgMin(c, rest, e);
        ArgMinAfterLoser(c, min, e, rest, r);
      } else {
        ClosestIsFirstArgMin(c, rest, min);
        ArgMinAfterTie(c, min, e, rest, r);
      }
    }
  }

  /** A key strictly worse than the next one cannot be the answer, and
      dropping it keeps the arg-min. */
  lemma {:induction false} ArgMinAfterLoser(c: Comparison, min: Outcome, e: Outcome, rest: seq<Outcome>, r: Outcome)
    requires c.Get(e).percentageDiff < c.Get(min).percentageDiff
    requires FirstArgMin(c, [e] + rest, r)
    ensures FirstArgMin(c, [min, e] + rest, r)
  {
    var keys, keys' := [min, e] + rest, [e] + rest;
    var j' :| 0 <= j' < |keys'| && keys'[j'] == r
      && (forall i :: 0 <= i < |keys'| ==> c.Get(r).percentageDiff <= c.Get(keys'[i]).percentageDiff)
      && (forall i :: 0 <= i < j' ==> c.Get(r).percentageDiff < c.Get(keys'[i]).percentageDiff);
    assert forall i :: 1 <= i < |keys| ==> keys[i] == keys'[i - 1];
    assert c.Get(r).percentageDiff <= c.Get(e).percentageDiff by { assert keys'[0] == e; }
    assert keys[j' + 1] == r;
  }

  /** A later key that is not strictly better is skipped, and the arg-min
      stays where it was. */
  lemma {:induction false} ArgMinAfterTie(c: Comparison, min: Outcome, e: Outcome, rest: seq<Outcome>, r: Outcome)
    requires c.Get(min).percentageDiff <= c.Get(e).percentageDiff
    requires FirstArgMin(c, [min] + rest, r)
    ensures FirstArgMin(c, [min, e] + rest, r)
  {
    var keys, keys' := [min, e] + rest, [min] + rest;
    var j' :| 0 <= j' < |keys'| && keys'[j'] == r
      && (forall i :: 0 <= i < |keys'| ==> c.Get(r).percentageDiff <= c.Get(keys'[i]).percentageDiff)
      && (forall i :: 0 <= i < j' ==> c.Get(r).percentageDiff < c.Get(keys'[i]).percentageDiff);
    assert forall i :: 2 <= i < |keys| ==> keys[i] == keys'[i - 1];
    assert c.Get(r).percentageDiff <= c.Get(min).percentageDiff by { assert keys'[0] == min; }
    if j' == 0 {
      assert keys[0] == r;
    } else {
      assert keys'[0] == min && keys[0] == min;
      assert keys[j' + 1] == r;
    }
  }

  /** `closestPrediction` is `homeWin` unless a later outcome is strictly
      closer: `draw` wins only by beating `homeWin` outright, `awayWin` only by
      beating both. */
  lemma ClosestPredictionCases(c: Comparison)
    ensures var r := Closest(c, EntryOrder, HomeWin);
      var h, d, a := c.homeWin.percentageDiff, c.draw.percentageDiff, c.awayWin.percentageDiff;
      && (r == HomeWin <==> h <= d && h <= a)
      && (r == Draw <==> d < h && d <= a)
      && (r == AwayWin <==> a < h && a < d)
  {
    ClosestIsFirstArgMin(c, EntryOrder, HomeWin);
    var r := Closest(c, EntryOrder, HomeWin);
    var keys := [HomeWin] + EntryOrder;
    assert keys == [HomeWin, HomeWin, Draw, AwayWin];
    var j :| 0 <= j < |keys| && keys[j] == r
      && (forall i :: 0 <= i < |keys| ==> c.Get(r).percentageDiff <= c.Get(keys[i]).percentageDiff)
      && (forall i :: 0 <= i < j ==> c.Get(r).percentageDiff < c.Get(keys[i]).percentageDiff);
    assert c.Get(r).percentageDiff <= c.Get(keys[0]).percentageDiff;
    assert c.Get(r).percentageDiff <= c.Get(keys[2]).percentageDiff;
    assert c.Get(r).percentageDiff <= c.Get(keys[3]).percentageDiff;
    if j >= 2 { assert c.Get(r).percentageDiff < c.Get(keys[0]).percentageDiff; }
    if j == 3 { assert c.Get(r).percentageDiff < c.Get(keys[2]).percentageDiff; }
  }

  /** The accuracy is 100 exactly when the prediction equals the actual odds. */
  lemma {:induction false} PerfectAccuracyIff(predicted: OddsSet, actual: OddsSet)
    requires NonZero(actual)
    ensures CompareOdds(predicted, actual).accuracy == 100.0 <==> predicted == actual
  {
    var c := Compare(predicted, actual);
    if CompareOdds(predicted, actual).accuracy == 100.0 {
      assert AveragePercentageDiff(c) == 0.0;
      ZeroPercentageMeansEqual(predicted.homeWin, actual.homeWin);
      ZeroPercentageMeansEqual(predicted.draw, actual.draw);
      ZeroPercentageMeansEqual(predicted.awayWin, actual.awayWin);
    }
    if predicted == actual {
      IdenticalOdds(actual);
    }
  }

  lemma ZeroPercentageMeansEqual(predicted: real, actual: real)
    requires actual != 0.0
    requires Diff(predicted, actual).percentageDiff <= 0.0
    ensures predicted == actual
  {
    assert Diff(predicted, actual).difference * 100.0 == 0.0;
  }

  /** Identical odds give zero differences everywhere, accuracy 100, and
      `homeWin` as the closest prediction. */
  lemma IdenticalOdds(odds: OddsSet)
    requires NonZero(odds)
    ensures var r := CompareOdds(odds, odds);
      && (forall o :: r.comparison.Get(o).difference == 0.0 && r.comparison.Get(o).percentageDiff == 0.0)
      && r.accuracy == 100.0
      && r.closestPrediction == HomeWin
  {
  }

  /** The worked example: predicting 2.0 / 3.0 / 4.0 against 2.2 / 3.0 / 3.8
      makes `draw` the closest outcome and scores between 90 and 100. */
  lemma WorkedExample()
    ensures var r := CompareOdds(OddsSet(2.0, 3.0, 4.0), OddsSet(2.2, 3.0, 3.8));
      && r.comparison.draw.percentageDiff == 0.0
      && r.closestPrediction == Draw
      && 90.0 < r.accuracy < 100.0
  {
    var c := Compare(OddsSet(2.0, 3.0, 4.0), OddsSet(2.2, 3.0, 3.8));
    assert c.homeWin.percentageDiff == 100.0 / 11.0;
    assert c.awayWin.percentageDiff == 100.0 / 19.0;
  }
}

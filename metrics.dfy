/** The statistics helperfuncs.py computes over label vectors: McNemar's test
    between two classifiers (calculate_mcnemar) and the precision and recall of
    one classifier (get_metrics). Labels are whole numbers (the class column of
    the data set holds 0 and 1). */
module Metrics {
  import opened Base

  /** Which of its four messages calculate_mcnemar prints. */
  datatype Verdict =
    | NotSignificant  // "are not significantly different"
    | FirstBetter     // significantly different, classifier 1 likely better
    | SecondBetter    // significantly different, classifier 2 likely better
    | SameScore       // significantly different, but their score is the same

  /** The chi-squared quantile for 95% confidence and one degree of freedom. */
  const CriticalPoint: real := 3.84

  /** Samples on which classifier 1 is wrong and classifier 2 is right. */
  function E01(p1: seq<int>, p2: seq<int>, truth: seq<int>): (n: nat)
    requires |p1| == |truth| && |p2| == |truth|
    ensures n <= |truth|
  {
    CountTrue(And(NotEqual(p1, truth), Equal(p2, truth)))
  }

  /** Samples on which classifier 2 is wrong and classifier 1 is right. */
  function E10(p1: seq<int>, p2: seq<int>, truth: seq<int>): (n: nat)
    requires |p1| == |truth| && |p2| == |truth|
    ensures n <= |truth|
  {
    CountTrue(And(NotEqual(p2, truth), Equal(p1, truth)))
  }

  /** The two disagreement counts trade places when the classifiers do, and
      together they count the samples on which exactly one classifier is right. */
  lemma DisagreementCounts(p1: seq<int>, p2: seq<int>, truth: seq<int>)
    requires |p1| == |truth| && |p2| == |truth|
    ensures E01(p1, p2, truth) == E10(p2, p1, truth)
    ensures E10(p1, p2, truth) == E01(p2, p1, truth)
    ensures E01(p1, p2, truth) + E10(p1, p2, truth) ==
            CountTrue(Xor(Equal(p1, truth), Equal(p2, truth)))
    ensures E01(p1, p2, truth) + E10(p1, p2, truth) <= |truth|
  {
    var right1, right2 := Equal(p1, truth), Equal(p2, truth);
    assert NotEqual(p1, truth) == Not(right1);
    assert NotEqual(p2, truth) == Not(right2);
    assert And(Not(right2), right1) == And(right1, Not(right2));
    CountXor(right1, right2);
  }

  /** The absolute difference |e01 - e10|. */
  function Distance(e01: nat, e10: nat): nat {
    if e01 >= e10 then e01 - e10 else e10 - e01
  }

  /** The continuity-corrected numerator (|e01 - e10| - 1)^2. */
  function Numerator(e01: nat, e10: nat): nat {
    var d := Distance(e01, e10);
    if d == 0 then 1 else (d - 1) * (d - 1)
  }

  /** The observed value ((|e01 - e10| - 1)^2) / (e01 + e10), divided as numpy
      divides integer counts: it is +inf when e01 + e10 == 0. */
  function ObservedValue(e01: nat, e10: nat): (r: Float)
    ensures r.Finite? <==> e01 + e10 > 0
    ensures e01 + e10 == 0 ==> r == Infinity
  {
    TrueDivide(Numerator(e01, e10), e01 + e10)
  }

  /** The verdict for a given observed value: significant when the value is at
      least the critical point, then decided by the two test errors. */
  function Decide(observed: Float, testError1: real, testError2: real): (v: Verdict)
    ensures v == NotSignificant <==> !AtLeast(observed, CriticalPoint)
    ensures v == FirstBetter <==> AtLeast(observed, CriticalPoint) && testError1 < testError2
    ensures v == SecondBetter <==> AtLeast(observed, CriticalPoint) && testError1 > testError2
    ensures v == SameScore <==> AtLeast(observed, CriticalPoint) && testError1 == testError2
  {
    if AtLeast(observed, CriticalPoint) then
      if testError1 < testError2 then FirstBetter
      else if testError1 > testError2 then SecondBetter
      else SameScore
    else NotSignificant
  }

  /** calculate_mcnemar as written: when the classifiers never disagree in
      correctness the division gives +inf, which passes the critical point. */
  function CalculateMcNemar(p1: seq<int>, p2: seq<int>, truth: seq<int>,
                            testError1: real, testError2: real): (v: Verdict)
    requires |p1| == |truth| && |p2| == |truth|
    ensures var e01, e10 := E01(p1, p2, truth), E10(p1, p2, truth);
      (v == NotSignificant <==>
         e01 + e10 > 0 && ObservedValue(e01, e10).value < CriticalPoint) &&
      (v == FirstBetter <==> v != NotSignificant && testError1 < testError2) &&
      (v == SecondBetter <==> v != NotSignificant && testError1 > testError2) &&
      (v == SameScore <==> v != NotSignificant && testError1 == testError2)
  {
    Decide(ObservedValue(E01(p1, p2, truth), E10(p1, p2, truth)), testError1, testError2)
  }

  /** calculate_mcnemar as evidently intended: without any disagreement there is
      no evidence of a difference. */
  function CalculateMcNemarCorrected(p1: seq<int>, p2: seq<int>, truth: seq<int>,
                                     testError1: real, testError2: real): (v: Verdict)
    requires |p1| == |truth| && |p2| == |truth|
    ensures var e01, e10 := E01(p1, p2, truth), E10(p1, p2, truth);
      (v == NotSignificant <==>
         e01 + e10 == 0 || ObservedValue(e01, e10).value < CriticalPoint) &&
      (v == FirstBetter <==> v != NotSignificant && testError1 < testError2) &&
      (v == SecondBetter <==> v != NotSignificant && testError1 > testError2) &&
      (v == SameScore <==> v != NotSignificant && testError1 == testError2)
  {
    if E01(p1, p2, truth) + E10(p1, p2, truth) == 0 then NotSignificant
    else CalculateMcNemar(p1, p2, truth, testError1, testError2)
  }

  /** The verdict seen from the other classifier's side. */
  function Mirror(v: Verdict): Verdict {
    match v
    case FirstBetter => SecondBetter
    case SecondBetter => FirstBetter
    case other => other
  }

  /** The test does not depend on which classifier is called the first one. */
  lemma McNemarSymmetric(p1: seq<int>, p2: seq<int>, truth: seq<int>,
                         testError1: real, testError2: real)
    requires |p1| == |truth| && |p2| == |truth|
    ensures CalculateMcNemar(p2, p1, truth, testError2, testError1) ==
            Mirror(CalculateMcNemar(p1, p2, truth, testError1, testError2))
    ensures CalculateMcNemarCorrected(p2, p1, truth, testError2, testError1) ==
            Mirror(CalculateMcNemarCorrected(p1, p2, truth, testError1, testError2))
  {
    DisagreementCounts(p1, p2, truth);
    var e01, e10 := E01(p1, p2, truth), E10(p1, p2, truth);
    assert Distance(e01, e10) == Distance(e10, e01);
  }

  /** A quotient by a positive number stays below c when the dividend is below c times it. */
  lemma QuotientBelow(num: real, den: real, c: real)
    requires den > 0.0 && num < c * den
    ensures num / den < c
  {
    var q := num / den;
    assert q * den == num;
    if q >= c {
      assert q * den >= c * den;
    }
  }

  /** With five or fewer disagreements the statistic never reaches the
      critical point: (|e01 - e10| - 1)^2 stays below 3.84 (e01 + e10). */
  lemma StatisticBelowCriticalForFewDisagreements(e01: nat, e10: nat)
    requires 0 < e01 + e10 <= 5
    ensures ObservedValue(e01, e10).value < CriticalPoint
  {
    var n := e01 + e10;
    var d := Distance(e01, e10);
    assert d <= n;
    var num := Numerator(e01, e10);
    if d == 0 {
      assert num == 1;
    } else if d == 1 {
      assert num == 0;
    } else if d == 2 {
      assert num == 1;
    } else if d == 3 {
      assert num == 4;
    } else if d == 4 {
      assert num == 9;
    } else {
      assert d == 5 && num == 16;
    }
    assert 100 * num < 384 * n;
    QuotientBelow(num as real, n as real, CriticalPoint);
  }

  /** The corrected test can only report a significant difference when the
      classifiers disagree in correctness on at least six samples. */
  lemma SignificanceNeedsSixDisagreements(p1: seq<int>, p2: seq<int>, truth: seq<int>,
                                          testError1: real, testError2: real)
    requires |p1| == |truth| && |p2| == |truth|
    ensures CalculateMcNemarCorrected(p1, p2, truth, testError1, testError2) != NotSignificant ==>
            E01(p1, p2, truth) + E10(p1, p2, truth) >= 6
  {
    var e01, e10 := E01(p1, p2, truth), E10(p1, p2, truth);
    if e01 + e10 < 6 {
      if e01 + e10 > 0 {
        StatisticBelowCriticalForFewDisagreements(e01, e10);
      }
    }
  }

  /** Classifiers that are right on exactly the same samples have no disagreements. */
  lemma NoDisagreementWhenEquallyRight(p1: seq<int>, p2: seq<int>, truth: seq<int>)
    requires |p1| == |truth| && |p2| == |truth|
    requires Equal(p1, truth) == Equal(p2, truth)
    ensures E01(p1, p2, truth) == 0 && E10(p1, p2, truth) == 0
  {
    var right1, right2 := Equal(p1, truth), Equal(p2, truth);
    assert forall k :: 0 <= k < |truth| ==> right1[k] == right2[k];
    CountZeroIff(And(NotEqual(p1, truth), right2));
    CountZeroIff(And(NotEqual(p2, truth), right1));
  }

  /** As written, a classifier compared with itself is reported as significantly
      different from itself ("but their score is the same"). */
  lemma AsWrittenSelfComparisonIsSignificant(p: seq<int>, truth: seq<int>, testError: real)
    requires |p| == |truth|
    ensures CalculateMcNemar(p, p, truth, testError, testError) == SameScore
  {
    NoDisagreementWhenEquallyRight(p, p, truth);
  }

  /** Corrected, classifiers that are right on the same samples are never
      reported as significantly different, whatever their recorded test errors. */
  lemma CorrectedEquallyRightNotSignificant(p1: seq<int>, p2: seq<int>, truth: seq<int>,
                                            testError1: real, testError2: real)
    requires |p1| == |truth| && |p2| == |truth|
    requires Equal(p1, truth) == Equal(p2, truth)
    ensures CalculateMcNemarCorrected(p1, p2, truth, testError1, testError2) == NotSignificant
  {
    NoDisagreementWhenEquallyRight(p1, p2, truth);
  }

  // ---------------------------------------------------------------- get_metrics

  /** Samples predicted positive that are positive. */
  function TruePositives(predictions: seq<int>, truth: seq<int>): (n: nat)
    requires |predictions| == |truth|
    ensures n <= |truth|
  {
    CountTrue(And(Truthy(predictions), Truthy(truth)))
  }

  /** Samples predicted negative that are positive. */
  function FalseNegatives(predictions: seq<int>, truth: seq<int>): (n: nat)
    requires |predictions| == |truth|
    ensures n <= |truth|
  {
    CountTrue(And(Not(Truthy(predictions)), Truthy(truth)))
  }

  /** Samples predicted positive that are negative: the count the comment in
      get_metrics promises. */
  function FalsePositives(predictions: seq<int>, truth: seq<int>): (n: nat)
    requires |predictions| == |truth|
    ensures n <= |truth|
  {
    CountTrue(And(Truthy(predictions), Not(Truthy(truth))))
  }

  /** What get_metrics stores as `false_positives`: the count of
      `predictions OR truth` minus the true positives. */
  function FalsePositivesAsWritten(predictions: seq<int>, truth: seq<int>): (n: int)
    requires |predictions| == |truth|
    ensures 0 <= n <= |truth|
  {
    CountOr(Truthy(predictions), Truthy(truth));
    CountTrue(Or(Truthy(predictions), Truthy(truth))) - TruePositives(predictions, truth)
  }

  /** get_metrics as written: (precision, recall), where precision divides by
      the true positives plus `false_positives` as computed above. */
  function GetMetrics(predictions: seq<int>, truth: seq<int>): (r: (Float, Float))
    requires |predictions| == |truth|
    ensures r.0 != Infinity && r.1 != Infinity
    ensures r.0.Finite? ==> 0.0 <= r.0.value <= 1.0
    ensures r.1.Finite? ==> 0.0 <= r.1.value <= 1.0
  {
    var tp := TruePositives(predictions, truth);
    var fp := FalsePositivesAsWritten(predictions, truth);
    var fn := FalseNegatives(predictions, truth);
    PartRatio(tp, tp + fp);
    PartRatio(tp, tp + fn);
    (TrueDivide(tp, tp + fp), TrueDivide(tp, tp + fn))
  }

  /** get_metrics as evidently intended: precision over the true and false positives. */
  function GetMetricsCorrected(predictions: seq<int>, truth: seq<int>): (r: (Float, Float))
    requires |predictions| == |truth|
    ensures r.0 != Infinity && r.1 != Infinity
    ensures r.0.Finite? ==> 0.0 <= r.0.value <= 1.0
    ensures r.1.Finite? ==> 0.0 <= r.1.value <= 1.0
  {
    var tp := TruePositives(predictions, truth);
    var fp := FalsePositives(predictions, truth);
    var fn := FalseNegatives(predictions, truth);
    PartRatio(tp, tp + fp);
    PartRatio(tp, tp + fn);
    (TrueDivide(tp, tp + fp), TrueDivide(tp, tp + fn))
  }

  /** Recall is the share of positive samples that are predicted positive: it
      lies in [0, 1] when there is a positive sample and is nan otherwise. */
  lemma RecallIsTruePositiveRate(predictions: seq<int>, truth: seq<int>)
    requires |predictions| == |truth|
    ensures var positives := CountTrue(Truthy(truth));
      TruePositives(predictions, truth) + FalseNegatives(predictions, truth) == positives &&
      GetMetrics(predictions, truth).1 == TrueDivide(TruePositives(predictions, truth), positives) &&
      GetMetricsCorrected(predictions, truth).1 == GetMetrics(predictions, truth).1 &&
      (positives > 0 ==> GetMetrics(predictions, truth).1.Finite? &&
                         0.0 <= GetMetrics(predictions, truth).1.value <= 1.0) &&
      (positives == 0 ==> GetMetrics(predictions, truth).1 == NaN)
  {
    var p, g := Truthy(predictions), Truthy(truth);
    CountCells(p, g);
    var positives := CountTrue(g);
    if positives > 0 {
      RatioInUnitInterval(TruePositives(predictions, truth), positives);
    }
  }

  /** The value get_metrics calls `false_positives` counts the samples where
      exactly one of prediction and truth is positive: the false positives AND
      the false negatives. Precision as written is therefore
      TP / (TP + FP + FN), which lies in [0, 1] when that sum is nonzero. */
  lemma AsWrittenFalsePositivesCountMismatches(predictions: seq<int>, truth: seq<int>)
    requires |predictions| == |truth|
    ensures var tp, fp, fn := TruePositives(predictions, truth),
                              FalsePositives(predictions, truth), FalseNegatives(predictions, truth);
      FalsePositivesAsWritten(predictions, truth) ==
        CountTrue(Xor(Truthy(predictions), Truthy(truth))) &&
      FalsePositivesAsWritten(predictions, truth) == fp + fn &&
      GetMetrics(predictions, truth).0 == TrueDivide(tp, tp + fp + fn) &&
      (tp + fp + fn > 0 ==> GetMetrics(predictions, truth).0.Finite? &&
                            0.0 <= GetMetrics(predictions, truth).0.value <= 1.0)
  {
    var p, g := Truthy(predictions), Truthy(truth);
    CountCells(p, g);
    CountOr(p, g);
    var tp, fp, fn := TruePositives(predictions, truth),
                      FalsePositives(predictions, truth), FalseNegatives(predictions, truth);
    if tp + fp + fn > 0 {
      RatioInUnitInterval(tp, tp + fp + fn);
    }
  }

  /** Corrected precision is the share of positive predictions that are right:
      it lies in [0, 1] when something is predicted positive and is nan otherwise. */
  lemma CorrectedPrecisionIsPositivePredictiveValue(predictions: seq<int>, truth: seq<int>)
    requires |predictions| == |truth|
    ensures var predicted := CountTrue(Truthy(predictions));
      TruePositives(predictions, truth) + FalsePositives(predictions, truth) == predicted &&
      GetMetricsCorrected(predictions, truth).0 ==
        TrueDivide(TruePositives(predictions, truth), predicted) &&
      (predicted > 0 ==> GetMetricsCorrected(predictions, truth).0.Finite? &&
                         0.0 <= GetMetricsCorrected(predictions, truth).0.value <= 1.0) &&
      (predicted == 0 ==> GetMetricsCorrected(predictions, truth).0 == NaN)
  {
    var p, g := Truthy(predictions), Truthy(truth);
    CountCells(p, g);
    var predicted := CountTrue(p);
    if predicted > 0 {
      RatioInUnitInterval(TruePositives(predictions, truth), predicted);
    }
  }

  /** Adding to the denominator of a non-negative ratio can only lower it,
      and lowers it exactly when the numerator and the addition are positive. */
  lemma LargerDenominator(tp: real, fp: real, fn: real)
    requires tp >= 0.0 && fp >= 0.0 && fn >= 0.0 && tp + fp > 0.0
    ensures tp / (tp + fp + fn) <= tp / (tp + fp)
    ensures tp / (tp + fp + fn) < tp / (tp + fp) <==> tp > 0.0 && fn > 0.0
  {
    var s := tp + fp;
    var t := s + fn;
    var w := tp / t;
    var i := tp / s;
    assert w * t == tp;
    assert i * s == tp;
    assert w * t == w * s + w * fn;
    assert (i - w) * s == i * s - w * s;
    assert (i - w) * s == w * fn;
    assert w >= 0.0;
    assert w == 0.0 <==> tp == 0.0;
    if w > 0.0 && fn > 0.0 {
      assert w * fn > 0.0;
      assert i - w > 0.0;
    } else {
      assert w * fn == 0.0;
      assert i - w == 0.0;
    }
  }

  /** The precision as written never exceeds the intended precision, and is
      below it exactly when there are both true positives and false negatives. */
  lemma AsWrittenPrecisionUnderstates(predictions: seq<int>, truth: seq<int>)
    requires |predictions| == |truth|
    requires TruePositives(predictions, truth) + FalsePositives(predictions, truth) > 0
    ensures GetMetrics(predictions, truth).0.Finite? && GetMetricsCorrected(predictions, truth).0.Finite?
    ensures GetMetrics(predictions, truth).0.value <= GetMetricsCorrected(predictions, truth).0.value
    ensures GetMetrics(predictions, truth).0.value < GetMetricsCorrected(predictions, truth).0.value <==>
            TruePositives(predictions, truth) > 0 && FalseNegatives(predictions, truth) > 0
  {
    AsWrittenFalsePositivesCountMismatches(predictions, truth);
    var tp, fp, fn := TruePositives(predictions, truth),
                      FalsePositives(predictions, truth), FalseNegatives(predictions, truth);
    LargerDenominator(tp as real, fp as real, fn as real);
  }

  /** np.sum of a boolean vector of five entries. */
  lemma CountFive(a: bool, b: bool, c: bool, d: bool, e: bool)
    ensures CountTrue([a, b, c, d, e]) ==
            (if a then 1 else 0) + (if b then 1 else 0) + (if c then 1 else 0) +
            (if d then 1 else 0) + (if e then 1 else 0)
  {
    assert [a][..0] == [];
    assert CountTrue([a]) == (if a then 1 else 0);
    assert [a, b][..1] == [a];
    assert CountTrue([a, b]) == CountTrue([a]) + (if b then 1 else 0);
    assert [a, b, c][..2] == [a, b];
    assert CountTrue([a, b, c]) == CountTrue([a, b]) + (if c then 1 else 0);
    assert [a, b, c, d][..3] == [a, b, c];
    assert CountTrue([a, b, c, d]) == CountTrue([a, b, c]) + (if d then 1 else 0);
    assert [a, b, c, d, e][..4] == [a, b, c, d];
  }

  /** The example worked in the comments of get_metrics: predictions
      [1, 0, 1, 1, 0] against truth [0, 0, 1, 1, 1] have two true positives,
      one false positive and one false negative, so the precision is 2/3, but
      the code returns 1/2. */
  lemma CommentExampleMisreadsPrecision()
    ensures GetMetrics([1, 0, 1, 1, 0], [0, 0, 1, 1, 1]).0 == Finite(1.0 / 2.0)
    ensures GetMetricsCorrected([1, 0, 1, 1, 0], [0, 0, 1, 1, 1]).0 == Finite(2.0 / 3.0)
  {
    var predictions, truth := [1, 0, 1, 1, 0], [0, 0, 1, 1, 1];
    var p, g := Truthy(predictions), Truthy(truth);
    assert p == [true, false, true, true, false];
    assert g == [false, false, true, true, true];
    assert And(p, g) == [false, false, true, true, false];
    assert Or(p, g) == [true, false, true, true, true];
    assert And(p, Not(g)) == [true, false, false, false, false];
    CountFive(false, false, true, true, false);
    CountFive(true, false, true, true, true);
    CountFive(true, false, false, false, false);
  }
}

/** The Naive Bayes classifier of NaiveBayes.py. Training splits the rows by
    their 0/1 label, takes the class fractions as priors and fits one
    gaussian kernel density estimator per class and feature; classification
    adds each class's prior to the sum of its estimators' log-densities over
    features 0..3 and picks class 1 when its total is at least class 0's.
    The NaiveBayes class has no state (its constructor does nothing), so its
    methods are modelled as methods of this module. */
module NaiveBayes {
  import opened Base

  /** A gaussian KernelDensity estimator fitted with bandwidth `bandwidth` to
      the one-feature sample `sample`. */
  datatype Kde = Kde(bandwidth: real, sample: seq<real>)

  /** The estimators of one feature: (class 0, class 1). */
  type KdePair = (Kde, Kde)

  /** What get_prior_and_kdes returns: (prior_0, prior_1, kde_list). */
  type PriorKdes = (real, real, seq<KdePair>)

  /** KernelDensity.score_samples at one point: the estimator's log-density
      there. Its numerics are not modelled; it is whatever function is given. */
  type Scorer = (Kde, real) -> real

  // ---------------------------------------------------------------- training

  /** The positions of the labels equal to `lbl`, in increasing order. */
  function Positions(y: seq<int>, lbl: int): (p: seq<nat>)
    ensures |p| <= |y|
    ensures forall k :: 0 <= k < |p| ==> p[k] < |y| && y[p[k]] == lbl
    ensures forall a, b :: 0 <= a < b < |p| ==> p[a] < p[b]
  {
    if |y| == 0 then []
    else
      var init := Positions(y[..|y| - 1], lbl);
      if y[|y| - 1] == lbl then init + [|y| - 1] else init
  }

  /** Every position holding `lbl` is listed. */
  lemma {:induction false} PositionsComplete(y: seq<int>, lbl: int, i: nat)
    requires i < |y| && y[i] == lbl
    ensures i in Positions(y, lbl)
  {
    var last := |y| - 1;
    if i < last {
      PositionsComplete(y[..last], lbl, i);
    }
  }

  /** No position is listed for two different labels. */
  lemma {:induction false} PositionsDisjoint(y: seq<int>, a: int, b: int)
    requires a != b
    ensures |Positions(y, a)| + |Positions(y, b)| <= |y|
  {
    if |y| > 0 {
      PositionsDisjoint(y[..|y| - 1], a, b);
    }
  }

  /** With 0/1 labels every position is listed for exactly one class. */
  lemma {:induction false} PositionsPartition(y: seq<int>)
    requires forall i :: 0 <= i < |y| ==> y[i] == 0 || y[i] == 1
    ensures |Positions(y, 0)| + |Positions(y, 1)| == |y|
  {
    if |y| > 0 {
      PositionsPartition(y[..|y| - 1]);
    }
  }

  /** x[y[:] == lbl, :]: the rows whose label is `lbl`, in their original
      order, with the array's width. */
  function ClassRows(x: Matrix, y: seq<int>, lbl: int): (c: Matrix)
    requires Shaped(x) && |y| == |x.rows|
    ensures Shaped(c) && c.width == x.width
  {
    var p := Positions(y, lbl);
    Matrix(x.width, seq(|p|, k requires 0 <= k < |p| => x.rows[p[k]]))
  }

  /** The rows kept for a class are exactly the rows carrying its label, in
      their original order. */
  lemma ClassRowsAreTheLabelledRows(x: Matrix, y: seq<int>, lbl: int)
    requires Shaped(x) && |y| == |x.rows|
    ensures var c, p := ClassRows(x, y, lbl), Positions(y, lbl);
      |c.rows| == |p| &&
      (forall k :: 0 <= k < |p| ==> p[k] < |x.rows| && y[p[k]] == lbl && c.rows[k] == x.rows[p[k]]) &&
      (forall a, b :: 0 <= a < b < |p| ==> p[a] < p[b]) &&
      (forall i :: 0 <= i < |y| && y[i] == lbl ==> i in p)
  {
    forall i | 0 <= i < |y| && y[i] == lbl
      ensures i in Positions(y, lbl)
    {
      PositionsComplete(y, lbl, i);
    }
  }

  /** len(class_label) / len(x). */
  function ClassFraction(y: seq<int>, lbl: int): (f: real)
    requires |y| > 0
    ensures 0.0 <= f <= 1.0
  {
    UnitFraction(|Positions(y, lbl)| as real, |y| as real);
    |Positions(y, lbl)| as real / |y| as real
  }

  /** The two class fractions lie in [0, 1] and sum to at most 1 (rows with
      any other label join neither class); with 0/1 labels they sum to 1. */
  lemma ClassFractionsSumToOne(y: seq<int>)
    requires |y| > 0
    ensures 0.0 <= ClassFraction(y, 0) <= 1.0 && 0.0 <= ClassFraction(y, 1) <= 1.0
    ensures ClassFraction(y, 0) + ClassFraction(y, 1) <= 1.0
    ensures (forall i :: 0 <= i < |y| ==> y[i] == 0 || y[i] == 1) ==>
      ClassFraction(y, 0) + ClassFraction(y, 1) == 1.0
  {
    PositionsDisjoint(y, 0, 1);
    if forall i :: 0 <= i < |y| ==> y[i] == 0 || y[i] == 1 {
      PositionsPartition(y);
    }
    var n0, n1, n := |Positions(y, 0)| as real, |Positions(y, 1)| as real, |y| as real;
    FractionsOfAWhole(n0, n1, n);
  }

  /** Two disjoint parts of a positive whole, as fractions of it. */
  lemma FractionsOfAWhole(a: real, b: real, n: real)
    requires a >= 0.0 && b >= 0.0 && a + b <= n && n > 0.0
    ensures 0.0 <= a / n <= 1.0 && 0.0 <= b / n <= 1.0
    ensures a / n + b / n <= 1.0
    ensures a + b == n ==> a / n + b / n == 1.0
  {
    UnitFraction(a, n);
    UnitFraction(b, n);
    UnitFraction(a + b, n);
    assert a / n + b / n == (a + b) / n;
  }

  /** A part of a positive whole, as a fraction of it, lies in [0, 1]; the
      whole itself is 1. */
  lemma UnitFraction(a: real, n: real)
    requires 0.0 <= a <= n && n > 0.0
    ensures 0.0 <= a / n <= 1.0
    ensures a == n ==> a / n == 1.0
  {
    assert a / n * n == a;
  }

  /** The number of iterations of `for feat in range(0, numFeats)`. */
  function FeatureCount(numFeats: int): nat {
    if numFeats < 0 then 0 else numFeats
  }

  /** KernelDensity(kernel = "gaussian", bandwidth = bw).fit(sample): a
      non-positive bandwidth or a sample without rows raises ValueError. */
  function Fit(bw: real, sample: seq<real>): (r: Result<Kde>)
    ensures r.Ok? <==> bw > 0.0 && |sample| > 0
    ensures r.Raised? ==> r.exception == ValueError
    ensures r.Ok? ==> r.value.bandwidth == bw && r.value.sample == sample
  {
    if bw <= 0.0 || |sample| == 0 then Raised(ValueError) else Ok(Kde(bw, sample))
  }

  /** The estimators of feature f: both fitted with bandwidth bw, the first to
      column f of the class-0 rows, the second to column f of the class-1 rows. */
  function FittedPair(class0: Matrix, class1: Matrix, bw: real, f: nat): KdePair
    requires Shaped(class0) && Shaped(class1) && f < class0.width && f < class1.width
  {
    (Kde(bw, Column(class0, f)), Kde(bw, Column(class1, f)))
  }

  /** What get_prior_and_kdes returns or raises, in the order the source's
      lines would raise: the boolean mask of a label vector of the wrong
      length (IndexError), the division by len(x) (ZeroDivisionError), and,
      inside the loop, a feature past the array's width (IndexError) or a fit
      that refuses its bandwidth or an empty class (ValueError). `log` is
      np.log, applied to the class fractions. */
  function PriorAndKdes(x: Matrix, y: seq<int>, bw: real, numFeats: int, log: real -> real): (r: Result<PriorKdes>)
    requires Shaped(x)
    ensures r.Ok? ==> |y| == |x.rows| > 0 && |r.value.2| == FeatureCount(numFeats)
  {
    if |y| != |x.rows| then Raised(IndexError)
    else if |x.rows| == 0 then Raised(ZeroDivisionError)
    else
      var class0, class1 := ClassRows(x, y, 0), ClassRows(x, y, 1);
      if numFeats > 0 && x.width == 0 then Raised(IndexError)
      else if numFeats > 0 && (bw <= 0.0 || |class1.rows| == 0 || |class0.rows| == 0) then Raised(ValueError)
      else if numFeats > x.width then Raised(IndexError)
      else Ok((log(ClassFraction(y, 0)), log(ClassFraction(y, 1)),
               seq(FeatureCount(numFeats), f requires 0 <= f < FeatureCount(numFeats) => FittedPair(class0, class1, bw, f))))
  }

  /** get_prior_and_kdes: the priors, then one pair of estimators per
      feature, appended in a loop. */
  method GetPriorAndKdes(x: Matrix, y: seq<int>, bw: real, numFeats: int, log: real -> real)
    returns (r: Result<PriorKdes>)
    requires Shaped(x)
    ensures r == PriorAndKdes(x, y, bw, numFeats, log)
  {
    if |y| != |x.rows| {
      return Raised(IndexError);
    }
    var class1 := ClassRows(x, y, 1);
    var class0 := ClassRows(x, y, 0);
    if |x.rows| == 0 {
      return Raised(ZeroDivisionError);
    }
    var prior1 := log(|class1.rows| as real / |x.rows| as real);
    var prior0 := log(|class0.rows| as real / |x.rows| as real);
    var kdeList: seq<KdePair> := [];
    for feat := 0 to FeatureCount(numFeats)
      invariant |kdeList| == feat && feat <= x.width
      invariant feat > 0 ==> bw > 0.0 && |class1.rows| > 0 && |class0.rows| > 0
      invariant forall f :: 0 <= f < feat ==> kdeList[f] == FittedPair(class0, class1, bw, f)
    {
      if feat >= x.width {
        return Raised(IndexError);
      }
      var featureClass1 := Column(class1, feat);
      var featureClass0 := Column(class0, feat);
      var kdeClass1 := Fit(bw, featureClass1);
      if kdeClass1.Raised? {
        return Raised(kdeClass1.exception);
      }
      var kdeClass0 := Fit(bw, featureClass0);
      if kdeClass0.Raised? {
        return Raised(kdeClass0.exception);
      }
      kdeList := kdeList + [(kdeClass0.value, kdeClass1.value)];
    }
    assert kdeList == seq(FeatureCount(numFeats), f requires 0 <= f < FeatureCount(numFeats) => FittedPair(class0, class1, bw, f));
    return Ok((prior0, prior1, kdeList));
  }

  /** When training succeeds, the priors are the logs of the class fractions,
      which lie in [0, 1] and sum to at most 1, and to 1 with 0/1 labels;
      kde_list holds one pair per iteration of the feature loop, pair f fitted with bandwidth bw to column f of the
      class-0 rows and of the class-1 rows. Training succeeds exactly when the
      labels match the rows, there is a row, and (if any feature is asked for)
      the bandwidth is positive, both classes occur and the array is wide
      enough. */
  lemma PriorAndKdesOutcome(x: Matrix, y: seq<int>, bw: real, numFeats: int, log: real -> real)
    requires Shaped(x)
    ensures var r := PriorAndKdes(x, y, bw, numFeats, log);
      r.Ok? <==> |y| == |x.rows| > 0 && numFeats <= x.width &&
                 (numFeats > 0 ==> bw > 0.0 && 0 < |Positions(y, 0)| && 0 < |Positions(y, 1)|)
    ensures var r := PriorAndKdes(x, y, bw, numFeats, log);
      r.Ok? ==>
        var f0, f1 := ClassFraction(y, 0), ClassFraction(y, 1);
        r.value.0 == log(f0) && r.value.1 == log(f1) &&
        0.0 <= f0 <= 1.0 && 0.0 <= f1 <= 1.0 && f0 + f1 <= 1.0 &&
        ((forall i :: 0 <= i < |y| ==> y[i] == 0 || y[i] == 1) ==> f0 + f1 == 1.0) &&
        |r.value.2| == FeatureCount(numFeats) &&
        forall f :: 0 <= f < FeatureCount(numFeats) ==>
          r.value.2[f].0 == Kde(bw, Column(ClassRows(x, y, 0), f)) &&
          r.value.2[f].1 == Kde(bw, Column(ClassRows(x, y, 1), f))
  {
    if |y| == |x.rows| > 0 {
      ClassFractionsSumToOne(y);
    }
  }

  // ---------------------------------------------------------------- classification

  /** np.sum of a vector. */
  function Sum(s: seq<real>): real {
    if |s| == 0 then 0.0 else Sum(s[..|s| - 1]) + s[|s| - 1]
  }

  /** The estimator of one class within a feature's pair. */
  function ForClass(pair: KdePair, classOne: bool): Kde {
    if classOne then pair.1 else pair.0
  }

  /** prior + the log-densities of one row at features 0..3 under one class's estimators. */
  function Posterior(score: Scorer, prior: real, kdes: seq<KdePair>, classOne: bool, row: seq<real>): real
    requires |kdes| >= 4 && |row| >= 4
  {
    prior + (score(ForClass(kdes[0], classOne), row[0]) + score(ForClass(kdes[1], classOne), row[1]) +
             score(ForClass(kdes[2], classOne), row[2]) + score(ForClass(kdes[3], classOne), row[3]))
  }

  /** The class of one row: 1 when its class-1 total is at least its class-0 total. */
  function Predict(score: Scorer, prior0: real, prior1: real, kdes: seq<KdePair>, row: seq<real>): (c: int)
    requires |kdes| >= 4 && |row| >= 4
    ensures c == 0 || c == 1
  {
    if Posterior(score, prior1, kdes, true, row) >= Posterior(score, prior0, kdes, false, row) then 1 else 0
  }

  /** The class of every row. */
  function Predictions(score: Scorer, prior0: real, prior1: real, kdes: seq<KdePair>, x: Matrix): (p: seq<int>)
    requires Shaped(x) && x.width >= 4 && |kdes| >= 4
    ensures |p| == |x.rows|
  {
    seq(|x.rows|, i requires 0 <= i < |x.rows| => Predict(score, prior0, prior1, kdes, x.rows[i]))
  }

  /** The pair of the same estimators with the classes exchanged. */
  function SwapClasses(kdes: seq<KdePair>): (s: seq<KdePair>)
    ensures |s| == |kdes|
  {
    seq(|kdes|, f requires 0 <= f < |kdes| => (kdes[f].1, kdes[f].0))
  }

  /** Exchanging the two classes' priors and estimators flips every prediction
      except on a tie, which goes to class 1 both ways. */
  lemma SwappedClassesFlipPredictions(score: Scorer, prior0: real, prior1: real, kdes: seq<KdePair>, x: Matrix)
    requires Shaped(x) && x.width >= 4 && |kdes| >= 4
    ensures var p, q := Predictions(score, prior0, prior1, kdes, x), Predictions(score, prior1, prior0, SwapClasses(kdes), x);
      forall i :: 0 <= i < |x.rows| ==>
        var tie := Posterior(score, prior1, kdes, true, x.rows[i]) == Posterior(score, prior0, kdes, false, x.rows[i]);
        if tie then p[i] == 1 && q[i] == 1 else q[i] == 1 - p[i]
  {
    var s := SwapClasses(kdes);
    forall i | 0 <= i < |x.rows|
      ensures Posterior(score, prior0, s, true, x.rows[i]) == Posterior(score, prior0, kdes, false, x.rows[i])
      ensures Posterior(score, prior1, s, false, x.rows[i]) == Posterior(score, prior1, kdes, true, x.rows[i])
    {
      assert forall f :: 0 <= f < 4 ==> ForClass(s[f], true) == ForClass(kdes[f], false);
      assert forall f :: 0 <= f < 4 ==> ForClass(s[f], false) == ForClass(kdes[f], true);
    }
  }

  /** Only features 0..3 and the first four estimator pairs enter a
      prediction: arrays and estimator lists that agree there predict alike. */
  lemma PredictionsUseFirstFourFeatures(score: Scorer, prior0: real, prior1: real,
                                        kdes: seq<KdePair>, kdes': seq<KdePair>, x: Matrix, x': Matrix)
    requires Shaped(x) && x.width >= 4 && |kdes| >= 4
    requires Shaped(x') && x'.width >= 4 && |kdes'| >= 4
    requires kdes[..4] == kdes'[..4] && |x.rows| == |x'.rows|
    requires forall i :: 0 <= i < |x.rows| ==> x.rows[i][..4] == x'.rows[i][..4]
    ensures Predictions(score, prior0, prior1, kdes, x) == Predictions(score, prior0, prior1, kdes', x')
  {
    forall f | 0 <= f < 4 ensures kdes[f] == kdes'[f] {
      assert kdes[..4][f] == kdes'[..4][f];
    }
    forall i, f | 0 <= i < |x.rows| && 0 <= f < 4 ensures x.rows[i][f] == x'.rows[i][f] {
      assert x.rows[i][..4][f] == x'.rows[i][..4][f];
    }
  }

  // ---------------------------------------------------------------- the vector form of lines 79-93

  /** kde.score_samples(x[:, [f]]): the estimator's log-density at every entry of a column. */
  function ScoreSamples(score: Scorer, kde: Kde, column: seq<real>): (s: seq<real>)
    ensures |s| == |column|
  {
    seq(|column|, i requires 0 <= i < |column| => score(kde, column[i]))
  }

  /** prior + np.sum(np.column_stack((logs[0], logs[1], logs[2], logs[3])), axis = 1). */
  function StackedTotals(prior: real, logs: seq<seq<real>>, n: nat): (t: seq<real>)
    requires |logs| >= 4 && forall f :: 0 <= f < |logs| ==> |logs[f]| == n
    ensures |t| == n
  {
    var stacked := seq(n, i requires 0 <= i < n => [logs[0][i], logs[1][i], logs[2][i], logs[3][i]]);
    seq(n, i requires 0 <= i < n => prior + Sum(stacked[i]))
  }

  /** (totals1 >= totals0).astype(int). */
  function AtLeastMask(totals1: seq<real>, totals0: seq<real>): (p: seq<int>)
    requires |totals1| == |totals0|
    ensures |p| == |totals1|
  {
    seq(|totals1|, i requires 0 <= i < |totals1| => if totals1[i] >= totals0[i] then 1 else 0)
  }

  /** The whole-vector computation of lines 85-93 on the stacked score lists. */
  function StackedPredictions(prior0: real, prior1: real, logs0: seq<seq<real>>, logs1: seq<seq<real>>, n: nat): (p: seq<int>)
    requires |logs0| >= 4 && forall f :: 0 <= f < |logs0| ==> |logs0[f]| == n
    requires |logs1| >= 4 && forall f :: 0 <= f < |logs1| ==> |logs1[f]| == n
    ensures |p| == n
  {
    AtLeastMask(StackedTotals(prior1, logs1, n), StackedTotals(prior0, logs0, n))
  }

  /** np.sum of four entries. */
  lemma SumOfFour(a: real, b: real, c: real, d: real)
    ensures Sum([a, b, c, d]) == a + b + c + d
  {
    assert [a, b, c, d][..3] == [a, b, c];
    assert [a, b, c][..2] == [a, b];
    assert [a, b][..1] == [a];
    assert Sum([a]) == a by {
      assert [a][..0] == [];
    }
    assert Sum([a, b]) == a + b;
    assert Sum([a, b, c]) == a + b + c;
  }

  /** Score lists holding, for f < 4, each class's estimator of feature f
      scored on column f of x. */
  predicate ScoredColumns(score: Scorer, kdes: seq<KdePair>, x: Matrix, classOne: bool, logs: seq<seq<real>>)
    requires Shaped(x) && x.width >= 4 && |kdes| >= 4
  {
    |logs| >= 4 && forall f :: 0 <= f < 4 ==> logs[f] == ScoreSamples(score, ForClass(kdes[f], classOne), Column(x, f))
  }

  /** The column-stacked computation the source performs predicts, row by row,
      what the per-row rule predicts: a 0/1 class that is 1 exactly when
      prior_1 plus the class-1 log-densities of the row's features 0..3 is at
      least prior_0 plus the class-0 ones, so a tie goes to class 1. */
  lemma StackedPredictionsAgree(score: Scorer, prior0: real, prior1: real, kdes: seq<KdePair>, x: Matrix,
                                logs0: seq<seq<real>>, logs1: seq<seq<real>>)
    requires Shaped(x) && x.width >= 4 && |kdes| >= 4
    requires ScoredColumns(score, kdes, x, false, logs0) && ScoredColumns(score, kdes, x, true, logs1)
    requires forall f :: 0 <= f < |logs0| ==> |logs0[f]| == |x.rows|
    requires forall f :: 0 <= f < |logs1| ==> |logs1[f]| == |x.rows|
    ensures StackedPredictions(prior0, prior1, logs0, logs1, |x.rows|) == Predictions(score, prior0, prior1, kdes, x)
    ensures var p := StackedPredictions(prior0, prior1, logs0, logs1, |x.rows|);
      forall i :: 0 <= i < |x.rows| ==>
        var row := x.rows[i];
        (p[i] == 0 || p[i] == 1) &&
        (p[i] == 1 <==>
           prior1 + (score(kdes[0].1, row[0]) + score(kdes[1].1, row[1]) +
                     score(kdes[2].1, row[2]) + score(kdes[3].1, row[3])) >=
           prior0 + (score(kdes[0].0, row[0]) + score(kdes[1].0, row[1]) +
                     score(kdes[2].0, row[2]) + score(kdes[3].0, row[3])))
  {
    var n := |x.rows|;
    var t1, t0 := StackedTotals(prior1, logs1, n), StackedTotals(prior0, logs0, n);
    forall i | 0 <= i < n
      ensures t1[i] == Posterior(score, prior1, kdes, true, x.rows[i])
      ensures t0[i] == Posterior(score, prior0, kdes, false, x.rows[i])
    {
      SumOfFour(logs1[0][i], logs1[1][i], logs1[2][i], logs1[3][i]);
      SumOfFour(logs0[0][i], logs0[1][i], logs0[2][i], logs0[3][i]);
    }
  }

  // ---------------------------------------------------------------- error

  /** 1 - accuracy_score(y, predictions). */
  function ErrorRate(y: seq<int>, predictions: seq<int>): (e: real)
    requires |y| == |predictions| > 0
    ensures 0.0 <= e <= 1.0
  {
    RatioInUnitInterval(CountTrue(Equal(y, predictions)), |y|);
    1.0 - CountTrue(Equal(y, predictions)) as real / |y| as real
  }

  /** The error is the fraction of mismatched rows, so it lies in [0, 1]; it
      is 0 exactly when every row is predicted right. */
  lemma ErrorRateIsMismatchFraction(y: seq<int>, predictions: seq<int>)
    requires |y| == |predictions| > 0
    ensures ErrorRate(y, predictions) == CountTrue(NotEqual(y, predictions)) as real / |y| as real
    ensures 0.0 <= ErrorRate(y, predictions) <= 1.0
    ensures ErrorRate(y, predictions) == 0.0 <==> y == predictions
  {
    var wrong := NotEqual(y, predictions);
    EqualIsNotNotEqual(y, predictions);
    CountComplement(wrong);
    var right, bad, n := CountTrue(Equal(y, predictions)) as real, CountTrue(wrong) as real, |y| as real;
    FractionsOfAWhole(bad, right, n);
    CountZeroIff(wrong);
    if ErrorRate(y, predictions) == 0.0 {
      assert bad / n * n == bad;
      forall k | 0 <= k < |y| ensures y[k] == predictions[k] {
        assert !wrong[k];
      }
    }
  }

  /** The smaller of two counts. */
  function Min(a: nat, b: nat): nat {
    if a < b then a else b
  }

  /** What calculate_training_error returns or raises, in the order the
      source's lines would raise: within the loop a feature past either
      array's width or past kde_list (IndexError) or score_samples on an array
      without rows (ValueError); after it, logs_list[3] of a list with fewer
      than four entries (IndexError); then accuracy_score of label and
      prediction vectors of different lengths (ValueError). */
  function TrainingError(score: Scorer, xTrain: Matrix, yTrain: seq<int>, xValid: Matrix, yValid: seq<int>,
                         prior0: real, prior1: real, kdes: seq<KdePair>, numFeats: int): (r: Result<(real, real)>)
    requires Shaped(xTrain) && Shaped(xValid)
    ensures r.Ok? ==> 0.0 <= r.value.0 <= 1.0 && 0.0 <= r.value.1 <= 1.0
  {
    var limit := Min(Min(xTrain.width, xValid.width), |kdes|);
    if numFeats > 0 && limit == 0 then Raised(IndexError)
    else if numFeats > 0 && (|xTrain.rows| == 0 || |xValid.rows| == 0) then Raised(ValueError)
    else if numFeats > limit || numFeats < 4 then Raised(IndexError)
    else if |yTrain| != |xTrain.rows| || |yValid| != |xValid.rows| then Raised(ValueError)
    else Ok((ErrorRate(yTrain, Predictions(score, prior0, prior1, kdes, xTrain)),
             ErrorRate(yValid, Predictions(score, prior0, prior1, kdes, xValid))))
  }

  /** calculate_training_error: the four score lists are filled feature by
      feature, then stacked, summed, thresholded and compared with the labels. */
  method CalculateTrainingError(score: Scorer, xTrain: Matrix, yTrain: seq<int>, xValid: Matrix, yValid: seq<int>,
                                prior0: real, prior1: real, kdes: seq<KdePair>, numFeats: int)
    returns (r: Result<(real, real)>)
    requires Shaped(xTrain) && Shaped(xValid)
    ensures r == TrainingError(score, xTrain, yTrain, xValid, yValid, prior0, prior1, kdes, numFeats)
  {
    var limit := Min(Min(xTrain.width, xValid.width), |kdes|);
    var logs1Train: seq<seq<real>> := [];
    var logs0Train: seq<seq<real>> := [];
    var logs1Valid: seq<seq<real>> := [];
    var logs0Valid: seq<seq<real>> := [];
    for feat := 0 to FeatureCount(numFeats)
      invariant feat <= limit
      invariant feat > 0 ==> |xTrain.rows| > 0 && |xValid.rows| > 0
      invariant |logs1Train| == feat && |logs0Train| == feat && |logs1Valid| == feat && |logs0Valid| == feat
      invariant forall f :: 0 <= f < feat ==>
        logs1Train[f] == ScoreSamples(score, kdes[f].1, Column(xTrain, f)) &&
        logs0Train[f] == ScoreSamples(score, kdes[f].0, Column(xTrain, f)) &&
        logs1Valid[f] == ScoreSamples(score, kdes[f].1, Column(xValid, f)) &&
        logs0Valid[f] == ScoreSamples(score, kdes[f].0, Column(xValid, f))
    {
      if feat >= xTrain.width || feat >= xValid.width || feat >= |kdes| {
        return Raised(IndexError);
      }
      var featureColumnTrain := Column(xTrain, feat);
      var featureColumnValid := Column(xValid, feat);
      var (kdeClass0, kdeClass1) := kdes[feat];
      if |featureColumnTrain| == 0 || |featureColumnValid| == 0 {
        return Raised(ValueError);
      }
      logs1Train := logs1Train + [ScoreSamples(score, kdeClass1, featureColumnTrain)];
      logs0Train := logs0Train + [ScoreSamples(score, kdeClass0, featureColumnTrain)];
      logs1Valid := logs1Valid + [ScoreSamples(score, kdeClass1, featureColumnValid)];
      logs0Valid := logs0Valid + [ScoreSamples(score, kdeClass0, featureColumnValid)];
    }
    if numFeats < 4 {
      return Raised(IndexError);
    }
    var predictionListTrain := StackedPredictions(prior0, prior1, logs0Train, logs1Train, |xTrain.rows|);
    var predictionListValid := StackedPredictions(prior0, prior1, logs0Valid, logs1Valid, |xValid.rows|);
    StackedPredictionsAgree(score, prior0, prior1, kdes, xTrain, logs0Train, logs1Train);
    StackedPredictionsAgree(score, prior0, prior1, kdes, xValid, logs0Valid, logs1Valid);
    if |yTrain| != |xTrain.rows| || |yValid| != |xValid.rows| {
      return Raised(ValueError);
    }
    return Ok((ErrorRate(yTrain, predictionListTrain), ErrorRate(yValid, predictionListValid)));
  }

  /** calculate_training_error succeeds exactly when both arrays have rows, at
      least four features are asked for and both arrays and kde_list have that
      many, and the labels match the rows; both errors are then the fractions
      of mismatched rows, and a num_feats above four gives the same errors as
      four. */
  lemma TrainingErrorOutcome(score: Scorer, xTrain: Matrix, yTrain: seq<int>, xValid: Matrix, yValid: seq<int>,
                             prior0: real, prior1: real, kdes: seq<KdePair>, numFeats: int)
    requires Shaped(xTrain) && Shaped(xValid)
    ensures var r := TrainingError(score, xTrain, yTrain, xValid, yValid, prior0, prior1, kdes, numFeats);
      r.Ok? <==> 4 <= numFeats && numFeats <= xTrain.width && numFeats <= xValid.width && numFeats <= |kdes| &&
                 |xTrain.rows| > 0 && |xValid.rows| > 0 && |yTrain| == |xTrain.rows| && |yValid| == |xValid.rows|
    ensures var r := TrainingError(score, xTrain, yTrain, xValid, yValid, prior0, prior1, kdes, numFeats);
      r.Ok? ==>
        r == TrainingError(score, xTrain, yTrain, xValid, yValid, prior0, prior1, kdes, 4) &&
        var pTrain, pValid := Predictions(score, prior0, prior1, kdes, xTrain), Predictions(score, prior0, prior1, kdes, xValid);
        r.value.0 == CountTrue(NotEqual(yTrain, pTrain)) as real / |yTrain| as real &&
        r.value.1 == CountTrue(NotEqual(yValid, pValid)) as real / |yValid| as real &&
        0.0 <= r.value.0 <= 1.0 && 0.0 <= r.value.1 <= 1.0
  {
    var r := TrainingError(score, xTrain, yTrain, xValid, yValid, prior0, prior1, kdes, numFeats);
    if r.Ok? {
      ErrorRateIsMismatchFraction(yTrain, Predictions(score, prior0, prior1, kdes, xTrain));
      ErrorRateIsMismatchFraction(yValid, Predictions(score, prior0, prior1, kdes, xValid));
    }
  }

  /** What calculate_test_error returns or raises: the same checks as
      calculate_training_error, on the test array alone. Its x_full_train,
      y_full_train and best_bw arguments do not occur: the source never reads them. */
  function TestError(score: Scorer, xTest: Matrix, yTest: seq<int>,
                     prior0: real, prior1: real, kdes: seq<KdePair>, numFeats: int): (r: Result<(real, seq<int>)>)
    requires Shaped(xTest)
    ensures r.Ok? ==> 0.0 <= r.value.0 <= 1.0 && |r.value.1| == |xTest.rows|
  {
    var limit := Min(xTest.width, |kdes|);
    if numFeats > 0 && limit == 0 then Raised(IndexError)
    else if numFeats > 0 && |xTest.rows| == 0 then Raised(ValueError)
    else if numFeats > limit || numFeats < 4 then Raised(IndexError)
    else if |yTest| != |xTest.rows| then Raised(ValueError)
    else
      var predictions := Predictions(score, prior0, prior1, kdes, xTest);
      Ok((ErrorRate(yTest, predictions), predictions))
  }

  /** calculate_test_error: the two score lists are filled feature by feature,
      then stacked, summed, thresholded and compared with the labels. */
  method CalculateTestError(score: Scorer, xTest: Matrix, yTest: seq<int>, xFullTrain: Matrix, yFullTrain: seq<int>,
                            bestBw: real, prior0: real, prior1: real, kdes: seq<KdePair>, numFeats: int)
    returns (r: Result<(real, seq<int>)>)
    requires Shaped(xTest)
    ensures r == TestError(score, xTest, yTest, prior0, prior1, kdes, numFeats)
  {
    var limit := Min(xTest.width, |kdes|);
    var logs1Test: seq<seq<real>> := [];
    var logs0Test: seq<seq<real>> := [];
    for feat := 0 to FeatureCount(numFeats)
      invariant feat <= limit
      invariant feat > 0 ==> |xTest.rows| > 0
      invariant |logs1Test| == feat && |logs0Test| == feat
      invariant forall f :: 0 <= f < feat ==>
        logs1Test[f] == ScoreSamples(score, kdes[f].1, Column(xTest, f)) &&
        logs0Test[f] == ScoreSamples(score, kdes[f].0, Column(xTest, f))
    {
      if feat >= xTest.width || feat >= |kdes| {
        return Raised(IndexError);
      }
      var featureColumnTest := Column(xTest, feat);
      var (kdeClass0, kdeClass1) := kdes[feat];
      if |featureColumnTest| == 0 {
        return Raised(ValueError);
      }
      logs1Test := logs1Test + [ScoreSamples(score, kdeClass1, featureColumnTest)];
      logs0Test := logs0Test + [ScoreSamples(score, kdeClass0, featureColumnTest)];
    }
    if numFeats < 4 {
      return Raised(IndexError);
    }
    var predictionListTest := StackedPredictions(prior0, prior1, logs0Test, logs1Test, |xTest.rows|);
    StackedPredictionsAgree(score, prior0, prior1, kdes, xTest, logs0Test, logs1Test);
    if |yTest| != |xTest.rows| {
      return Raised(ValueError);
    }
    return Ok((ErrorRate(yTest, predictionListTest), predictionListTest));
  }

  /** calculate_test_error succeeds exactly when the test array has rows, at
      least four features are asked for and the array and kde_list have that
      many, and the labels match the rows; it then returns one 0/1 prediction
      per test row and the fraction of them that are wrong. */
  lemma TestErrorOutcome(score: Scorer, xTest: Matrix, yTest: seq<int>,
                         prior0: real, prior1: real, kdes: seq<KdePair>, numFeats: int)
    requires Shaped(xTest)
    ensures var r := TestError(score, xTest, yTest, prior0, prior1, kdes, numFeats);
      r.Ok? <==> 4 <= numFeats && numFeats <= xTest.width && numFeats <= |kdes| &&
                 |xTest.rows| > 0 && |yTest| == |xTest.rows|
    ensures var r := TestError(score, xTest, yTest, prior0, prior1, kdes, numFeats);
      r.Ok? ==>
        r == TestError(score, xTest, yTest, prior0, prior1, kdes, 4) &&
        var predictions := r.value.1;
        |predictions| == |xTest.rows| &&
        (forall i :: 0 <= i < |predictions| ==> predictions[i] == 0 || predictions[i] == 1) &&
        r.value.0 == CountTrue(NotEqual(yTest, predictions)) as real / |yTest| as real &&
        0.0 <= r.value.0 <= 1.0
  {
    var r := TestError(score, xTest, yTest, prior0, prior1, kdes, numFeats);
    if r.Ok? {
      ErrorRateIsMismatchFraction(yTest, r.value.1);
    }
  }
}

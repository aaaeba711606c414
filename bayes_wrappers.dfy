/** The Naive Bayes wrappers of helperfuncs.py. They fix the number of
    features at four and unpack the (prior_0, prior_1, kde_list) triple at
    indices 0, 1 and 2 before calling the classifier. */
module BayesWrappers {
  import opened Base
  import NB = NaiveBayes

  /** The number of features every wrapper asks for. */
  const NumFeats: nat := 4

  /** helperfuncs.get_prior_and_kdes: training with four features. */
  method GetPriorAndKdes(x: Matrix, y: seq<int>, bw: real, log: real -> real) returns (r: Result<NB.PriorKdes>)
    requires Shaped(x)
    ensures r == NB.PriorAndKdes(x, y, bw, NumFeats, log)
  {
    r := NB.GetPriorAndKdes(x, y, bw, NumFeats, log);
  }

  /** helperfuncs.calculate_error_bayes: the training and validation errors
      of the classifier given by the triple, with four features. */
  method CalculateErrorBayes(score: NB.Scorer, xTrain: Matrix, yTrain: seq<int>, xValid: Matrix, yValid: seq<int>,
                             priorKdeList: NB.PriorKdes) returns (r: Result<(real, real)>)
    requires Shaped(xTrain) && Shaped(xValid)
    ensures r == NB.TrainingError(score, xTrain, yTrain, xValid, yValid,
                                  priorKdeList.0, priorKdeList.1, priorKdeList.2, NumFeats)
  {
    var priorClass0 := priorKdeList.0;
    var priorClass1 := priorKdeList.1;
    var kdeList := priorKdeList.2;
    r := NB.CalculateTrainingError(score, xTrain, yTrain, xValid, yValid, priorClass0, priorClass1, kdeList, NumFeats);
  }

  /** What calculate_test_error_bayes returns or raises: training on the full
      training set with the given bandwidth, whose exception is passed on,
      then the test error of that classifier. */
  function TestErrorBayes(score: NB.Scorer, log: real -> real, xTest: Matrix, yTest: seq<int>,
                          xFullTrain: Matrix, yFullTrain: seq<int>, bestBw: real): (r: Result<(real, seq<int>)>)
    requires Shaped(xTest) && Shaped(xFullTrain)
    ensures r.Ok? ==> 0.0 <= r.value.0 <= 1.0 && |r.value.1| == |xTest.rows|
  {
    match NB.PriorAndKdes(xFullTrain, yFullTrain, bestBw, NumFeats, log)
    case Raised(e) => Raised(e)
    case Ok(t) => NB.TestError(score, xTest, yTest, t.0, t.1, t.2, NumFeats)
  }

  /** helperfuncs.calculate_test_error_bayes. */
  method CalculateTestErrorBayes(score: NB.Scorer, log: real -> real, xTest: Matrix, yTest: seq<int>,
                                 xFullTrain: Matrix, yFullTrain: seq<int>, bestBw: real)
    returns (r: Result<(real, seq<int>)>)
    requires Shaped(xTest) && Shaped(xFullTrain)
    ensures r == TestErrorBayes(score, log, xTest, yTest, xFullTrain, yFullTrain, bestBw)
  {
    var priorKdeList := NB.GetPriorAndKdes(xFullTrain, yFullTrain, bestBw, NumFeats, log);
    if priorKdeList.Raised? {
      return Raised(priorKdeList.exception);
    }
    var priorClass0 := priorKdeList.value.0;
    var priorClass1 := priorKdeList.value.1;
    var kdeList := priorKdeList.value.2;
    r := NB.CalculateTestError(score, xTest, yTest, xFullTrain, yFullTrain, bestBw,
                               priorClass0, priorClass1, kdeList, NumFeats);
  }

  /** calculate_test_error_bayes succeeds exactly
      when the full training set has a row per label, a positive bandwidth,
      both classes and four features, and the test set has four features and
      a label per row (and at least one row). The predictions are then those
      of the classifier whose priors are the logs of the class fractions and
      whose estimators are fitted to the four columns of each class, one 0/1
      prediction per test row, and the error is the fraction of them that
      are wrong. */
  lemma TestErrorBayesOutcome(score: NB.Scorer, log: real -> real, xTest: Matrix, yTest: seq<int>,
                              xFullTrain: Matrix, yFullTrain: seq<int>, bestBw: real)
    requires Shaped(xTest) && Shaped(xFullTrain)
    ensures var r := TestErrorBayes(score, log, xTest, yTest, xFullTrain, yFullTrain, bestBw);
      r.Ok? <==>
        |yFullTrain| == |xFullTrain.rows| > 0 && xFullTrain.width >= NumFeats && bestBw > 0.0 &&
        |NB.Positions(yFullTrain, 0)| > 0 && |NB.Positions(yFullTrain, 1)| > 0 &&
        xTest.width >= NumFeats && |xTest.rows| > 0 && |yTest| == |xTest.rows|
    ensures var r := TestErrorBayes(score, log, xTest, yTest, xFullTrain, yFullTrain, bestBw);
      r.Ok? ==>
        var class0, class1 := NB.ClassRows(xFullTrain, yFullTrain, 0), NB.ClassRows(xFullTrain, yFullTrain, 1);
        var kdes := seq(NumFeats, f requires 0 <= f < NumFeats =>
                          (NB.Kde(bestBw, Column(class0, f)), NB.Kde(bestBw, Column(class1, f))));
        var predictions := r.value.1;
        predictions == NB.Predictions(score, log(NB.ClassFraction(yFullTrain, 0)),
                                      log(NB.ClassFraction(yFullTrain, 1)), kdes, xTest) &&
        |predictions| == |xTest.rows| &&
        (forall i :: 0 <= i < |predictions| ==> predictions[i] == 0 || predictions[i] == 1) &&
        r.value.0 == CountTrue(NotEqual(yTest, predictions)) as real / |yTest| as real &&
        0.0 <= r.value.0 <= 1.0
  {
    NB.PriorAndKdesOutcome(xFullTrain, yFullTrain, bestBw, NumFeats, log);
    var t := NB.PriorAndKdes(xFullTrain, yFullTrain, bestBw, NumFeats, log);
    if t.Ok? {
      NB.TestErrorOutcome(score, xTest, yTest, t.value.0, t.value.1, t.value.2, NumFeats);
    }
  }
}

# Bank-Notes-Classifier in Dafny

A model of the computational core of the Bank-Notes-Classifier coursework
repository. That repository compares binary classifiers on the bank-note data
set. It rescales the feature columns, trains a Naive Bayes classifier built from
one kernel density estimator per class and feature, measures training,
validation and test errors, and compares classifiers with McNemar's test and
with precision and recall.

The model has five modules:

- `Base` (base.dfy) holds the shared pieces:
  - the Python exceptions the code can raise, as a `Result`;
  - numpy's float64 outcomes of dividing integer counts (`Float`: finite,
    +inf or nan);
  - counting over boolean vectors (numpy's logical operations followed by
    `np.sum`);
  - a read-only 2-D array with its shape (`Matrix`).
- `Preprocessing` (preprocessing.dfy) models `normalize_data` and
  `standardize_data`. They are methods that rescale an `array2<real>` in place
  and return it. Each is proved against a specification function on the
  array's rows (`Normalized`, `Standardized`), and lemmas state what those
  functions guarantee.
- `Metrics` (metrics.dfy) models `calculate_mcnemar`, with the printed verdict
  as a `Verdict` value, and `get_metrics`. Both are pure functions of label
  vectors. Each is given as written and in its evidently intended form (see
  Findings).
- `NaiveBayes` (naive_bayes.dfy) models the three methods of the `NaiveBayes`
  class:
  - The class has no state, so its methods are module methods.
  - Each loop that fills `kde_list` or the score lists is a Dafny `for` loop.
    It is proved equal to a specification function that states, case by case,
    what the call returns or which exception it raises.
  - The source's column-stacked vector arithmetic is proved to agree with a
    per-row argmax rule.
- `BayesWrappers` (bayes_wrappers.dfy) models the helperfuncs.py wrappers.
  They fix four features and unpack the `(prior_0, prior_1, kde_list)` triple at
  indices 0, 1 and 2.

Conventions:

- Features are exact `real`s.
- Labels are `int`s, and a label vector is a `seq<int>`.
- A fitted `KernelDensity` is the value `Kde(bandwidth, sample)`, the data it
  was fitted to.
- `score_samples` is the function parameter `score: (Kde, real) -> real`.
  Every property holds whatever that function is.
- `np.log` is the function parameter `log`, applied to the class fractions.
- `KernelDensity(bandwidth = bw).fit(sample)` is the function `Fit`, which
  takes scikit-learn's behaviour as given rather than deriving it: it raises
  ValueError for a non-positive bandwidth or an empty sample, and otherwise
  returns `Kde(bw, sample)`. It sits beside `score` and `log` as an
  assumption about a library the repository does not contain.
- A slice start `column` is a Python `int`: a negative one counts from the
  right-hand end (`data[:, -1:]` is the last column), and `SliceStart` turns
  it into the first selected column.
- `num_feats` is a Python `int`: `range(0, num_feats)` runs
  `FeatureCount(num_feats)` times, which is 0 for a negative value.
- `np.std`, which needs a square root, is the positive parameter `std`.

## Model

| member | source | states |
|---|---|---|
| Base.TrueDivide | helperfuncs.py:247 | numpy division of two counts is finite exactly when the denominator is positive, and then times the denominator gives the numerator; it is nan exactly for 0/0 (otherwise +inf) |
| Base.CountCells | helperfuncs.py:295-297 | the four cells of the truth table of two boolean vectors add up to each vector's count, to the count of their OR, of their XOR and to the length |
| Base.CountZeroIff | NaiveBayes.py:95 | a boolean vector counts zero exactly when no entry is true |
| Preprocessing.BlockEmptyIff | helperfuncs.py:47-48 | the selection data[:, column:] is empty exactly when there are no rows or column is at or past the width |
| Preprocessing.NormalizedInUnitInterval | helperfuncs.py:47-49 | every normalized entry lies in [0, 1], is 0 exactly where the selection's minimum was and 1 exactly where its maximum was |
| Preprocessing.NormalizedExtremes | helperfuncs.py:47-49 | after normalizing, the selection's minimum is 0 and its maximum is 1 |
| Preprocessing.StandardizedColumnsHaveMeanZero | helperfuncs.py:28-30 | every standardized column from `column` on has mean 0 |
| Preprocessing.RescaleRow | helperfuncs.py:30 | one row's entries from `first` on become (x - offset[j]) / scale; every other entry of the array is unchanged |
| Preprocessing.AssignRescaled | helperfuncs.py:30 | the slice assignment data[:, first:] = (data[:, first:] - offset) / scale leaves exactly the rows of the specification function `Rescaled` |
| Preprocessing.SliceStart | helperfuncs.py:28-30 | a non-negative slice start is itself; a negative one gives a first column within the width |
| Preprocessing.SliceStartSelects | helperfuncs.py:47-49 | column j is selected by data[:, column:] exactly when j >= column, or j - width >= column for a negative column |
| Preprocessing.Normalized | helperfuncs.py:47-49 | the specification of normalize_data: the shape is kept, columns before `column` are unchanged and each selected entry is (x - min) / (max - min), with one min and one max for the whole selection, BlockMin and BlockMax (np.min and np.max at lines 47-48); its range is stated by NormalizedInUnitInterval and NormalizedExtremes |
| Preprocessing.ColumnMeans | helperfuncs.py:28 | np.mean(.., axis = 0) gives one mean per column of the array; Standardized uses each selected column's own mean |
| Preprocessing.Standardized | helperfuncs.py:28-30 | the specification of standardize_data: the shape is kept, columns before `column` are unchanged and each selected entry is (x - mean of its own column) / std; that the columns then have mean 0 is StandardizedColumnsHaveMeanZero |
| Preprocessing.NormalizeData | helperfuncs.py:35-50 | an empty selection (no rows, or a slice starting past the last column) raises ValueError and changes nothing. Otherwise the same array is returned with the same shape and the rows of `Normalized` from the slice's first column, negative starts counted from the end |
| Preprocessing.StandardizeData | helperfuncs.py:16-31 | the same array is returned, holding the rows of `Standardized` from the slice's first column, negative starts counted from the end; an array without rows is unchanged |
| Metrics.E01 | helperfuncs.py:244 | e01 counts samples, so it is at most their number; DisagreementCounts relates it to e10 |
| Metrics.E10 | helperfuncs.py:245 | e10 counts samples, so it is at most their number |
| Metrics.DisagreementCounts | helperfuncs.py:244-245 | swapping the classifiers swaps e01 and e10; e01 + e10 counts the samples on which exactly one classifier is right, so it is at most n |
| Metrics.ObservedValue | helperfuncs.py:247 | the statistic is finite exactly when e01 + e10 > 0 and is +inf when e01 + e10 = 0 |
| Metrics.CalculateMcNemar | helperfuncs.py:230-266 | as written: not significant exactly when e01 + e10 > 0 and the statistic is below 3.84; otherwise classifier 1 better iff test_error1 < test_error2, classifier 2 better iff test_error1 > test_error2, same score iff equal |
| Metrics.CalculateMcNemarCorrected | helperfuncs.py:247-266 | as intended: not significant exactly when e01 + e10 = 0 or the statistic is below 3.84; the other three verdicts as before |
| Metrics.McNemarSymmetric | helperfuncs.py:244-266 | exchanging the two classifiers (and their test errors) mirrors the verdict, as written and corrected |
| Metrics.StatisticBelowCriticalForFewDisagreements | helperfuncs.py:247-250 | with between 1 and 5 disagreements the statistic is always below 3.84 |
| Metrics.SignificanceNeedsSixDisagreements | helperfuncs.py:247-250 | a significant corrected verdict needs e01 + e10 >= 6 |
| Metrics.NoDisagreementWhenEquallyRight | helperfuncs.py:244-245 | classifiers right on the same samples have e01 = e10 = 0 |
| Metrics.AsWrittenSelfComparisonIsSignificant | helperfuncs.py:247-262 | as written, a classifier compared with itself is reported "significantly different, but their score is the same" |
| Metrics.CorrectedEquallyRightNotSignificant | helperfuncs.py:247-266 | corrected, classifiers right on the same samples are never significantly different |
| Metrics.TruePositives | helperfuncs.py:295 | true_positives counts samples, so it is at most their number; CountCells and RecallIsTruePositiveRate relate it to the other counts |
| Metrics.FalsePositivesAsWritten | helperfuncs.py:296 | the value the source calls false_positives is never negative and at most the number of samples; AsWrittenFalsePositivesCountMismatches shows it is FP + FN |
| Metrics.FalseNegatives | helperfuncs.py:297 | false_negatives counts samples, so it is at most their number; RecallIsTruePositiveRate shows TP + FN is the positive count |
| Metrics.FalsePositives | helperfuncs.py:291-292 | the false positives the comments describe count samples, at most their number; CorrectedPrecisionIsPositivePredictiveValue shows TP + FP is the predicted-positive count |
| Metrics.GetMetrics | helperfuncs.py:271-302 | as written, neither precision nor recall is ever +inf, and each lies in [0, 1] when finite; what each one divides is stated by AsWrittenFalsePositivesCountMismatches and RecallIsTruePositiveRate |
| Metrics.GetMetricsCorrected | helperfuncs.py:291-302 | as intended, neither precision nor recall is ever +inf, and each lies in [0, 1] when finite; CorrectedPrecisionIsPositivePredictiveValue states what precision divides |
| Metrics.RecallIsTruePositiveRate | helperfuncs.py:295-300 | TP + FN is the number of positive ground-truth entries; recall is TP over that count, in [0, 1] when it is nonzero and nan otherwise |
| Metrics.AsWrittenFalsePositivesCountMismatches | helperfuncs.py:295-299 | the value named false_positives is the XOR count, that is FP + FN, so precision as written is TP / (TP + FP + FN), in [0, 1] when that sum is nonzero |
| Metrics.CorrectedPrecisionIsPositivePredictiveValue | helperfuncs.py:291-299 | with true false positives, TP + FP is the number of positive predictions and precision is TP over it, in [0, 1] when nonzero and nan otherwise |
| Metrics.AsWrittenPrecisionUnderstates | helperfuncs.py:296-299 | the precision as written never exceeds the intended one and is below it exactly when TP > 0 and FN > 0 |
| Metrics.CommentExampleMisreadsPrecision | helperfuncs.py:287-299 | on the example in the comments the code returns precision 1/2 while the intended precision is 2/3 |
| NaiveBayes.Positions | NaiveBayes.py:12-13 | the positions selected by the mask y == lbl are positions of that label, in strictly increasing order |
| NaiveBayes.PositionsComplete | NaiveBayes.py:12-13 | every position carrying the label is selected |
| NaiveBayes.PositionsPartition | NaiveBayes.py:12-13 | with 0/1 labels the two classes' sizes add up to the number of rows |
| NaiveBayes.ClassRows | NaiveBayes.py:12-13 | x[y == lbl, :] is a well-shaped matrix as wide as x; which rows it holds is ClassRowsAreTheLabelledRows |
| NaiveBayes.ClassRowsAreTheLabelledRows | NaiveBayes.py:12-13 | each class subset holds exactly the rows carrying its label, in their original order |
| NaiveBayes.PositionsDisjoint | NaiveBayes.py:12-13 | the masks of two different labels select at most len(y) rows together |
| NaiveBayes.ClassFraction | NaiveBayes.py:15-16 | len(class_l) / len(x) lies in [0, 1]; ClassFractionsSumToOne relates the two classes' fractions |
| NaiveBayes.ClassFractionsSumToOne | NaiveBayes.py:15-16 | the fractions len(class_0)/len(x) and len(class_1)/len(x) lie in [0, 1] and sum to at most 1, and to exactly 1 when every label is 0 or 1 |
| NaiveBayes.PriorAndKdes | NaiveBayes.py:11-36 | the specification of get_prior_and_kdes: success needs a label per row and a row, and yields one estimator pair per iteration of range(0, num_feats); its full outcome is PriorAndKdesOutcome |
| NaiveBayes.GetPriorAndKdes | NaiveBayes.py:11-36 | the loop returns exactly what the specification function `PriorAndKdes` gives, exceptions included |
| NaiveBayes.PriorAndKdesOutcome | NaiveBayes.py:11-36 | training succeeds exactly when labels match rows, there is a row, num_feats <= width and, if num_feats > 0, bw > 0 and both classes occur; then the triple is (log f0, log f1, kde_list) with f0, f1 in [0, 1] summing to at most 1, and to 1 when every label is 0 or 1, and kde_list has FeatureCount(num_feats) pairs (none for num_feats <= 0), pair f fitted with bw to column f of class 0 and of class 1 |
| NaiveBayes.Predict | NaiveBayes.py:85-92 | the per-row rule, as its definition: class 1 when prior_1 plus the class-1 scores of features 0..3 is at least prior_0 plus the class-0 scores (ties go to 1), otherwise 0; its contract states the class is 0 or 1, and StackedPredictionsAgree proves the source's vector code follows this rule |
| NaiveBayes.Predictions | NaiveBayes.py:92-93 | one prediction per row |
| NaiveBayes.SwappedClassesFlipPredictions | NaiveBayes.py:85-93 | exchanging the classes' priors and estimators flips every prediction except ties, which stay 1 |
| NaiveBayes.PredictionsUseFirstFourFeatures | NaiveBayes.py:79-89 | predictions depend only on features 0..3 and the first four estimator pairs |
| NaiveBayes.StackedPredictionsAgree | NaiveBayes.py:79-93 | the column_stack / row-sum / `>=` computation on the score lists gives the per-row predictions: each is 0 or 1, and 1 exactly when prior_1 plus the class-1 estimators' scores of the row's features 0..3 is at least prior_0 plus the class-0 ones |
| NaiveBayes.ErrorRate | NaiveBayes.py:95 | 1 - accuracy_score lies in [0, 1]; ErrorRateIsMismatchFraction states what it counts |
| NaiveBayes.ErrorRateIsMismatchFraction | NaiveBayes.py:95 | 1 - accuracy is the fraction of mismatched rows, in [0, 1], and 0 exactly when every row is predicted right |
| NaiveBayes.TrainingError | NaiveBayes.py:40-95 | the specification of calculate_training_error: when it succeeds both errors lie in [0, 1]; when it succeeds or raises is TrainingErrorOutcome |
| NaiveBayes.CalculateTrainingError | NaiveBayes.py:40-95 | the feature loop and the vector arithmetic return exactly what the specification function `TrainingError` gives, exceptions included |
| NaiveBayes.TrainingErrorOutcome | NaiveBayes.py:61-95 | calculate_training_error succeeds exactly when 4 <= num_feats <= both widths and len(kde_list), both arrays have rows and the labels match them; both errors are then mismatch fractions in [0, 1], the same as with num_feats = 4 |
| NaiveBayes.TestError | NaiveBayes.py:99-135 | the specification of calculate_test_error: when it succeeds the error lies in [0, 1] and there is one prediction per test row; when it succeeds or raises is TestErrorOutcome |
| NaiveBayes.CalculateTestError | NaiveBayes.py:99-135 | the loop returns exactly what `TestError` gives, which does not depend on x_full_train, y_full_train or best_bw |
| NaiveBayes.TestErrorOutcome | NaiveBayes.py:115-135 | calculate_test_error succeeds exactly when 4 <= num_feats <= width and len(kde_list), the test array has rows and the labels match; it returns one 0/1 prediction per test row and the mismatch fraction, in [0, 1], the same as with num_feats = 4 |
| BayesWrappers.GetPriorAndKdes | helperfuncs.py:164-177 | the wrapper trains with num_feats = 4 |
| BayesWrappers.CalculateErrorBayes | helperfuncs.py:181-201 | elements 0, 1 and 2 of the triple are passed as prior_class0, prior_class1 and kde_list, with num_feats = 4 |
| BayesWrappers.TestErrorBayes | helperfuncs.py:205-226 | the specification of calculate_test_error_bayes: when it succeeds the error lies in [0, 1] and there is one prediction per test row; TestErrorBayesOutcome states the rest |
| BayesWrappers.CalculateTestErrorBayes | helperfuncs.py:205-226 | trains on the full training set with best_bw, passes on its exception, otherwise returns calculate_test_error of that classifier |
| BayesWrappers.TestErrorBayesOutcome | helperfuncs.py:205-226 | for any training labels: succeeds exactly when the training set has a row per label, a row, four features, both classes, and best_bw > 0, and the test set has four features, a row and a label per row. The predictions are those of the classifier with priors log(class fraction) and estimators fitted to each class's four columns, one 0/1 per test row, and the error is their mismatch fraction |

## Left out

- `read_data_file` (file input) and `plot_crossVal_err` (plotting and saving
  images) are outside the model.
- `calculate_error` and `calculate_test_error` of helperfuncs.py are outside
  the model. They fit scikit-learn's LogisticRegression and
  KNeighborsClassifier, whose behaviour is not visible in the repository.
- Kernel density fitting and scoring are not computed. A fitted estimator is
  the data it was fitted to, and its score is the `score` parameter.
- `np.log` is the parameter `log`.
- GetPriorAndKdes: np.log(0) is -inf in numpy, which a `real` cannot be; the
  model returns `log(0.0)` instead. An empty class can only reach the returned
  priors when num_feats is 0 or negative; otherwise fitting raises first.
- Metrics.E01: requires prediction and truth vectors of one length. numpy
  would broadcast a vector of length 1 against the others and would raise
  ValueError for any other mismatch; neither is modelled.
- Metrics.E10: requires vectors of one length; broadcasting and the ValueError
  of a mismatch are not modelled, as for E01.
- Metrics.CalculateMcNemar: requires vectors of one length; broadcasting and
  the ValueError of a mismatch are not modelled, as for E01.
- Metrics.CalculateMcNemarCorrected: requires vectors of one length, as for
  CalculateMcNemar.
- Metrics.GetMetrics: requires predictions and truth of one length. numpy
  would broadcast a vector of length 1 and raise ValueError for any other
  mismatch; neither is modelled.
- Metrics.GetMetricsCorrected: requires vectors of one length, as for
  GetMetrics.
- Metrics.TruePositives, Metrics.FalseNegatives, Metrics.FalsePositives and
  Metrics.FalsePositivesAsWritten: require vectors of one length, as for
  GetMetrics.
- `np.std` is the parameter `std` of StandardizeData, and its square root is
  not computed.
- StandardizeData: requires std > 0. A zero standard deviation makes numpy
  write inf or nan, which a real array cannot hold.
- NormalizeData: requires a selection whose entries are not all equal. For a
  constant selection numpy divides 0 by 0 and writes nan into every selected
  entry, which a real array cannot hold.
- Floating-point rounding is not modelled. Features, scores, priors and
  errors are exact reals.
- Inputs holding nan or inf are not modelled.
- The printed messages of `calculate_mcnemar` are not modelled. The verdict is
  returned as a value, and the classifier names it prints are not parameters.
- Exceptions are modelled by their class only (IndexError, ValueError,
  ZeroDivisionError), not by their messages.
- scikit-learn raises ValueError for a non-positive bandwidth. Depending on
  the version, it does this when the estimator is constructed or when it is
  fitted. Both happen on the same loop iteration, so the model has one outcome.
- Label and prediction vectors are sequences of Python integers. numpy arrays
  with another dtype, or with more than one dimension, are not modelled.
- The `NaiveBayes` object itself is not modelled. It has no fields, so its
  methods are module-level methods here.

## Findings

| source | as written | input that shows it | evidently intended | confidence | as-written member | corrected member |
|---|---|---|---|---|---|---|
| helperfuncs.py:247-250 | `((abs(e01 - e10) - 1) ** 2) / (e01 + e10)` divides numpy integers, so e01 = e10 = 0 gives 1/0 = +inf, and +inf >= 3.84 reports a significant difference | two prediction vectors that are right on exactly the same samples, e.g. a classifier compared with itself: it prints "significantly different, but their score is the same" | no disagreement is no evidence of a difference: "not significantly different" | not executed | Metrics.AsWrittenSelfComparisonIsSignificant | Metrics.CalculateMcNemarCorrected |
| helperfuncs.py:296 | `false_positives = sum(predictions OR truth) - true_positives` counts FP + FN, so precision is TP / (TP + FP + FN) | predictions [1, 0, 1, 1, 0] and truth [0, 0, 1, 1, 1] (the example in the comments at lines 288-289) give precision 1/2 | TP / (TP + FP) = 2/3, with the false positives the comments at lines 291-292 describe | not executed | Metrics.CommentExampleMisreadsPrecision | Metrics.GetMetricsCorrected |

# Binary-classification evaluation utilities, modelled in Dafny

This project models two small evaluation helpers used around model training in
a credit-risk repository:

- **`BinCls`** (`bincls.dfy`) models the fold report aggregator
  `BinaryClassificationAverageReport` from `SVM/bincls.py`. It keeps an
  append-only list of binary confusion matrices, one per cross-validation fold,
  each flattened to `[tp, fp, fn, tn] = [cm[0][0], cm[0][1], cm[1][0], cm[1][1]]`.
  From that list it computes each fold's eight quantities:
  - positive precision `tp/(tp+fn)`, positive recall `tp/(tp+fp)`;
  - negative precision `tn/(fp+tn)`, negative recall `tn/(fn+tn)`;
  - the two F1 scores `2pr/(p+r)`;
  - the support-weighted F1;
  - the accuracy.

  It averages each quantity over the folds and returns the composite score
  `0.6 · mean(positive recall) + 0.4 · mean(weighted F1)`. Counts are `nat`
  and every ratio is an exact `real`.
- **`MyTrace`** (`my_trace.dfy`) models the bookkeeping of the training callback
  `MetricsCallback` from `DNN/my_trace.py`. The callback keeps eight metric
  series. At every epoch except epoch 0 it appends one value to each series.
  At every epoch divisible by 10, epoch 0 included, it asks for the weights to
  be saved under `models/<title>/<epoch>/my_model`. The callback's helper
  `specify_recall` gives one class's recall from a confusion-matrix row.

The source's object state is modelled as classes:
- `BinaryClassificationAverageReport` has the fields `accumCm` and `targetNames`.
- `MetricsCallback` has its eight series as `seq<real>` fields. A ghost field
  records the epochs seen so far.

The per-fold formulas are pure functions, collected in `FoldMetrics`. The
average uses a method, `Averages`, with a loop and eight accumulators, as the
source does. The loop body's computation of one fold is the helper method
`FoldFormulas`, written with the source's raw divisions. `Averages` is proved to return `Mean(accumCm)`, the function
that defines the eight averages. The laws of the averaging
are proved as lemmas about `Sum`, `Mean` and `Score`.

The source's `object_score` and `avg_cm_report` contain two copies of the same
loop (lines 13-48 and 53-88). The model has that loop once, in `Averages`, and
both methods are proved to return values of the same `Mean(accumCm)`. Neither
method has a `modifies` clause, so Dafny's frame rule guarantees that neither
changes `accumCm` or `targetNames`.

Each fold's six denominators must be nonzero:
- the positive and negative row sums;
- the positive and negative column sums;
- `pp + pr` and `np + nr`.

The model makes this a precondition, `Defined`. `DenominatorsNonzero` proves
that `Defined` is exactly the condition that all six divisions are by nonzero
values, and that it holds exactly when `tp > 0` and `tn > 0`. The model also
requires at least one fold, because the final averaging step divides by the
fold count.

For the fold `[8, 2, 3, 7]` the code gives positive precision
`8/(8+3) = 8/11`, positive recall `8/(8+2) = 0.8` and class weights `10/20`
for each class. `ExampleFold` states these values and the resulting score.
Degenerate folds and an empty fold list are preconditions (see "Left out").

## Model

| member | source | states |
|---|---|---|
| `BinCls.Ratio` | SVM/bincls.py:29 | each count-over-total ratio (pp, pr, np, nr, and the accuracy at line 39) lies in [0,1] |
| `BinCls.RatioExtremes` | SVM/bincls.py:29 | a count-over-total ratio is 0 exactly when the count is 0, and 1 exactly when the count is the whole total |
| `BinCls.F1` | SVM/bincls.py:34-35 | the F1 score `2pr/(p+r)` of a precision and a recall in [0,1] lies in [0,1] |
| `BinCls.HarmonicMeanBounds` | SVM/bincls.py:34-35 | the F1 score `2pr/(p+r)` lies between the smaller and the larger of the precision and the recall |
| `BinCls.WeightedF1` | SVM/bincls.py:38 | the support-weighted F1 of two class F1 scores in [0,1] lies in [0,1] |
| `BinCls.WeightedF1Between` | SVM/bincls.py:38 | the support-weighted F1 is a convex combination of the two class F1 scores: it lies between the smaller and the larger of them |
| `BinCls.DenominatorsNonzero` | SVM/bincls.py:24-35 | `Defined(f)` holds exactly when the row sums, the column sums, `pp+pr` and `np+nr` of the fold are all nonzero |
| `BinCls.FoldMetrics` | SVM/bincls.py:24-39 | for a fold whose denominators are nonzero, all eight per-fold quantities lie in [0,1] |
| `BinCls.PerfectFold` | SVM/bincls.py:29-39 | a fold with no off-diagonal entries and a positive diagonal has all denominators nonzero and scores exactly 1 on all eight quantities |
| `BinCls.ExampleFold` | SVM/bincls.py:24-39 | the fold [8,2,3,7] gives pp=8/11, pr=0.8, np=7/9, nr=0.7, F1s 16/21 and 14/19, weighted F1 299/399, accuracy 0.75, and score 0.48 + 0.4·299/399 |
| `BinCls.Sum` | SVM/bincls.py:23-39 | each of the eight running sums over n well-defined folds lies in [0, n] |
| `BinCls.Mean` | SVM/bincls.py:41-48 | each of the eight averages over a non-empty list of well-defined folds lies in [0,1] |
| `BinCls.Score` | SVM/bincls.py:50 | the composite score `0.6·recall + 0.4·weighted F1` of averages in [0,1] lies in [0,1], and is 1 exactly when both the positive recall and the weighted F1 are 1 |
| `BinCls.SumConcat` | SVM/bincls.py:23-39 | the sums over two fold lists joined together are the sums of the two lists added |
| `BinCls.SumIsFieldSum` | SVM/bincls.py:30-39 | each of the eight accumulators equals an independent front-to-back sum of that quantity over the folds |
| `BinCls.ScoreFormula` | SVM/bincls.py:13-50 | the score equals `0.6·(Σ pr)/n + 0.4·(Σ weighted F1)/n` over the n folds |
| `BinCls.SumPermutation` | SVM/bincls.py:23-39 | two fold lists that are permutations of each other give the same eight sums |
| `BinCls.MeanPermutation` | SVM/bincls.py:23-50 | permuting the folds changes none of the eight averages and not the score |
| `BinCls.MeanDuplicate` | SVM/bincls.py:13-50 | the fold list joined with itself has the same eight averages and the same score as the list itself |
| `BinCls.PerfectFolds` | SVM/bincls.py:23-50 | when every fold is perfect, all eight averages are 1 and the score is exactly 1 |
| `BinCls.BinaryClassificationAverageReport.constructor` | SVM/bincls.py:3-5 | a new report has no folds and keeps the given target names |
| `BinCls.BinaryClassificationAverageReport.CmAppend` | SVM/bincls.py:7-10 | adds exactly one entry `[cm[0][0], cm[0][1], cm[1][0], cm[1][1]]` at the end of the fold list, leaves the earlier entries unchanged, and leaves the target names unchanged |
| `BinCls.BinaryClassificationAverageReport.Averages` | SVM/bincls.py:13-48 | the loop with its eight accumulators, followed by the division by the fold count, returns exactly `Mean(accumCm)` |
| `BinCls.BinaryClassificationAverageReport.ObjectScore` | SVM/bincls.py:12-50 | returns `Score(Mean(accumCm))`, a value in [0,1], and modifies nothing |
| `BinCls.BinaryClassificationAverageReport.AvgCmReport` | SVM/bincls.py:52-88 | returns the eight averages `Mean(accumCm)`, the same values that `ObjectScore` combines, all in [0,1], and modifies nothing |
| `MyTrace.EntryOfRowSum` | DNN/my_trace.py:24-25 | a row entry is at most the row sum, and equals the row sum exactly when every other entry of the row is 0 |
| `MyTrace.SpecifyRecall` | DNN/my_trace.py:23-26 | with a nonzero row sum, `cm[i][i] / sum(cm[i])` lies in [0,1], and is 1 exactly when no other entry of row i is nonzero |
| `MyTrace.NatToString` | DNN/my_trace.py:46 | `str(epoch)` is a non-empty string of decimal digits with no leading zero: it starts with `0` only when it is exactly `"0"`, which is the numeral of 0 and of no other number |
| `MyTrace.ParseNatToString` | DNN/my_trace.py:46 | reading the decimal numeral of n gives n back |
| `MyTrace.CheckpointPathEpoch` | DNN/my_trace.py:46 | the checkpoint path starts with `models/<title>/`, ends with `/my_model`, and the part in between reads back as the epoch |
| `MyTrace.CheckpointPathInjective` | DNN/my_trace.py:46 | within one run, different epochs are saved under different paths |
| `MyTrace.MetricsCallback.constructor` | DNN/my_trace.py:9-21 | all eight series start empty, and the series-length invariant holds with no epochs seen |
| `MyTrace.MetricsCallback.OnEpochEnd` | DNN/my_trace.py:28-46 | at epoch 0, all eight series are unchanged. At a later epoch, each series gets exactly one value appended after its old contents, and `val_bad_recall` gets `specify_recall(cm, 0)`. All series keep the same length: the number of nonzero epochs seen. A checkpoint path `models/<title>/<epoch>/my_model` is returned exactly when `epoch % 10 == 0`, epoch 0 included |

## Left out

- Console output of `avg_cm_report` (SVM/bincls.py:90-104). This covers the blank lines, the fold count, the `%8.2f` percentages and the labels `target_names[0]` and `target_names[1]`. Only the eight averages that feed this output are modelled. Because of this, the model does not capture the IndexError the report raises when there are fewer than two target names.
- Division by zero in a fold: a fold whose row sum, column sum, `pp+pr` or `np+nr` is 0. The model makes `Defined` a precondition and does not model an error result. With plain Python ints the source raises ZeroDivisionError. With the numpy counts a confusion matrix normally holds, a zero denominator instead gives NaN or infinity with a warning. So no single defined result captures this case.
- An empty fold list. `fold_num` and the eight accumulators are plain Python ints (SVM/bincls.py:13-21), so line 41 always evaluates `0/0` and raises ZeroDivisionError. The model makes a non-empty fold list a precondition of `Averages`, `ObjectScore` and `AvgCmReport` instead of modelling that exception.
- BinCls.BinaryClassificationAverageReport.CmAppend: requires at least two rows of at least two entries. A smaller matrix, such as the 1×1 matrix sklearn's `confusion_matrix` returns when only one label occurs, makes SVM/bincls.py:9 raise IndexError; that exception is not modelled.
- MyTrace.SpecifyRecall: requires the row `index` and its entry `index` to exist. A smaller matrix makes DNN/my_trace.py:24 raise IndexError; that exception is not modelled.
- MyTrace.MetricsCallback.OnEpochEnd: at a nonzero epoch, requires `cm` to have a row 0 with an entry 0 and a nonzero row sum. A smaller matrix makes DNN/my_trace.py:24 raise IndexError, and a zero row sum divides by zero as above; neither error is modelled.
- Python floating-point rounding. All ratios are exact rationals (`real`).
- The Keras model calls: `predict_classes` and `save_weights` (DNN/my_trace.py:35, 46). The checkpoint is modelled as the path that `OnEpochEnd` returns, not as a file write. The progress dot printed at each checkpoint (DNN/my_trace.py:45) is left out.
- The sklearn functions `confusion_matrix` and `precision_recall_fscore_support` (DNN/my_trace.py:36, 40). Their results are parameters of `OnEpochEnd`: the matrix `cm` and the weighted precision, recall and F1. Because of this, the fields `X_valid` and `Y_valid`, which are used only by these foreign calls, are not modelled.
- `logs.get` (DNN/my_trace.py:30-33) and the `logs=None` default of `on_epoch_end` (DNN/my_trace.py:28). `logs.get` returns None for a missing key, and the source would then append None. If `logs` itself is None at a nonzero epoch, line 30 raises AttributeError. The model takes the four logged values as a `Logs` value of reals, which can be neither missing nor None.
- The `plot` method (DNN/my_trace.py:49-71). It only renders with matplotlib, creates a directory and writes an image file.
- The `tf.keras.callbacks.Callback` base class and its constructor call (DNN/my_trace.py:7-10).

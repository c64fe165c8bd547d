/** Per-epoch metrics recorder used as a training callback.

    The training framework, the model's predictions, the confusion matrix and
    the weighted precision/recall/F1 are computed by foreign libraries; here
    their results arrive as parameters of OnEpochEnd. Saving the weights is
    modelled as the checkpoint path that OnEpochEnd asks to be written.
 */
module MyTrace {

  datatype Option<T> = None | Some(value: T)

  /** The four values read from the framework's per-epoch log dictionary. */
  datatype Logs = Logs(loss: real, acc: real, valLoss: real, valAcc: real)

  /** The weighted precision, recall and F1 over the validation set. */
  datatype Weighted = Weighted(precision: real, recall: real, f1: real)

  // ---------------------------------------------------------------------
  // Recall of one class from a confusion matrix

  /** The sum of a row, added left to right. */
  function RowSum(row: seq<nat>): nat {
    if row == [] then 0 else row[0] + RowSum(row[1..])
  }

  /** No entry of a row exceeds its sum, and an entry equals the sum exactly
      when every other entry is zero. */
  lemma {:induction false} EntryOfRowSum(row: seq<nat>, k: nat)
    requires k < |row|
    ensures row[k] <= RowSum(row)
    ensures row[k] == RowSum(row) <==> forall j :: 0 <= j < |row| && j != k ==> row[j] == 0
  {
    if k == 0 {
      RestZeroIffSumZero(row[1..]);
      assert forall j :: 1 <= j < |row| ==> row[j] == row[1..][j - 1];
    } else {
      EntryOfRowSum(row[1..], k - 1);
      assert forall j :: 1 <= j < |row| ==> row[j] == row[1..][j - 1];
    }
  }

  lemma {:induction false} RestZeroIffSumZero(row: seq<nat>)
    ensures RowSum(row) == 0 <==> forall j :: 0 <= j < |row| ==> row[j] == 0
  {
    if row != [] {
      RestZeroIffSumZero(row[1..]);
      assert forall j :: 1 <= j < |row| ==> row[j] == row[1..][j - 1];
    }
  }

  /** Recall of class index: its diagonal entry over its row sum. A value in
      [0, 1] that is 1 exactly when no sample of that class is misclassified. */
  function SpecifyRecall(cm: seq<seq<nat>>, index: nat): (r: real)
    requires index < |cm| && index < |cm[index]|
    requires RowSum(cm[index]) > 0
    ensures 0.0 <= r <= 1.0
    ensures r == 1.0 <==> forall j :: 0 <= j < |cm[index]| && j != index ==> cm[index][j] == 0
  {
    var tp := cm[index][index];
    var tpFn := RowSum(cm[index]);
    EntryOfRowSum(cm[index], index);
    var r := tp as real / tpFn as real;
    assert r * tpFn as real == tp as real;
    assert r == 1.0 <==> tp == tpFn;
    r
  }

  // ---------------------------------------------------------------------
  // Checkpoint rule and path

  /** A checkpoint is requested at every tenth epoch, starting with epoch 0. */
  predicate CheckpointDue(epoch: nat) {
    epoch % 10 == 0
  }

  function DigitChar(d: nat): (c: char)
    requires d < 10
  {
    "0123456789"[d]
  }

  function DigitValue(c: char): nat {
    if '0' <= c <= '9' then (c as int - '0' as int) as nat else 0
  }

  predicate IsDigit(c: char) { '0' <= c <= '9' }

  /** The decimal numeral of n, as str() writes it. */
  function NatToString(n: nat): (s: string)
    ensures |s| > 0
    ensures forall i :: 0 <= i < |s| ==> IsDigit(s[i])
    ensures s[0] == '0' ==> s == "0"
    ensures s == "0" <==> n == 0
    decreases n
  {
    if n < 10 then [DigitChar(n)] else NatToString(n / 10) + [DigitChar(n % 10)]
  }

  /** Reads a string of digits back as a number. */
  function ParseDecimal(s: string): nat
  {
    if s == [] then 0 else 10 * ParseDecimal(s[..|s| - 1]) + DigitValue(s[|s| - 1])
  }

  /** Reading the numeral of n gives n back. */
  lemma {:induction false} ParseNatToString(n: nat)
    ensures ParseDecimal(NatToString(n)) == n
    decreases n
  {
    var s := NatToString(n);
    if n < 10 {
      assert s[..0] == [];
    } else {
      ParseNatToString(n / 10);
      assert s[..|s| - 1] == NatToString(n / 10);
    }
  }

  /** The path save_weights is given: models/<title>/<epoch>/my_model. */
  function CheckpointPath(title: string, epoch: nat): string {
    "models/" + title + "/" + NatToString(epoch) + "/my_model"
  }

  /** The path lies under models/<title>/, ends in /my_model, and the epoch
      can be read back from the part in between. */
  lemma CheckpointPathEpoch(title: string, epoch: nat)
    ensures var path, prefix := CheckpointPath(title, epoch), "models/" + title + "/";
      |prefix| + 9 < |path| &&
      path[..|prefix|] == prefix &&
      path[|path| - 9..] == "/my_model" &&
      ParseDecimal(path[|prefix|..|path| - 9]) == epoch
  {
    var path, prefix := CheckpointPath(title, epoch), "models/" + title + "/";
    var s := NatToString(epoch);
    assert path == prefix + s + "/my_model";
    assert path[|prefix|..|path| - 9] == s;
    ParseNatToString(epoch);
  }

  /** Within one run, distinct epochs are saved under distinct paths. */
  lemma CheckpointPathInjective(title: string, e1: nat, e2: nat)
    requires CheckpointPath(title, e1) == CheckpointPath(title, e2)
    ensures e1 == e2
  {
    CheckpointPathEpoch(title, e1);
    CheckpointPathEpoch(title, e2);
  }

  // ---------------------------------------------------------------------
  // The recorder object

  /** Number of epochs in the list that record metrics (every epoch but 0). */
  function RecordingEpochs(epochs: seq<nat>): nat {
    if epochs == [] then 0
    else RecordingEpochs(epochs[..|epochs| - 1]) + (if epochs[|epochs| - 1] != 0 then 1 else 0)
  }

  class MetricsCallback {
    const title: string
    var losses: seq<real>
    var accuracy: seq<real>
    var valLoss: seq<real>
    var valAcc: seq<real>
    var valBadRecall: seq<real>
    var wPrecision: seq<real>
    var wRecall: seq<real>
    var wF1: seq<real>
    /** Every epoch index OnEpochEnd has been called with, in order. */
    ghost var epochs: seq<nat>

    /** The eight series always have one entry per nonzero epoch seen. */
    ghost predicate Valid()
      reads this
    {
      var n := RecordingEpochs(epochs);
      |losses| == n && |accuracy| == n && |valLoss| == n && |valAcc| == n &&
      |valBadRecall| == n && |wPrecision| == n && |wRecall| == n && |wF1| == n
    }

    constructor (title: string)
      ensures Valid() && this.title == title && epochs == []
      ensures losses == [] && accuracy == [] && valLoss == [] && valAcc == []
      ensures valBadRecall == [] && wPrecision == [] && wRecall == [] && wF1 == []
    {
      this.title := title;
      losses, accuracy, valLoss, valAcc := [], [], [], [];
      valBadRecall, wPrecision, wRecall, wF1 := [], [], [], [];
      epochs := [];
    }

    /** End-of-epoch hook. At every epoch but 0 it appends one value to each
        series: the four logged values, the recall of class 0 from the
        validation confusion matrix cm, and the weighted precision, recall and
        F1. At every tenth epoch it returns the checkpoint path to save to. */
    method OnEpochEnd(epoch: nat, logs: Logs, cm: seq<seq<nat>>, weighted: Weighted)
      returns (checkpoint: Option<string>)
      requires Valid()
      requires epoch != 0 ==> 0 < |cm| && 0 < |cm[0]| && RowSum(cm[0]) > 0
      modifies this
      ensures Valid()
      ensures epochs == old(epochs) + [epoch]
      ensures epoch == 0 ==>
        losses == old(losses) && accuracy == old(accuracy) &&
        valLoss == old(valLoss) && valAcc == old(valAcc) &&
        valBadRecall == old(valBadRecall) && wPrecision == old(wPrecision) &&
        wRecall == old(wRecall) && wF1 == old(wF1)
      ensures epoch != 0 ==>
        losses == old(losses) + [logs.loss] && accuracy == old(accuracy) + [logs.acc] &&
        valLoss == old(valLoss) + [logs.valLoss] && valAcc == old(valAcc) + [logs.valAcc] &&
        valBadRecall == old(valBadRecall) + [SpecifyRecall(cm, 0)] &&
        wPrecision == old(wPrecision) + [weighted.precision] &&
        wRecall == old(wRecall) + [weighted.recall] && wF1 == old(wF1) + [weighted.f1]
      ensures checkpoint == if CheckpointDue(epoch) then Some(CheckpointPath(title, epoch)) else None
    {
      if epoch != 0 {
        losses := losses + [logs.loss];
        accuracy := accuracy + [logs.acc];
        valLoss := valLoss + [logs.valLoss];
        valAcc := valAcc + [logs.valAcc];
        var br := SpecifyRecall(cm, 0);
        valBadRecall := valBadRecall + [br];
        wPrecision := wPrecision + [weighted.precision];
        wRecall := wRecall + [weighted.recall];
        wF1 := wF1 + [weighted.f1];
      }
      epochs := epochs + [epoch];
      assert epochs[..|epochs| - 1] == old(epochs);
      if epoch % 10 == 0 {
        checkpoint := Some(CheckpointPath(title, epoch));
      } else {
        checkpoint := None;
      }
    }
  }
}

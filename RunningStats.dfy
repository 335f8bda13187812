/**
 * The running statistics of one phase of train_model's classification
 * branch. The accumulators start at zero when a phase starts; every batch
 * adds its loss, the number of exact predictions, the number within one
 * class of the label, the sum of squared errors and the sum of absolute
 * errors. Predictions and labels are integer class indices.
 */
module RunningStats {
  import opened Wrappers

  /**
   * One batch as the statistics see it: arg-max predictions, labels, the
   * batch loss, and whether every target window that the batch's loss terms
   * build fits its slice (LabelWindow.Fits for each label and coefficient list).
   */
  datatype Batch = Batch(preds: seq<int>, labels: seq<int>, loss: real, targetsFit: bool)

  datatype Counters = Counters(corrects: nat, within1: nat, sqErr: nat, absErr: nat)

  predicate WellShaped(batches: seq<Batch>) {
    forall k | 0 <= k < |batches| :: |batches[k].preds| == |batches[k].labels|
  }

  function Abs(x: int): nat { if x < 0 then -x else x }

  function Plus(a: Counters, b: Counters): Counters {
    Counters(a.corrects + b.corrects, a.within1 + b.within1, a.sqErr + b.sqErr, a.absErr + b.absErr)
  }

  /** What one (prediction, label) pair contributes. */
  function SampleCounters(p: int, l: int): Counters {
    Counters(if p == l then 1 else 0, if Abs(p - l) <= 1 then 1 else 0, (p - l) * (p - l), Abs(p - l))
  }

  /** The counters of a run of samples: #(p == l), #(|p - l| <= 1), sum (p - l)^2, sum |p - l|. */
  function Tally(preds: seq<int>, labels: seq<int>): Counters
    requires |preds| == |labels|
  {
    if preds == [] then Counters(0, 0, 0, 0)
    else
      var k := |preds| - 1;
      Plus(Tally(preds[..k], labels[..k]), SampleCounters(preds[k], labels[k]))
  }

  /** What the accumulators hold after the given batches, batch by batch. */
  function PhaseTally(batches: seq<Batch>): Counters
    requires WellShaped(batches)
  {
    if batches == [] then Counters(0, 0, 0, 0)
    else
      var b := batches[|batches| - 1];
      Plus(PhaseTally(batches[..|batches| - 1]), Tally(b.preds, b.labels))
  }

  function PhaseLoss(batches: seq<Batch>): real {
    if batches == [] then 0.0 else PhaseLoss(batches[..|batches| - 1]) + batches[|batches| - 1].loss
  }

  /** All predictions and all labels of a phase, batch after batch. */
  function AllPreds(batches: seq<Batch>): seq<int> {
    if batches == [] then [] else AllPreds(batches[..|batches| - 1]) + batches[|batches| - 1].preds
  }

  function AllLabels(batches: seq<Batch>): seq<int> {
    if batches == [] then [] else AllLabels(batches[..|batches| - 1]) + batches[|batches| - 1].labels
  }

  lemma {:induction false} AllSameLength(batches: seq<Batch>)
    requires WellShaped(batches)
    ensures |AllPreds(batches)| == |AllLabels(batches)|
  {
    if batches != [] { AllSameLength(batches[..|batches| - 1]); }
  }

  /** Counting is additive over concatenation. */
  lemma {:induction false} TallyAppend(p1: seq<int>, l1: seq<int>, p2: seq<int>, l2: seq<int>)
    requires |p1| == |l1| && |p2| == |l2|
    ensures Tally(p1 + p2, l1 + l2) == Plus(Tally(p1, l1), Tally(p2, l2))
  {
    if p2 == [] {
      assert p1 + p2 == p1 && l1 + l2 == l1;
    } else {
      var k := |p2| - 1;
      var p, l := p1 + p2, l1 + l2;
      assert p[..|p| - 1] == p1 + p2[..k] && p[|p| - 1] == p2[k];
      assert l[..|l| - 1] == l1 + l2[..k] && l[|l| - 1] == l2[k];
      TallyAppend(p1, l1, p2[..k], l2[..k]);
      assert Tally(p, l) == Plus(Tally(p1 + p2[..k], l1 + l2[..k]), SampleCounters(p2[k], l2[k]));
    }
  }

  /** One more batch adds its loss and its counters to those of the batches before it. */
  lemma PhaseStep(batches: seq<Batch>, k: nat)
    requires WellShaped(batches) && k < |batches|
    ensures WellShaped(batches[..k]) && WellShaped(batches[..k + 1])
    ensures PhaseLoss(batches[..k + 1]) == PhaseLoss(batches[..k]) + batches[k].loss
    ensures PhaseTally(batches[..k + 1]) == Plus(PhaseTally(batches[..k]), Tally(batches[k].preds, batches[k].labels))
  {
    assert batches[..k + 1][..k] == batches[..k];
  }

  /** How the phase is cut into batches does not matter: the totals are those of all its samples. */
  lemma {:induction false} PhaseTallyIsSampleTally(batches: seq<Batch>)
    requires WellShaped(batches)
    ensures |AllPreds(batches)| == |AllLabels(batches)|
    ensures PhaseTally(batches) == Tally(AllPreds(batches), AllLabels(batches))
  {
    AllSameLength(batches);
    if batches != [] {
      var k := |batches| - 1;
      PhaseTallyIsSampleTally(batches[..k]);
      AllSameLength(batches[..k]);
      TallyAppend(AllPreds(batches[..k]), AllLabels(batches[..k]), batches[k].preds, batches[k].labels);
    }
  }

  /** An exact hit is within one; within-one hits are at most the samples; |d| <= d*d for integers. */
  lemma {:induction false} TallyBounds(preds: seq<int>, labels: seq<int>)
    requires |preds| == |labels|
    ensures Tally(preds, labels).corrects <= Tally(preds, labels).within1 <= |preds|
    ensures Tally(preds, labels).absErr <= Tally(preds, labels).sqErr
  {
    if preds != [] {
      var k := |preds| - 1;
      TallyBounds(preds[..k], labels[..k]);
      var d := preds[k] - labels[k];
      assert Abs(d) <= d * d by {
        if d != 0 { assert Abs(d) * 1 <= Abs(d) * Abs(d); }
      }
    }
  }

  /**
   * The statistics of one phase as the loop intends them: reset
   * running_loss, running_corrects, running_cir1, running_mse and
   * running_mae, then add each batch's sums.
   */
  method AccumulatePhase(batches: seq<Batch>) returns (runningLoss: real, c: Counters)
    requires WellShaped(batches)
    ensures runningLoss == PhaseLoss(batches)
    ensures |AllPreds(batches)| == |AllLabels(batches)|
    ensures c == Tally(AllPreds(batches), AllLabels(batches))
    ensures c.corrects <= c.within1 <= |AllPreds(batches)| && c.absErr <= c.sqErr
  {
    runningLoss := 0.0;
    var runningCorrects: nat, runningCir1: nat, runningMse: nat, runningMae: nat := 0, 0, 0, 0;
    var k := 0;
    while k < |batches|
      invariant 0 <= k <= |batches|
      invariant runningLoss == PhaseLoss(batches[..k])
      invariant Counters(runningCorrects, runningCir1, runningMse, runningMae) == PhaseTally(batches[..k])
    {
      var b := batches[k];
      var t := Tally(b.preds, b.labels);
      PhaseStep(batches, k);
      ghost var before := Counters(runningCorrects, runningCir1, runningMse, runningMae);
      runningLoss := runningLoss + b.loss;
      runningCir1 := runningCir1 + t.within1;
      runningCorrects := runningCorrects + t.corrects;
      runningMse := runningMse + t.sqErr;
      runningMae := runningMae + t.absErr;
      assert Counters(runningCorrects, runningCir1, runningMse, runningMae) == Plus(before, t);
      k := k + 1;
    }
    assert batches[..|batches|] == batches;
    c := Counters(runningCorrects, runningCir1, runningMse, runningMae);
    PhaseTotals(batches);
  }

  /** The phase's totals are its samples' tally, with the tally's bounds. */
  lemma PhaseTotals(batches: seq<Batch>)
    requires WellShaped(batches)
    ensures |AllPreds(batches)| == |AllLabels(batches)|
    ensures var c := PhaseTally(batches);
      c == Tally(AllPreds(batches), AllLabels(batches))
      && c.corrects <= c.within1 <= |AllPreds(batches)| && c.absErr <= c.sqErr
  {
    PhaseTallyIsSampleTally(batches);
    TallyBounds(AllPreds(batches), AllLabels(batches));
  }

  /** What a phase of the batch loop can raise, with the index of the batch that raises it. */
  datatype PhaseError =
    | TargetShape(batch: nat)     // ValueError: a target window does not fit its slice
    | ZeroBatchSize(batch: nat)   // ZeroDivisionError: the diagnostic divides by batch_count * batch_size
    | AVecUnbound(batch: nat)     // UnboundLocalError: the diagnostic prints a_vec, set only with regression
    | LossNotTensor(batch: nat)   // AttributeError: no loss term, so loss is the float 0.0

  /** np.mod(batch_count, num_log) == 0, with numpy's remainder 0 for a zero divisor. */
  predicate LogBatch(batchCount: nat, numLog: int) {
    numLog == 0 || batchCount % numLog == 0
  }

  /**
   * What batch k (from 0) of a classification phase raises. Its loss terms
   * build their target windows first; then a training batch counts itself
   * and, when the count is a multiple of num_log, runs the diagnostic; then
   * loss.backward() (training) or loss.data[0] (validation) needs a loss term.
   * Without a loss term no target is built.
   */
  function BatchFault(train: bool, numLog: int, batchSize: nat, hasLoss: bool, fits: bool, k: nat): Option<PhaseError> {
    if hasLoss && !fits then Some(TargetShape(k))
    else if train && LogBatch(k + 1, numLog) then
      Some(if batchSize == 0 then ZeroBatchSize(k) else AVecUnbound(k))
    else if !hasLoss then Some(LossNotTensor(k))
    else None
  }

  /** Which error each batch raises, by the conditions that cause it, and that it names the batch. */
  lemma BatchFaultKinds(train: bool, numLog: int, batchSize: nat, hasLoss: bool, fits: bool, k: nat)
    ensures var e := BatchFault(train, numLog, batchSize, hasLoss, fits, k);
      (e == Some(TargetShape(k)) <==> hasLoss && !fits)
      && (e == Some(ZeroBatchSize(k)) <==> (hasLoss ==> fits) && train && LogBatch(k + 1, numLog) && batchSize == 0)
      && (e == Some(AVecUnbound(k)) <==> (hasLoss ==> fits) && train && LogBatch(k + 1, numLog) && batchSize > 0)
      && (e == Some(LossNotTensor(k)) <==> !hasLoss && !(train && LogBatch(k + 1, numLog)))
      && (e.None? <==> hasLoss && fits && !(train && LogBatch(k + 1, numLog)))
      && (e.Some? ==> e.value.batch == k)
  {
  }

  /** The error of the first of the first n batches that raises, if any. */
  function FirstFault(batches: seq<Batch>, n: nat, train: bool, numLog: int, batchSize: nat, hasLoss: bool): (e: Option<PhaseError>)
    requires n <= |batches|
    ensures e.Some? ==> e.value.batch < n
  {
    if n == 0 then None
    else
      var prev := FirstFault(batches, n - 1, train, numLog, batchSize, hasLoss);
      if prev.Some? then prev else BatchFault(train, numLog, batchSize, hasLoss, batches[n - 1].targetsFit, n - 1)
  }

  /** FirstFault is the fault of the first batch that raises, every earlier batch raising nothing. */
  lemma {:induction false} FirstFaultIsFirst(batches: seq<Batch>, n: nat, train: bool, numLog: int, batchSize: nat, hasLoss: bool)
    requires n <= |batches|
    ensures var e := FirstFault(batches, n, train, numLog, batchSize, hasLoss);
      e.None? <==> forall k | 0 <= k < n :: BatchFault(train, numLog, batchSize, hasLoss, batches[k].targetsFit, k).None?
    ensures var e := FirstFault(batches, n, train, numLog, batchSize, hasLoss);
      e.Some? ==>
      var j := e.value.batch;
      BatchFault(train, numLog, batchSize, hasLoss, batches[j].targetsFit, j) == e
      && forall k | 0 <= k < j :: BatchFault(train, numLog, batchSize, hasLoss, batches[k].targetsFit, k).None?
  {
    if n > 0 { FirstFaultIsFirst(batches, n - 1, train, numLog, batchSize, hasLoss); }
  }

  /**
   * The steps of batch k of a phase that can raise, in the loop's order: the
   * target windows of the loss terms, then, in training, counting the batch
   * and the diagnostic every num_log batches, then the loss tensor that
   * loss.backward() or loss.data[0] needs.
   */
  method CheckBatch(train: bool, numLog: int, batchSize: nat, hasLoss: bool, fits: bool, k: nat)
    returns (fault: Option<PhaseError>)
    ensures fault == BatchFault(train, numLog, batchSize, hasLoss, fits, k)
  {
    // the softened and multi-label targets
    if hasLoss && !fits {
      return Some(TargetShape(k));
    }
    if train {
      // batch_count counts the training batches: k before this one
      var batchCount := k + 1;
      if LogBatch(batchCount, numLog) {
        if batchSize == 0 {
          return Some(ZeroBatchSize(k));
        }
        return Some(AVecUnbound(k));
      }
    }
    if !hasLoss {
      return Some(LossNotTensor(k));
    }
    fault := None;
  }

  /**
   * One phase of the classification branch as the loop is written: each
   * batch either raises one of the errors above, which ends the phase and
   * discards the running sums, or adds its sums to them.
   */
  method RunPhase(batches: seq<Batch>, train: bool, numLog: int, batchSize: nat, hasLoss: bool)
    returns (r: Result<(real, Counters), PhaseError>)
    requires WellShaped(batches)
    ensures r.Err? ==> FirstFault(batches, |batches|, train, numLog, batchSize, hasLoss) == Some(r.error)
    ensures r.Ok? <==> FirstFault(batches, |batches|, train, numLog, batchSize, hasLoss).None?
    ensures r.Ok? ==>
      |AllPreds(batches)| == |AllLabels(batches)|
      && r.value.0 == PhaseLoss(batches) && r.value.1 == Tally(AllPreds(batches), AllLabels(batches))
  {
    var runningLoss := 0.0;
    var runningCorrects: nat, runningCir1: nat, runningMse: nat, runningMae: nat := 0, 0, 0, 0;
    var k := 0;
    while k < |batches|
      invariant 0 <= k <= |batches|
      invariant FirstFault(batches, k, train, numLog, batchSize, hasLoss).None?
      invariant runningLoss == PhaseLoss(batches[..k])
      invariant Counters(runningCorrects, runningCir1, runningMse, runningMae) == PhaseTally(batches[..k])
    {
      var b := batches[k];
      var fault := CheckBatch(train, numLog, batchSize, hasLoss, b.targetsFit, k);
      FaultStep(batches, k, train, numLog, batchSize, hasLoss);
      if fault.Some? {
        return Err(fault.value);
      }
      // statistics
      var t := Tally(b.preds, b.labels);
      PhaseStep(batches, k);
      ghost var before := Counters(runningCorrects, runningCir1, runningMse, runningMae);
      runningLoss := runningLoss + b.loss;
      runningCir1 := runningCir1 + t.within1;
      runningCorrects := runningCorrects + t.corrects;
      runningMse := runningMse + t.sqErr;
      runningMae := runningMae + t.absErr;
      assert Counters(runningCorrects, runningCir1, runningMse, runningMae) == Plus(before, t);
      k := k + 1;
    }
    assert batches[..|batches|] == batches;
    PhaseTallyIsSampleTally(batches);
    r := Ok((runningLoss, Counters(runningCorrects, runningCir1, runningMse, runningMae)));
  }

  /** The batch after a fault-free prefix decides: its fault is the phase's, or the prefix grows by one. */
  lemma FaultStep(batches: seq<Batch>, k: nat, train: bool, numLog: int, batchSize: nat, hasLoss: bool)
    requires k < |batches| && FirstFault(batches, k, train, numLog, batchSize, hasLoss).None?
    ensures var e := BatchFault(train, numLog, batchSize, hasLoss, batches[k].targetsFit, k);
      (e.Some? ==> FirstFault(batches, |batches|, train, numLog, batchSize, hasLoss) == e)
      && (e.None? ==> FirstFault(batches, k + 1, train, numLog, batchSize, hasLoss).None?)
  {
    FaultPersists(batches, k + 1, |batches|, train, numLog, batchSize, hasLoss);
  }

  /** Every batch's target windows fit. */
  predicate AllFit(batches: seq<Batch>) {
    forall k | 0 <= k < |batches| :: batches[k].targetsFit
  }

  /**
   * A training phase of the classification branch whose targets fit and
   * that reaches batch number num_log raises (num_log = 0 raises at the
   * first batch): ZeroDivisionError when batch_size is 0, UnboundLocalError
   * otherwise. With a loss term it completes exactly when it has no batch or
   * fewer than |num_log| batches.
   */
  lemma TrainingPhaseRaisesAtLog(batches: seq<Batch>, numLog: int, batchSize: nat)
    requires AllFit(batches)
    ensures var n := |batches|;
      FirstFault(batches, n, true, numLog, batchSize, true).None? <==> n == 0 || (numLog != 0 && n < Abs(numLog))
    ensures var n := |batches|;
      numLog != 0 && n >= Abs(numLog) ==>
      FirstFault(batches, n, true, numLog, batchSize, true)
        == Some(if batchSize == 0 then ZeroBatchSize(Abs(numLog) - 1) else AVecUnbound(Abs(numLog) - 1))
  {
    var n := |batches|;
    FirstFaultIsFirst(batches, n, true, numLog, batchSize, true);
    if numLog != 0 {
      var m := Abs(numLog);
      forall k | 0 <= k < n && k < m - 1 ensures BatchFault(true, numLog, batchSize, true, batches[k].targetsFit, k).None? {
        SmallRemainder(k + 1, numLog);
      }
      if n >= m {
        DividesSelf(m, numLog);
        assert BatchFault(true, numLog, batchSize, true, batches[m - 1].targetsFit, m - 1).Some?;
        FaultPersists(batches, m, n, true, numLog, batchSize, true);
      }
    } else if n > 0 {
      assert FirstFault(batches, 1, true, numLog, batchSize, true).Some?;
      FaultPersists(batches, 1, n, true, numLog, batchSize, true);
    }
  }

  /**
   * A validation phase never runs the diagnostic: without a loss term it
   * raises at its first batch, and with one exactly when a batch's targets
   * do not fit, at the first such batch.
   */
  lemma ValidationPhaseRaises(batches: seq<Batch>, numLog: int, batchSize: nat, hasLoss: bool)
    ensures var n := |batches|;
      FirstFault(batches, n, false, numLog, batchSize, hasLoss).None? <==> n == 0 || (hasLoss && AllFit(batches))
    ensures !hasLoss && |batches| > 0 ==>
      FirstFault(batches, |batches|, false, numLog, batchSize, hasLoss) == Some(LossNotTensor(0))
  {
    var n := |batches|;
    FirstFaultIsFirst(batches, n, false, numLog, batchSize, hasLoss);
    if !hasLoss && n > 0 {
      assert BatchFault(false, numLog, batchSize, hasLoss, batches[0].targetsFit, 0).Some?;
      FaultPersists(batches, 1, n, false, numLog, batchSize, hasLoss);
    }
  }

  /** Once a batch has raised, later batches never run: the first fault stays the first. */
  lemma {:induction false} FaultPersists(batches: seq<Batch>, n: nat, m: nat, train: bool, numLog: int, batchSize: nat, hasLoss: bool)
    requires n <= m <= |batches|
    ensures FirstFault(batches, n, train, numLog, batchSize, hasLoss).Some? ==>
      FirstFault(batches, m, train, numLog, batchSize, hasLoss) == FirstFault(batches, n, train, numLog, batchSize, hasLoss)
  {
    if n < m { FaultPersists(batches, n, m - 1, train, numLog, batchSize, hasLoss); }
  }

  lemma DividesSelf(m: nat, d: int)
    requires d != 0 && m == Abs(d)
    ensures m % d == 0
  {
    if d < 0 { assert m == -d; assert m == d * -1; }
  }

  lemma SmallRemainder(j: nat, d: int)
    requires d != 0 && 0 < j < Abs(d)
    ensures j % d != 0
  {
  }

  /** The epoch metrics before the square root of RMSE is taken. */
  datatype Metrics = Metrics(loss: real, accuracy: real, cir1: real, meanSqErr: real, mae: real)

  /** Each running sum divided by dset_sizes[phase]; a size of 0 raises ZeroDivisionError. */
  function EpochMetrics(runningLoss: real, c: Counters, size: nat): (m: Option<Metrics>)
    ensures m.Some? <==> size > 0
  {
    if size == 0 then None
    else
      var n := size as real;
      Some(Metrics(runningLoss / n, c.corrects as real / n, c.within1 as real / n, c.sqErr as real / n, c.absErr as real / n))
  }

  lemma DivideMonotone(a: nat, b: nat, n: nat)
    requires a <= b && n > 0
    ensures 0.0 <= a as real / n as real <= b as real / n as real
  {
  }

  /**
   * When the phase really saw dset_sizes[phase] samples, accuracy and CIR-1
   * are rates in [0, 1] with accuracy <= CIR-1, and 0 <= MAE <= mean squared error.
   */
  lemma MetricsAreRates(batches: seq<Batch>, size: nat)
    requires WellShaped(batches) && size == |AllPreds(batches)| && size > 0
    ensures
      var m := EpochMetrics(PhaseLoss(batches), PhaseTally(batches), size).value;
      0.0 <= m.accuracy <= m.cir1 <= 1.0 && 0.0 <= m.mae <= m.meanSqErr
  {
    PhaseTallyIsSampleTally(batches);
    TallyBounds(AllPreds(batches), AllLabels(batches));
    CountersGiveRates(PhaseLoss(batches), PhaseTally(batches), size);
  }

  /** Dividing counters that satisfy TallyBounds by the sample count gives ordered rates. */
  lemma CountersGiveRates(runningLoss: real, c: Counters, size: nat)
    requires size > 0 && c.corrects <= c.within1 <= size && c.absErr <= c.sqErr
    ensures
      var m := EpochMetrics(runningLoss, c, size).value;
      0.0 <= m.accuracy <= m.cir1 <= 1.0 && 0.0 <= m.mae <= m.meanSqErr
  {
    var m := EpochMetrics(runningLoss, c, size).value;
    var n := size as real;
    assert m.accuracy == c.corrects as real / n && m.cir1 == c.within1 as real / n;
    assert m.mae == c.absErr as real / n && m.meanSqErr == c.sqErr as real / n;
    DivideMonotone(c.corrects, c.within1, size);
    DivideMonotone(c.within1, size, size);
    DivideMonotone(c.absErr, c.sqErr, size);
    assert n / n == 1.0;
  }
}

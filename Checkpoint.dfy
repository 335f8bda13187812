/**
 * Best and last model tracking. train_model keeps best_rmse (starting at
 * 100.0), best_model and last_model: after every phase last_model becomes a
 * deep copy of the model, and after a validation phase whose RMSE is
 * strictly below best_rmse, best_rmse and best_model take that phase's
 * values. train_model_balanced keeps best_cir1 (starting at 0.0) and
 * best_model, replaced when the validation CIR-1 is strictly above best_cir1.
 *
 * Models are opaque values of type M. Before any copy is taken, best_model
 * and last_model are the model object itself (an alias, no copy), which the
 * model calls LiveModel: returned unchanged, it is the model in its final
 * trained state.
 */
module Checkpoint {
  import opened Wrappers

  datatype Snapshot<M> = LiveModel | Copy(model: M)

  /** A model state with the score its phase reached. */
  datatype Scored<M> = Scored(score: real, model: M)

  datatype Direction = Minimise | Maximise

  /** x strictly improves on y. */
  predicate Better(d: Direction, x: real, y: real) {
    if d == Minimise then x < y else x > y
  }

  datatype Leader<M> = Leader(score: real, best: Snapshot<M>)

  /** The tracker after the given scored phases, starting from the sentinel score. */
  function Lead<M>(d: Direction, sentinel: real, hist: seq<Scored<M>>): Leader<M> {
    if hist == [] then Leader(sentinel, LiveModel)
    else
      var prev := Lead(d, sentinel, hist[..|hist| - 1]);
      var x := hist[|hist| - 1];
      if Better(d, x.score, prev.score) then Leader(x.score, Copy(x.model)) else prev
  }

  /**
   * The tracker holds the best of the sentinel and every score so far: none
   * is strictly better. It holds the live model exactly when no score beat
   * the sentinel, and otherwise the copy taken at the first phase that
   * reached the best score, every earlier phase being strictly worse.
   */
  lemma {:induction false} LeadIsFirstBest<M>(d: Direction, sentinel: real, hist: seq<Scored<M>>)
    ensures
      var L := Lead(d, sentinel, hist);
      !Better(d, sentinel, L.score)
      && (forall j | 0 <= j < |hist| :: !Better(d, hist[j].score, L.score))
      && (L.best == LiveModel <==> L.score == sentinel)
      && (L.best.Copy? ==> exists j | 0 <= j < |hist| ::
            hist[j] == Scored(L.score, L.best.model)
            && forall i | 0 <= i < j :: Better(d, L.score, hist[i].score))
  {
    if hist != [] {
      var k := |hist| - 1;
      var prev := Lead(d, sentinel, hist[..k]);
      LeadIsFirstBest(d, sentinel, hist[..k]);
      assert forall j | 0 <= j < k :: hist[..k][j] == hist[j];
      if Better(d, hist[k].score, prev.score) {
        assert forall i | 0 <= i < k :: Better(d, hist[k].score, hist[i].score);
      } else if prev.best.Copy? {
        var j :| 0 <= j < k && hist[..k][j] == Scored(prev.score, prev.best.model)
          && forall i | 0 <= i < j :: Better(d, prev.score, hist[..k][i].score);
        assert hist[j] == Scored(prev.score, prev.best.model);
      }
    }
  }

  /** The tracked score never gets worse as phases go by: for RMSE it is non-increasing, for CIR-1 non-decreasing. */
  lemma {:induction false} LeadMonotone<M>(d: Direction, sentinel: real, hist: seq<Scored<M>>, i: nat, j: nat)
    requires i <= j <= |hist|
    ensures !Better(d, Lead(d, sentinel, hist[..i]).score, Lead(d, sentinel, hist[..j]).score)
  {
    if i < j {
      LeadMonotone(d, sentinel, hist, i, j - 1);
      assert hist[..j][..j - 1] == hist[..j - 1];
    }
  }

  /** What one phase of train_model leaves behind: its RMSE and the model after it. */
  datatype PhaseOutcome<M> = PhaseOutcome(rmse: real, model: M)

  datatype EpochOutcome<M> = EpochOutcome(train: PhaseOutcome<M>, val: PhaseOutcome<M>)

  /** The validation RMSEs and models, epoch by epoch. */
  function ValScores<M>(epochs: seq<EpochOutcome<M>>): (s: seq<Scored<M>>)
    ensures |s| == |epochs|
  {
    seq(|epochs|, i requires 0 <= i < |epochs| => Scored(epochs[i].val.rmse, epochs[i].val.model))
  }

  /**
   * The best/last bookkeeping of train_model over its epoch loop and its
   * train-then-val phase loop. Only validation RMSEs take part in the best
   * choice; the last model is the copy taken after the final phase.
   */
  method TrainModelCheckpoints<M>(epochs: seq<EpochOutcome<M>>)
    returns (bestModel: Snapshot<M>, bestRmse: real, lastModel: Snapshot<M>)
    ensures Leader(bestRmse, bestModel) == Lead(Minimise, 100.0, ValScores(epochs))
    ensures lastModel == if epochs == [] then LiveModel else Copy(epochs[|epochs| - 1].val.model)
  {
    lastModel := LiveModel;
    bestModel := LiveModel;
    bestRmse := 100.0;
    var k := 0;
    while k < |epochs|
      invariant 0 <= k <= |epochs|
      invariant Leader(bestRmse, bestModel) == Lead(Minimise, 100.0, ValScores(epochs)[..k])
      invariant lastModel == if k == 0 then LiveModel else Copy(epochs[k - 1].val.model)
    {
      assert ValScores(epochs)[..k + 1][..k] == ValScores(epochs)[..k];
      // phase 'train': the model is copied as last; the best is not considered
      var outcome := epochs[k].train;
      lastModel := Copy(outcome.model);
      // phase 'val'
      outcome := epochs[k].val;
      lastModel := Copy(outcome.model);
      if outcome.rmse < bestRmse {
        bestRmse := outcome.rmse;
        bestModel := Copy(outcome.model);
      }
      k := k + 1;
    }
    assert ValScores(epochs)[..|epochs|] == ValScores(epochs);
  }

  /**
   * best_rmse as train_model reports it: at most 100.0 and at most every
   * validation RMSE, and equal to 100.0 or to one of them.
   */
  lemma BestRmseIsMinimum<M>(epochs: seq<EpochOutcome<M>>)
    ensures
      var L := Lead(Minimise, 100.0, ValScores(epochs));
      L.score <= 100.0 && (forall j | 0 <= j < |epochs| :: L.score <= epochs[j].val.rmse)
      && (L.score == 100.0 || exists j | 0 <= j < |epochs| :: L.score == epochs[j].val.rmse)
  {
    var L := Lead(Minimise, 100.0, ValScores(epochs));
    LeadIsFirstBest(Minimise, 100.0, ValScores(epochs));
    assert forall j | 0 <= j < |epochs| :: ValScores(epochs)[j].score == epochs[j].val.rmse;
    if L.best.Copy? {
      var j :| 0 <= j < |epochs| && ValScores(epochs)[j] == Scored(L.score, L.best.model)
        && forall i | 0 <= i < j :: Better(Minimise, L.score, ValScores(epochs)[i].score);
      assert L.score == epochs[j].val.rmse;
    }
  }

  /**
   * What one epoch of train_model_balanced brings to the tracker: whether
   * every training and every validation batch it runs builds its targets
   * (false only for the .5/1/.5 rows of a label >= 9), and its validation
   * CIR-1 with the model after it.
   */
  datatype BalancedEpoch<M> = BalancedEpoch(trainTargets: bool, valTargets: bool, val: Scored<M>)

  /** The validation CIR-1 values and models, epoch by epoch. */
  function Cir1s<M>(epochs: seq<BalancedEpoch<M>>): (s: seq<Scored<M>>)
    ensures |s| == |epochs|
  {
    seq(|epochs|, i requires 0 <= i < |epochs| => epochs[i].val)
  }

  /** What train_model_balanced raises around its tracker, with the epoch that raises it. */
  datatype BalancedError =
    | NoEpochs                          // UnboundLocalError: `del inputs` after an empty epoch loop
    | ScheduleZeroPeriod(epoch: nat)    // ZeroDivisionError: exp_lr_scheduler computes epoch // 0
    | TargetIndex(epoch: nat)           // IndexError: a .5/1/.5 target row written past the 11 slots
    | ZeroDivision(epoch: nat)          // ZeroDivisionError: an average over no training or no validation samples
    | TrainLossUnbound(epoch: nat)      // UnboundLocalError: the improving epoch logs epoch_loss_tr, never set when num_test == 0

  /**
   * An epoch divides by num_train * batch_size after each of its num_test
   * training rounds, and by dset_sizes['val'] after validation.
   */
  predicate DividesByZero(numTest: nat, numTrain: nat, batchSize: nat, valSize: nat) {
    (numTest > 0 && (numTrain == 0 || batchSize == 0)) || valSize == 0
  }

  /** The training rounds of an epoch get through: there are none, or they have batches whose targets build and a divisor. */
  predicate TrainPasses<M>(ep: BalancedEpoch<M>, numTest: nat, numTrain: nat, batchSize: nat) {
    numTest == 0 || (numTrain > 0 && ep.trainTargets && batchSize > 0)
  }

  /**
   * What epoch k raises, given that no earlier epoch raised. `decay` is the
   * lr_decay_epoch given to exp_lr_scheduler, or None without a scheduler.
   * In order: the schedule; the training rounds (with num_train = 0 the
   * first round divides by zero before any batch; otherwise a batch's
   * targets may fail before the round's average divides by num_train *
   * batch_size); the validation batches' targets and their average; and the
   * best-CIR-1 update, which with num_test = 0 reads the unset
   * epoch_loss_tr as soon as a CIR-1 beats best_cir1, still 0.0 then.
   */
  function EpochFault<M>(ep: BalancedEpoch<M>, k: nat, decay: Option<int>,
                         numTest: nat, numTrain: nat, batchSize: nat, valSize: nat): Option<BalancedError>
  {
    if decay == Some(0) then Some(ScheduleZeroPeriod(k))
    else if numTest > 0 && numTrain == 0 then Some(ZeroDivision(k))
    else if numTest > 0 && !ep.trainTargets then Some(TargetIndex(k))
    else if numTest > 0 && batchSize == 0 then Some(ZeroDivision(k))
    else if !ep.valTargets then Some(TargetIndex(k))
    else if valSize == 0 then Some(ZeroDivision(k))
    else if numTest == 0 && ep.val.score > 0.0 then Some(TrainLossUnbound(k))
    else None
  }

  /** Which error an epoch raises, by the conditions that cause it, and that it names the epoch. */
  lemma EpochFaultKinds<M>(ep: BalancedEpoch<M>, k: nat, decay: Option<int>,
                           numTest: nat, numTrain: nat, batchSize: nat, valSize: nat)
    ensures var e := EpochFault(ep, k, decay, numTest, numTrain, batchSize, valSize);
      var pass := TrainPasses(ep, numTest, numTrain, batchSize);
      (e == Some(ScheduleZeroPeriod(k)) <==> decay == Some(0))
      && (e == Some(TargetIndex(k)) <==>
            decay != Some(0) && ((numTest > 0 && numTrain > 0 && !ep.trainTargets) || (pass && !ep.valTargets)))
      && (e == Some(ZeroDivision(k)) <==>
            decay != Some(0)
            && ((numTest > 0 && (numTrain == 0 || (ep.trainTargets && batchSize == 0))) || (pass && ep.valTargets && valSize == 0)))
      && (e == Some(TrainLossUnbound(k)) <==>
            decay != Some(0) && numTest == 0 && ep.valTargets && valSize > 0 && ep.val.score > 0.0)
      && (e.None? <==>
            decay != Some(0) && pass && ep.valTargets && valSize > 0 && (numTest > 0 || ep.val.score <= 0.0))
      && (e.Some? ==> !e.value.NoEpochs? && e.value.epoch == k)
  {
  }

  /**
   * The best-CIR-1 bookkeeping of train_model_balanced: one record per
   * epoch. The run raises at the first epoch that raises anything; with no
   * epoch at all the final `del inputs` raises; otherwise best_cir1 and
   * best_model are the tracker over the validation CIR-1 values. Errors
   * that do not depend on the epoch's batches can only come from the first.
   */
  method BalancedCheckpoints<M>(epochs: seq<BalancedEpoch<M>>, decay: Option<int>,
                                numTest: nat, numTrain: nat, batchSize: nat, valSize: nat)
    returns (r: Result<(Snapshot<M>, real), BalancedError>)
    ensures r.Err? && r.error.NoEpochs? <==> epochs == []
    ensures r.Err? && !r.error.NoEpochs? ==>
      var e := r.error.epoch;
      e < |epochs| && EpochFault(epochs[e], e, decay, numTest, numTrain, batchSize, valSize) == Some(r.error)
      && forall j | 0 <= j < e :: EpochFault(epochs[j], j, decay, numTest, numTrain, batchSize, valSize).None?
    ensures r.Err? && (r.error.ScheduleZeroPeriod? || r.error.ZeroDivision?) ==> r.error.epoch == 0
    ensures r.Ok? <==>
      epochs != [] && forall j | 0 <= j < |epochs| :: EpochFault(epochs[j], j, decay, numTest, numTrain, batchSize, valSize).None?
    ensures r.Ok? ==> Leader(r.value.1, r.value.0) == Lead(Maximise, 0.0, Cir1s(epochs))
  {
    var bestModel: Snapshot<M> := LiveModel;
    var bestCir1 := 0.0;
    var k := 0;
    while k < |epochs|
      invariant 0 <= k <= |epochs|
      invariant forall j | 0 <= j < k :: EpochFault(epochs[j], j, decay, numTest, numTrain, batchSize, valSize).None?
      invariant k > 0 ==> decay != Some(0) && !DividesByZero(numTest, numTrain, batchSize, valSize)
      invariant Leader(bestCir1, bestModel) == Lead(Maximise, 0.0, Cir1s(epochs)[..k])
      invariant numTest == 0 ==> bestCir1 == 0.0
    {
      assert Cir1s(epochs)[..k + 1][..k] == Cir1s(epochs)[..k];
      var ep := epochs[k];
      // lr_scheduler(optimizer, epoch, ...): exp_lr_scheduler divides by lr_decay_epoch
      if decay == Some(0) {
        return Err(ScheduleZeroPeriod(k));
      }
      // training rounds: each draws num_train batches, then divides by num_train * batch_size
      if numTest > 0 {
        if numTrain == 0 {
          return Err(ZeroDivision(k));
        }
        if !ep.trainTargets {
          return Err(TargetIndex(k));
        }
        if batchSize == 0 {
          return Err(ZeroDivision(k));
        }
      }
      // validation: every batch builds its targets, then epoch_loss = running_loss / dset_sizes['val']
      if !ep.valTargets {
        return Err(TargetIndex(k));
      }
      if valSize == 0 {
        return Err(ZeroDivision(k));
      }
      var epochCir1 := ep.val.score;
      if epochCir1 > bestCir1 {
        if numTest == 0 {
          return Err(TrainLossUnbound(k));
        }
        bestCir1 := epochCir1;
        bestModel := Copy(ep.val.model);
      }
      k := k + 1;
    }
    assert Cir1s(epochs)[..|epochs|] == Cir1s(epochs);
    if |epochs| == 0 {
      return Err(NoEpochs);
    }
    r := Ok((bestModel, bestCir1));
  }

  /** Every epoch's training and validation batches build their targets. */
  predicate TargetsFit<M>(epochs: seq<BalancedEpoch<M>>) {
    forall j | 0 <= j < |epochs| :: epochs[j].trainTargets && epochs[j].valTargets
  }

  /**
   * Without a raising schedule or target, the first epoch divides by zero
   * exactly when an average has no samples, and the run completes exactly
   * when no average divides by zero and, without training rounds, no CIR-1
   * beats 0.0. With a zero period the first epoch raises in the schedule.
   */
  lemma BalancedRunRaises<M>(epochs: seq<BalancedEpoch<M>>, decay: Option<int>,
                             numTest: nat, numTrain: nat, batchSize: nat, valSize: nat)
    requires epochs != []
    ensures decay == Some(0) ==>
      EpochFault(epochs[0], 0, decay, numTest, numTrain, batchSize, valSize) == Some(ScheduleZeroPeriod(0))
    ensures decay != Some(0) && TargetsFit(epochs) ==>
      (EpochFault(epochs[0], 0, decay, numTest, numTrain, batchSize, valSize) == Some(ZeroDivision(0))
       <==> DividesByZero(numTest, numTrain, batchSize, valSize))
    ensures decay != Some(0) && TargetsFit(epochs) ==>
      ((forall j | 0 <= j < |epochs| :: EpochFault(epochs[j], j, decay, numTest, numTrain, batchSize, valSize).None?)
       <==> !DividesByZero(numTest, numTrain, batchSize, valSize)
            && (numTest > 0 || forall j | 0 <= j < |epochs| :: epochs[j].val.score <= 0.0))
  {
  }
}

# Bookkeeping of the fine-tuning loops, verified in Dafny

The training module `functions/fine_tune.py` trains an ordinal image
classifier (the number of items in a storage bin) with a deep-learning
framework. This model keeps only the framework-independent bookkeeping of
that module and proves what it computes:

- **Balanced-class weights** (`BalancedWeights`): `make_weights_for_balanced_classes`
  counts the labels per class, gives each class the weight N / count[c], and
  gives each sample its class's weight. Labels index Python lists, so negative
  labels count from the end and out-of-range labels raise `IndexError`. An
  empty class raises `ZeroDivisionError`. Both errors are modelled. The main
  property is that every class's samples carry the same total weight N.
- **Soft and multi-label targets** (`LabelWindow`): a coefficient list is
  written into a zero vector padded by `extend` on each side, starting at
  offset `label`, and the padding is cut off again. The KL branch divides the
  row by its sum when `extend != 0`; the multi-label branch never does.
  Slice assignment follows numpy's rules (clipping, broadcasting a single
  value, `ValueError` on a length mismatch). The fixed 11-slot variant of
  `train_model_balanced` is modelled too.
- **Algorithm tags** (`AlgoTag`): the `algo` argument of `train_model` is
  resolved into the flags KL, regression, learn_a and the two loss weights.
  The model also gives the loss branch those flags select and the ordinal
  position vector `a_vec` of the regression branch.
- **Running statistics** (`RunningStats`): the per-phase accumulators of the
  classification branch (loss sum, exact hits, hits within one class,
  squared-error and absolute-error sums) and the epoch averages. A phase
  stops at the first batch that raises: a target window that does not fit
  its slice raises ValueError, the diagnostic every `num_log`
  training batches prints `a_vec`, which the classification branch never
  sets, and a batch without any loss term has no tensor to back-propagate.
- **Best and last model** (`Checkpoint`): `best_rmse` starts at 100.0 and
  improves only on a strictly lower validation RMSE; `last_model` is copied
  after every phase. `train_model_balanced` tracks `best_cir1` from 0.0 with
  a strict `>`; it raises when it has no epoch, when `exp_lr_scheduler` is
  given a period of 0, when a .5/1/.5 target row is built for a label of 9
  or more, when an average is taken over no samples, and when an improving
  epoch logs training averages that `num_test = 0` never computed.
- **Step learning-rate schedule** (`LrSchedule`): `exp_lr_scheduler` writes
  `init_lr * 0.1 ** (epoch // lr_decay_epoch)` into every parameter group.

The inputs that come from outside are parameters of the model. These are
the arg-max predictions and labels of each batch, the batch losses, the
validation RMSE or CIR-1 of each epoch, and the model states (an opaque
type `M`; a deep copy is a value).

Points where the code's behaviour is easy to misread:
- The code copies `last_model` after every phase, training phases included,
  not once per epoch.
- Only the KL branch with more than one coefficient normalises its target;
  the multi-label targets and a single-coefficient KL target are not
  normalised.
- The tags KL, softmax and sigmoid leave the `regression` flag as the caller
  passed it, so a caller asking for regression still gets the regression
  branch (`AlgoTag.TagSelectsBranch`).
- The tags are compared by value. The code compares them with `is`, which
  only works because string literals are interned.

## Model

| member | source | states |
|---|---|---|
| `BalancedWeights.ListSlot` | functions/fine_tune.py:27 | A Python index into a list of length n is accepted exactly when -n <= i < n, and selects slot i or i + n. |
| `BalancedWeights.CountClasses` | functions/fine_tune.py:25-27 | The histogram holds, for every class, the number of samples whose label selects it. It raises IndexError at the first label out of range, and only then. |
| `BalancedWeights.CountsSumToSize` | functions/fine_tune.py:29 | When every label is valid, N = sum(count) equals the number of samples. |
| `BalancedWeights.ClassMassIsCountTimesWeight` | functions/fine_tune.py:32-34 | When every sample carries its class's weight, the samples of class c weigh count[c] times that weight in total. |
| `BalancedWeights.BalancedMass` | functions/fine_tune.py:28-34 | With weight N / count[c], the samples of every non-empty class weigh exactly N in total. |
| `BalancedWeights.ClassWeights` | functions/fine_tune.py:28-31 | Raises ZeroDivisionError at the first class with count 0, and only when some class is empty; otherwise weight_per_class[c] = N / count[c] for every class. |
| `BalancedWeights.SampleWeights` | functions/fine_tune.py:32-34 | Every sample's weight is the weight of the class its label selects, for every sample. |
| `BalancedWeights.MakeWeightsForBalancedClasses` | functions/fine_tune.py:13-35 | Returns IndexError for the first bad label; otherwise ZeroDivisionError for the first empty class; otherwise weight_per_class[c] = N / count[c] with N = len(images), weight[i] = the weight of sample i's class, and every class's total weight N. |
| `LabelWindow.Extend` | functions/fine_tune.py:176 | int((len - 1) / 2) is 0 for an empty list, and otherwise a length of 2e + 1 or 2e + 2. |
| `LabelWindow.BuildWindow` | functions/fine_tune.py:176-180 | The padded slice assignment succeeds exactly when the list has one coefficient, or an odd number with label < numOut, or none with label >= numOut. On success the row has length numOut and entry i is coeff[i - label + extend] where that index exists, and 0 elsewhere. |
| `LabelWindow.SumConcat` | functions/fine_tune.py:181 | The sum np.sum uses is additive over concatenation. |
| `LabelWindow.NormaliseSumsToOne` | functions/fine_tune.py:181 | A row divided by its non-zero sum sums to exactly 1. |
| `LabelWindow.WindowLayout` | functions/fine_tune.py:177-180 | For an odd list and an in-range label, the row is zeros, then the coefficients that land inside [0, numOut), then zeros, and the centre coefficient sits at index label. |
| `LabelWindow.WindowSum` | functions/fine_tune.py:178-181 | The row sums to the sum of exactly the coefficients that land inside [0, numOut). |
| `LabelWindow.InteriorWindow` | functions/fine_tune.py:178-180 | Away from both ends the centre coefficient lands on index label, and the row sums to the sum of all coefficients. |
| `LabelWindow.KLRowIsDistribution` | functions/fine_tune.py:179-181 | A KL target built from more than one coefficient has length numOut and sums to 1. |
| `LabelWindow.UnnormalisedRow` | functions/fine_tune.py:217-223 | Multi-label rows and single-coefficient rows are the bare window; a single coefficient lands at label with zeros elsewhere. |
| `LabelWindow.BuildTargets` | functions/fine_tune.py:174-223 | One target row per label, in order; the batch succeeds exactly when every row can be built. Otherwise the error names the first failing row and says whether the slice did not fit or a KL row summed to 0. |
| `LabelWindow.FixedTarget` | functions/fine_tune.py:385-396 | The 11-slot row with .5, 1, .5 fails (IndexError) exactly when label >= 9. The row of ones never fails. Both equal the general window with numOut = 9. |
| `LabelWindow.FixedRowMass` | functions/fine_tune.py:387-396 | The fixed rows are not normalised. For a label below 9 the label's own slot holds 1 and the row sums to 2 (.5/1/.5) or 3 (ones), one outer coefficient less at labels 0 and 8. Above 8 the mode of ones does not fail but keeps a single 1 in the last slot for label 9 and gives an all-zero row for larger labels. |
| `LabelWindow.BuildFixedTargets` | functions/fine_tune.py:385-398 | One fixed row per label; the .5/1/.5 mode fails at the first label >= 9, and the mode of ones never fails. |
| `AlgoTag.TagOf` | functions/fine_tune.py:56-76 | "KL", "softmax", "sigmoid", "learn_a" and "fix_a" name the KL, softmax, sigmoid, learn_a and fix_a tags respectively, each exactly; None and every other string name none. |
| `AlgoTag.TagNameRoundTrip` | functions/fine_tune.py:56-76 | Each listed tag is named by exactly one string: parsing a tag's name gives the tag back, and every string naming a tag is that tag's name. |
| `AlgoTag.Resolve` | functions/fine_tune.py:56-76 | A listed tag sets the loss weights to (cross, multi) = (0, 1) for sigmoid and (1, 0) otherwise. KL sets the KL flag and softmax clears it. learn_a and fix_a set regression, and set learn_a for learn_a and clear it for fix_a. An unlisted tag changes nothing. Only KL and softmax touch the KL flag, and only learn_a and fix_a touch the regression flags. |
| `AlgoTag.ResolveIdempotent` | functions/fine_tune.py:56-76 | Resolving the same tag twice gives the same flags as resolving it once. |
| `AlgoTag.LossBranch` | functions/fine_tune.py:146-227 | The batch takes the regression branch exactly when regression is set, sigmoid-bounded exactly when learn_a is set. Otherwise a cross term is added exactly when cross_loss > 0 (KL divergence exactly when KL is set), and a multi-label term exactly when multi_loss > 0. When neither is added, loss stays the float 0.0 and the batch raises (None). |
| `AlgoTag.TagSelectsBranch` | functions/fine_tune.py:56-172 | learn_a and fix_a always select regression (sigmoid-bounded for learn_a). KL, softmax and sigmoid select KL-only, cross-entropy-only and multi-label-only classification unless the caller set regression. |
| `AlgoTag.OrdinalPositions` | functions/fine_tune.py:86-100 | a_vec is absent without regression, learned with learn_a, and otherwise the fixed vector 0, 1, ..., numOut - 1. |
| `AlgoTag.FixAUsesClassPositions` | functions/fine_tune.py:72-100 | Whatever flags came in, fix_a uses the fixed class positions and learn_a a learned vector. |
| `RunningStats.TallyAppend` | functions/fine_tune.py:270-274 | The counters over two runs of samples are the sums of the counters over each run. |
| `RunningStats.PhaseTallyIsSampleTally` | functions/fine_tune.py:124-274 | The accumulated counters of a phase are the counters over all its samples, however they are batched. |
| `RunningStats.TallyBounds` | functions/fine_tune.py:271-274 | corrects <= cir1 <= samples seen, and the absolute-error sum is at most the squared-error sum. |
| `RunningStats.AccumulatePhase` | functions/fine_tune.py:118-124 | The accumulators start at 0 and end as the loss sum and the counters over all samples of the phase, with corrects <= cir1 <= samples and mae <= mse. |
| `RunningStats.BatchFaultKinds` | functions/fine_tune.py:170-258 | A classification batch raises ValueError exactly when it has a loss term whose target windows do not fit. Otherwise a training batch whose count is a multiple of num_log raises ZeroDivisionError for batch_size 0 and UnboundLocalError on a_vec otherwise. Otherwise a batch without a loss term raises AttributeError. No other batch raises, and the error names its batch. |
| `RunningStats.CheckBatch` | functions/fine_tune.py:170-258 | Runs those steps of one batch in the loop's order and returns exactly the batch's error, counting the batch in training. |
| `RunningStats.FirstFaultIsFirst` | functions/fine_tune.py:125-258 | The phase's error is that of the first batch that raises, every earlier batch raising nothing; there is none exactly when no batch raises. |
| `RunningStats.RunPhase` | functions/fine_tune.py:118-274 | A classification phase returns the first batch's error when some batch raises, and otherwise the loss sum and the counters over all its samples. |
| `RunningStats.TrainingPhaseRaisesAtLog` | functions/fine_tune.py:229-242 | A classification training phase whose targets fit and that has a loss term completes exactly when it has no batch or fewer than abs(num_log) batches. Otherwise it raises at batch number abs(num_log): ZeroDivisionError for batch_size 0, UnboundLocalError otherwise. |
| `RunningStats.ValidationPhaseRaises` | functions/fine_tune.py:170-258 | A validation phase completes exactly when it has no batch, or has a loss term and every batch's targets fit. Without a loss term it raises AttributeError at its first batch. |
| `RunningStats.FaultPersists` | functions/fine_tune.py:125-258 | Once a batch has raised, more batches do not change the phase's error. |
| `RunningStats.EpochMetrics` | functions/fine_tune.py:276-280 | The epoch averages exist exactly when dset_sizes[phase] > 0; division by a zero size raises. |
| `RunningStats.MetricsAreRates` | functions/fine_tune.py:276-280 | When the phase saw dset_sizes[phase] samples, 0 <= accuracy <= CIR-1 <= 1 and 0 <= MAE <= the mean squared error that RMSE is the root of. |
| `RunningStats.CountersGiveRates` | functions/fine_tune.py:276-280 | Any counters with corrects <= within-one <= size and absolute error <= squared error give, once divided by a non-zero size, 0 <= accuracy <= CIR-1 <= 1 and 0 <= MAE <= mean squared error. |
| `Checkpoint.LeadIsFirstBest` | functions/fine_tune.py:314-316 | No score is strictly better than the tracked one, and neither is the sentinel. The tracker holds the live model exactly when nothing beat the sentinel. Otherwise it holds the copy from the first phase that reached the best score. |
| `Checkpoint.LeadMonotone` | functions/fine_tune.py:314-315 | The tracked score never gets worse: best_rmse is non-increasing and best_cir1 non-decreasing. |
| `Checkpoint.TrainModelCheckpoints` | functions/fine_tune.py:82-316 | best_rmse and best_model are the tracker over the validation RMSEs only, starting at 100.0, with strict <. last_model is the copy taken after the last phase, or the live model when there are no epochs. |
| `Checkpoint.BestRmseIsMinimum` | functions/fine_tune.py:84 | best_rmse = min(100.0, every validation RMSE), attained by the sentinel or by one of them. |
| `Checkpoint.EpochFaultKinds` | functions/fine_tune.py:357-481 | An epoch raises ZeroDivisionError in the schedule exactly when lr_decay_epoch = 0. Otherwise it raises IndexError exactly when a training round with batches, or a validation batch after training that got through, builds a .5/1/.5 row for a label >= 9. It raises ZeroDivisionError exactly when training rounds have no batch, or batch_size = 0 after batches that built, or dset_sizes['val'] = 0 after all that got through. It raises UnboundLocalError on epoch_loss_tr exactly when num_test = 0, validation got through and the CIR-1 is above 0.0. No other epoch raises, and the error names its epoch. |
| `Checkpoint.BalancedCheckpoints` | functions/fine_tune.py:344-495 | With no epoch, `del inputs` raises. Otherwise the run raises the error of the first epoch that raises, every earlier epoch raising nothing, and it completes exactly when no epoch raises. The schedule's error and ZeroDivisionError can only come from the first epoch. On completion best_cir1 and best_model are the tracker over the validation CIR-1 values, starting at 0.0, with strict >. |
| `Checkpoint.BalancedRunRaises` | functions/fine_tune.py:357-481 | With lr_decay_epoch = 0 the first epoch raises in the schedule. When the schedule works and every target builds, the first epoch raises ZeroDivisionError exactly when num_test > 0 with num_train * batch_size = 0, or dset_sizes['val'] = 0. The run then completes exactly when neither holds and, with num_test = 0, no CIR-1 is above 0.0. |
| `LrSchedule.FloorDiv` | functions/fine_tune.py:675 | Python's // rounds toward minus infinity for either sign of the divisor. |
| `LrSchedule.ExpLrScheduler` | functions/fine_tune.py:673-683 | Every parameter group gets the same rate init_lr * 0.1 ** (epoch // lr_decay_epoch). A period of 0 raises (false) and nothing is written. |
| `LrSchedule.FloorDivMonotone` | functions/fine_tune.py:675 | For a positive period, epoch // lr_decay_epoch is non-negative and never decreases as the epoch grows. |
| `LrSchedule.LrWithinBlock` | functions/fine_tune.py:674-675 | Inside the k-th block of lr_decay_epoch epochs the rate is init_lr * 0.1^k. |
| `LrSchedule.LrDropsAtBoundary` | functions/fine_tune.py:674-675 | At each block boundary the rate drops by a factor of 10. |
| `LrSchedule.LrNonIncreasing` | functions/fine_tune.py:675 | With a positive period and a non-negative initial rate the rate never increases over the epochs. |
| `LrSchedule.LrNegativePeriodGrows` | functions/fine_tune.py:675 | With a negative period the exponent is negative from epoch 1 on, so the rate is at least ten times init_lr. |

## Left out

- The framework work: the forward pass, `loss.backward()`, the optimizer steps, `Variable` and `.cuda()`, the arg-max over outputs, softmax and sigmoid, the `a_vec` product and every loss criterion. These are floating-point computations inside library calls. Predictions, labels and batch losses enter the model as inputs.
- Floating point: every real quantity (weights, targets, rates, losses, averages) is an exact real, so float32 and float64 rounding is not modelled; in particular `0.1 ** k` is taken exactly.
- The square root that turns the mean squared error into RMSE, and the regression branch's statistics (`np.round` and the `< .3` test, lines 260-269). The RMSE values that the checkpoint tracker compares are inputs.
- What the interim diagnostics every `num_log` batches print (lines 231-243), and the rate printout (lines 677-678): output only. The errors those diagnostics raise are modelled by `RunningStats.BatchFault`.
- Spreadsheet loads, writes and saves, `writer.add_scalar`, `print` and `time.time`: output only.
- `imshow` and `visualize_model`: plotting; the latter relies on globals that the module never defines.
- `copy.deepcopy`: a snapshot is an opaque value of type M taken by copy.
- Batch sampling with `next(iter(...))`, and the whole of `train_model_both` (its real and synthetic loader plumbing and its best tracking): not part of this model. That function tracks best_cir1 on the synthetic validation set but returns `model`, not `best_model`.
- The training-phase counters of `train_model_balanced` (lines 360-420). They are reset every `opt_iter` and count only hits and hits within one, so they are the same tallies as `RunningStats.Tally` over fewer fields.
- The structural replacement of the model head, and the random start of a learned `a_vec`: these are framework calls. `AlgoTag.OrdinalPositions` only records which kind of vector is used.
- `BalancedWeights.MakeWeightsForBalancedClasses`: an image is given by its label alone (the path is never read), and `nclasses` is a natural number (Python treats a negative one like 0).
- `LabelWindow.BuildTargets`: labels are natural numbers (class indices). numpy's wrap-around for negative slice bounds is not modelled. A zero row sum in the KL branch makes numpy produce NaN or infinite entries rather than raise. The model returns `ZeroSum` for that row and cuts the batch there, so a later row's `ValueError`, which the code would raise instead, is not reported.
- `AlgoTag.OrdinalPositions`: for numOut = 0 it gives an empty vector; the framework's own behaviour of `torch.range(0, -1)` is not modelled.
- The reshape `.view(-1, numOut)` and the `FloatTensor` conversion of target rows: framework calls; a batch of targets is a sequence of rows.
- `RunningStats.RunPhase`: models the classification branch only. In the regression branch `a_vec` exists, so the diagnostic does not raise UnboundLocalError there. A zero `batch_size` raises ZeroDivisionError there only when the diagnostic runs at the first batch (abs(num_log) <= 1): after one batch the running sums are numpy scalars (lines 265-269), which numpy divides by zero into inf or NaN without raising. That branch's statistics are left out (above). In the classification branch a zero `batch_size` is taken to raise `ZeroDivisionError` because the running sums are Python numbers.
- `Checkpoint.BalancedCheckpoints`: whether an epoch's targets build is an input flag per epoch (`trainTargets`, `valTargets`), standing for `LabelWindow.BuildFixedTargets` succeeding on every batch's labels when multilabel and multi_prob are set. The link is not stated as a lemma. With num_train > 0 and batch_size = 0 the training flag covers the batches of the first round, before its average divides by zero. The scheduler is `exp_lr_scheduler` given lr_decay_epoch, or none; another callable is not modelled. The validation loader is taken to have a batch exactly when `dset_sizes['val']` > 0. A non-empty validation set with an empty loader and num_test = 0 leaves `inputs` unbound at `del inputs` even after epochs have run; this case is not modelled.
- `Checkpoint.TrainModelCheckpoints`: the bookkeeping of epochs that complete. What a phase raises is `RunningStats.RunPhase`'s, and the schedule's period-0 error (line 111) is `LrSchedule.ExpLrScheduler`'s; the run's stop at the first of them is not restated here.
- `RunningStats.BatchFaultKinds`: whether a batch's target windows fit is an input flag of each batch (`Batch.targetsFit`), standing for `LabelWindow.Fits` on each of its labels with the coefficient lists its loss terms use; the link to `LabelWindow` is not stated as a lemma.

## Findings

| source | as written | input that shows it | evidently intended | confidence | as-written member | corrected member |
|---|---|---|---|---|---|---|
| functions/fine_tune.py:242 | every num_log-th training batch runs `print(a_vec.data)`, but `a_vec` is assigned only when regression is on (lines 86-100) | a classification run (regression False) whose training phase has at least num_log batches, e.g. 100 batches with the default num_log = 100: UnboundLocalError at batch 100 | the diagnostic prints `a_vec` only with regression, and the phase tallies every batch | high; not executed | `RunningStats.RunPhase` with `RunningStats.TrainingPhaseRaisesAtLog` | `RunningStats.AccumulatePhase` |

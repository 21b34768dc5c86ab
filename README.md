# SpikeGPT trainer: training-loop control logic

This project models the control logic of SpikeGPT's training loop, `Trainer.train` and its
nested `run_epoch` in `src/trainer.py`, and proves properties of it. With PyTorch stripped
away, the loop is a small state machine with these parts:

- the token counter `tokens`, reset once before the epoch loop and advanced by each
  training batch's count of non-ignored labels when `lr_decay` is on;
- the learning-rate schedule: a linear warmup from `lr_final` to `learning_rate`, then a
  cosine decay back down. Its rate is written into every optimizer parameter group;
- the step counter `steps` and the running loss `avg_loss`, which is updated with weight
  `1 / (it + 1)`, where `it` restarts at 0 every epoch;
- the end-of-epoch checkpoint decision and the checkpoint file name
  `epoch_save_path + str(epoch + 1) + '.pth'`.

Modules:

- `Errors` holds the three exceptions of the loop that the model raises (`ZeroDivisionError`, `UnboundLocalError`, `AttributeError`) and `Result` / `Option`.
- `Config` holds the trainer configuration.
- `Decimal` models Python's `str` on non-negative integers and its inverse.
- `LrSchedule` holds the warmup and cosine multiplier, the rate of a step, and the
  properties of the schedule.
- `RunningLoss` holds the `avg_loss` update and its per-epoch mean property.
- `Checkpoint` holds the save cadence and the checkpoint paths.
- `Training` holds the trainer state and the loop as functions of that state
  (`AfterStep`, `AfterEpoch`, `AfterEpochs`), the lemmas about what a whole run computes,
  and the `Trainer` class.

`Trainer` has the fields `tokens`, `avgLoss`, `steps`, `lr` and `checkpoints`, plus the
parameter groups as an array it updates in place. `Train` holds the epoch loop, `RunEpoch`
the batch loop, and `SetParamGroupsLr` (called by `TrainStep`) the loop over the parameter
groups. `TrainStep`, `RunEpoch` and `Train` are proved equal to `AfterStep`, `AfterEpoch`
and `AfterEpochs`.

When `final_tokens <= warmup_tokens` (both default to 0), the guard `max(1, …)` makes the
decay progress the raw count of tokens past warmup. The rate then follows the cosine
through turn after turn instead of settling at `lr_final` (`DegenerateSpanProgress`). The
end-of-decay facts below need `final_tokens > warmup_tokens`.

`math.cos(math.pi * p)` is a function-valued parameter `cosPi`. The lemmas that need
its values or its bounds take them as hypotheses: `CosineLaw` gives the values at 0, 1/2
and 1 and the bound [-1, 1]; `FallsOnHalfTurn` says it does not increase on [0, 1].
Floats are modelled as reals.

Three errors are modelled as outcomes rather than excluded:

- With `lr_decay` on and `learning_rate == 0`, the division `lr_final / learning_rate`
  raises `ZeroDivisionError` after the step's tokens have been counted. That step, and
  the run, end there (`Outcome.Fail`).
- With `lr_decay` off, the progress-bar text reads `progress`, which is never assigned.
  See "## Findings".
- The log line after each epoch reads `self.lr`, which only a training step sets. A
  trainer that never stepped, given a first epoch without batches, raises
  `AttributeError` there: the run ends with nothing changed and nothing saved
  (`Outcome.Fail(AttributeError)`). Once any step has run, `lr` stays set.

A run "did not stop" when neither a step nor the log line raised (`Stopped` is false).

## Model

| member | source | states |
|---|---|---|
| Decimal.NatToString | src/trainer.py:245 | `str(n)` is a non-empty string of decimal digits with no leading zero for positive `n` |
| Decimal.ParseInvertsNatToString | src/trainer.py:245 | reading the digits of `str(n)` back gives `n` |
| Decimal.NatToStringInjective | src/trainer.py:245 | different numbers have different decimal strings |
| LrSchedule.WarmupMult | src/trainer.py:176-181 | the warmup multiplier lies between `f = lr_final / learning_rate` and 1, is `f` at 0 tokens and 1 at `warmup_tokens` |
| LrSchedule.DecayProgress | src/trainer.py:183-185 | progress is non-negative, 0 at the end of warmup, and at most 1 up to `final_tokens`; when `final_tokens > warmup_tokens` it is exactly 1 at `final_tokens` (the `max(1, …)` guard keeps the division safe) |
| LrSchedule.LrMult | src/trainer.py:175-188 | the warmup branch reports progress 0 and a multiplier between `f` and 1; progress is non-negative and at most 1 up to `final_tokens` |
| LrSchedule.ScheduledRate | src/trainer.py:172-193 | a step raises `ZeroDivisionError` exactly when decay is on with a zero learning rate; with decay off the rate is `learning_rate` and progress 0; otherwise progress is in [0, 1] up to `final_tokens` |
| LrSchedule.ReportedProgressAsWritten | src/trainer.py:172-210 | the progress text fails with `UnboundLocalError` exactly when decay is off (or the step already raised); otherwise it reports the schedule's progress |
| LrSchedule.NoDecayReportFails | src/trainer.py:192-210 | with decay off, every step's progress text fails, while the corrected schedule reports progress 0 at `learning_rate` |
| LrSchedule.CosineMultEnds | src/trainer.py:186-188 | the cosine factor is 1 where the cosine is 1, `f` where it is -1, and the mean of 1 and `f` where it is 0 |
| LrSchedule.CosineMultBetween | src/trainer.py:186-188 | the cosine multiplier lies between `f` and 1 for any progress, even past 1 |
| LrSchedule.WarmupMeetsCosine | src/trainer.py:176-188 | the warmup ramp carried to `warmup_tokens` and the cosine at its start both give multiplier 1, so the schedule is continuous there |
| LrSchedule.WarmupStartsAtFinalRate | src/trainer.py:175-189 | with warmup, a step at 0 tokens uses `lr_final` |
| LrSchedule.DecayStartsAtInitialRate | src/trainer.py:183-189 | a step at `warmup_tokens` uses `learning_rate`, with progress 0 |
| LrSchedule.DecayEndsAtFinalRate | src/trainer.py:183-189 | when `final_tokens > warmup_tokens`, a step at `final_tokens` uses `lr_final`, with progress 1 |
| LrSchedule.DecayMidpoint | src/trainer.py:183-189 | halfway through decay the rate is the mean of `learning_rate` and `lr_final` |
| LrSchedule.MultBetween | src/trainer.py:175-188 | the decay-branch multiplier lies between `f` and 1 at any token count |
| LrSchedule.ProgressNotClamped | src/trainer.py:183-185 | progress is not clamped: when `final_tokens > warmup_tokens`, past `final_tokens` it exceeds 1 |
| LrSchedule.DegenerateSpanProgress | src/trainer.py:183-189 | when `final_tokens <= warmup_tokens`, progress is the number of tokens past warmup and the rate is `learning_rate` times the cosine multiplier at that progress |
| LrSchedule.RateBetweenBounds | src/trainer.py:175-189 | with decay on, every step's rate lies between `lr_final` and `learning_rate` |
| LrSchedule.WarmupNonDecreasing | src/trainer.py:176-189 | during warmup the rate does not fall as tokens accumulate (when `lr_final <= learning_rate`) |
| LrSchedule.DecayNonIncreasing | src/trainer.py:183-189 | during decay up to `final_tokens` the rate does not rise (when `lr_final <= learning_rate` and the cosine falls on the half turn) |
| RunningLoss.AvgUpdate | src/trainer.py:203-208 | at `it = 0` the loss replaces whatever `avg_loss` held, the sentinel included; an average equal to the loss stays; non-negative values stay non-negative |
| RunningLoss.EpochAverageIsMean | src/trainer.py:152-208 | over the reals, after the steps of an epoch so far, `avg_loss` is the mean of their losses, whatever it held before |
| RunningLoss.ConstantLossIsFixed | src/trainer.py:203-208 | a constant loss keeps `avg_loss` at that constant |
| Checkpoint.ShouldSave | src/trainer.py:237-238 | the last epoch always saves; with a frequency of 0 or below only the last epoch saves; with a positive frequency epoch 0 saves, and any other saving epoch is the last or a multiple of the frequency |
| Checkpoint.SaveEpochs | src/trainer.py:217-238 | every listed epoch is below the epoch count |
| Checkpoint.SaveEpochsMembers | src/trainer.py:217-238 | an epoch saves exactly when it is in the run and the save condition holds for it |
| Checkpoint.SaveEpochsIncreasing | src/trainer.py:217-238 | the saving epochs are listed in order: strictly increasing |
| Checkpoint.FinalEpochSavesLast | src/trainer.py:237-238 | the last epoch always saves, and its save is the last one |
| Checkpoint.NoFrequencySavesOnlyFinal | src/trainer.py:237-238 | a frequency of 0 or below saves the last epoch only |
| Checkpoint.FrequencySavesFirstEpoch | src/trainer.py:237-238 | with a positive frequency, epoch 0 writes the first checkpoint |
| Checkpoint.CadenceExamples | src/trainer.py:237-238 | five epochs save epochs 0, 2 and 4 with frequency 2, and epoch 4 only with frequency 0 |
| Checkpoint.CheckpointPath | src/trainer.py:244-245 | the path is the prefix, then the digits of `epoch + 1`, then `.pth` |
| Checkpoint.CheckpointPathNamesEpoch | src/trainer.py:245 | the digits between the prefix and `.pth` read back as `epoch + 1` |
| Checkpoint.CheckpointPathInjective | src/trainer.py:245 | different epochs get different paths |
| Checkpoint.CheckpointsNeverOverwritten | src/trainer.py:237-245 | within one run no checkpoint file is written twice |
| Training.WithLr | src/trainer.py:190-191 | every parameter group gets the same rate, and nothing else in any group changes |
| Training.WithLrLastWins | src/trainer.py:190-191 | setting the rate twice leaves only the second |
| Training.StepTokens | src/trainer.py:172-174 | a step counts at most its batch's non-ignored labels, and counts none exactly when decay is off or the batch has none |
| Training.AfterStep | src/trainer.py:170-208 | a step never lowers `tokens`, writes no checkpoint and keeps the number of groups; a step that raises leaves `steps`, `lr` and the groups alone, any other adds one step and sets `lr` |
| Training.AfterEpoch | src/trainer.py:131-208 | an epoch never lowers `tokens`, writes no checkpoint and keeps the number of groups |
| Training.AfterSave | src/trainer.py:237-245 | the decision changes only `checkpoints`, appending at most one path after the old ones; the last epoch always appends its own path |
| Training.AfterEpochs | src/trainer.py:216-245 | a run never lowers `tokens` and keeps the number of groups |
| Training.StepLogAt | src/trainer.py:172-174 | entry `i` of an epoch's token log is the count after its first `i + 1` steps |
| Training.EpochCounters | src/trainer.py:152-208 | an epoch adds its counted tokens and one step per batch, folds its losses into `avg_loss`, and writes no checkpoint |
| Training.EpochRate | src/trainer.py:152-196 | after an epoch, `lr` and (with decay on) every group hold the rate of its last step; an empty epoch changes neither |
| Training.RunLrSet | src/trainer.py:216-222 | in a run that did not stop, `lr` is set after every epoch, so the log line does not fail |
| Training.RunCounters | src/trainer.py:216-220 | over a run that did not stop, `tokens` grows by every counted token and is never reset between epochs; `steps` grows by one per batch; `avg_loss` folds every epoch's losses |
| Training.TokensNeverDecrease | src/trainer.py:174-220 | in a run that did not stop, `tokens` after any prefix of the epochs is at least its start and at most its final value |
| Training.RunSaves | src/trainer.py:217-245 | a run that did not stop writes exactly the checkpoints of the save cadence, in epoch order |
| Training.RunRate | src/trainer.py:189-220 | after a run that did not stop, `lr` and (with decay on) every group hold the rate of the last step at the final token count |
| Training.EmptyRun | src/trainer.py:217-245 | when `lr` is already set, epochs without batches only make their checkpoint decisions |
| Training.RunLogFailure | src/trainer.py:216-222 | a trainer that never stepped, given an empty first epoch, ends the run on the log line with nothing changed and nothing saved |
| Training.LogLineEndsRun | src/trainer.py:216-222 | if `lr` is unset after an epoch of a run that had not stopped, that epoch is the first, it had no batches, the trainer had never stepped, and the run ends there unchanged |
| Training.FailureIsFinal | src/trainer.py:172-220 | once a step has raised, later epochs change nothing |
| Training.RunFailure | src/trainer.py:174-245 | a run with decay on and a zero learning rate, whose log line does not fail first, stops at its first batch: that batch's tokens are counted, nothing else of the step happens, and only earlier (empty) epochs saved |
| Training.NoDecayRun | src/trainer.py:172-193 | with decay off, a run counts no tokens, never touches the parameter groups, and `lr` is `learning_rate` after any step (unless the log line failed first) |
| Training.NoDecayCountsNothing | src/trainer.py:172-174 | with decay off, no epoch adds to `tokens` |
| Training.LastEpochMean | src/trainer.py:203-220 | at the end of a run, `avg_loss` is the mean loss of the last epoch |
| Training.Trainer.constructor | src/trainer.py:65-68 | a new trainer has `avg_loss` at the sentinel, no steps, no rate, no checkpoints and zero tokens |
| Training.Trainer.SetParamGroupsLr | src/trainer.py:190-191 | the loop over the parameter groups leaves them as `WithLr` of the old groups |
| Training.Trainer.TrainStep | src/trainer.py:170-208 | one iteration leaves the state `AfterStep` of the old one and fails exactly with `ZeroDivisionError` when decay is on with a zero rate; `tokens` does not decrease |
| Training.Trainer.RunEpoch | src/trainer.py:131-208 | one pass over an epoch's batches leaves the state `AfterEpoch` of the old one and fails exactly when a non-empty epoch has a zero rate under decay; the token log keeps its old entries and gains, after each step taken, the count `AfterEpoch` gives for the steps so far |
| Training.Trainer.SaveCheckpointIfDue | src/trainer.py:237-245 | records the path of epoch `epoch`'s checkpoint exactly when the cadence says so |
| Training.Trainer.Train | src/trainer.py:216-245 | resets `tokens` once and leaves the state `AfterEpochs` of the epochs; fails exactly when the run stopped: with `AttributeError` when the log line found `lr` unset, otherwise with `ZeroDivisionError`; the token log holds one entry per step taken (none when the log line failed, one when a step raised), never decreases, and ends at `tokens` |

## Left out

- The model's forward and backward passes, `functional.reset_net`, `zero_grad`, `accelerator.backward`, gradient clipping and `optimizer.step()` are collaborators. A batch arrives as its count of labels `>= 0` and the loss the model computed.
- The rate written into the parameter groups governs the next `optimizer.step()`. Only the writes are modelled, not the optimizer step that reads them.
- `get_train_dataloader` and the data collator are left out. An epoch is given as its sequence of batches. `run_epoch` always builds the train loader whatever the split.
- The eval branch and `dev_loss` are left out: their callers are commented out.
- `get_run_name` and the `TrainerConfig` `setattr` injection are left out: the configuration is a datatype.
- `accelerator.wait_for_everyone`, `unwrap_model`, the `.module` unwrapping and `torch.save` are left out. A save is recorded as the path it writes, appended to `checkpoints`.
- The `log_file` writes and the tqdm text are I/O; only the log line's read of `self.lr` is modelled. Perplexity `exp(avg_loss)` is display only.
- Floating point is left out. `math.cos` is a parameter constrained by `CosineLaw` / `FallsOnHalfTurn`; `real` stands for float.
- `tokens` is a PyTorch integer tensor in the source; its 64-bit range is not modelled. Under distributed training each process counts only its own batches; there is one process here.
- `self.tokens` is created by `train` in the source. The constructor here also sets it to 0, and `Train` resets it as the source does.
- `train_rocku.py` is a configuration script. It computes `final_tokens`, which is an input here.
- The corrected progress (see "## Findings") is built into `AfterStep`. With `lr_decay` off, the source raises `UnboundLocalError` on the progress text of the first batch, after `lr`, `steps` and `avg_loss` were updated, and the run ends there. The members below instead describe a run that goes on with progress 0:
  - Training.Trainer.TrainStep, Training.Trainer.RunEpoch and Training.Trainer.Train: they go on with progress 0 where the source raises.
  - Training.AfterStep, Training.EpochCounters and Training.EpochRate: their decay-off case is the corrected step.
  - Training.RunCounters, Training.RunSaves, Training.RunRate, Training.TokensNeverDecrease and Training.NoDecayRun: their decay-off case is the corrected run, not the one that stops at its first batch.
- Training.LastEpochMean and RunningLoss.EpochAverageIsMean: they assume non-negative losses, as a cross-entropy loss is. With a negative running value, `avg_loss < 0` would read it as unset.
- The ghost field `tokenLog` is a record of `tokens` after each step of the current run; it is there to state that the counter never decreases and which count each step leaves.

## Findings

| source | as written | input that shows it | evidently intended | confidence | as-written member | corrected member |
|---|---|---|---|---|---|---|
| src/trainer.py:210 | with `lr_decay` off, `progress` is never assigned in `run_epoch`, so the progress text raises `UnboundLocalError` on the first training batch | any configuration with `lr_decay = False` and a non-empty epoch | with decay off the reported progress is 0 and training goes on at `learning_rate` | not executed | LrSchedule.ReportedProgressAsWritten (shown by LrSchedule.NoDecayReportFails) | LrSchedule.ScheduledRate |

/** The training loop of `Trainer.train`: per-step token counting, learning-rate update
    of the optimizer's parameter groups, step counter and running loss, and the
    end-of-epoch checkpoint decision. The model, the data loader and the optimizer's own
    update are collaborators: a batch arrives as its count of non-ignored labels and the
    loss the model computed for it. */
module Training {
  import opened Errors
  import opened Config
  import opened LrSchedule
  import opened RunningLoss
  import opened Checkpoint

  /** A training batch: the number of labels `>= 0` and the model's loss on it. */
  datatype Batch = Batch(nonIgnored: nat, loss: real)

  /** An optimizer parameter group: its learning rate and its other settings. */
  datatype ParamGroup = ParamGroup(lr: real, settings: map<string, real>)

  datatype Outcome = Pass | Fail(error: Error)

  /** What the trainer holds between steps: `self.tokens`, `self.avg_loss`, `self.steps`,
      `self.lr` (unset before the first step), the optimizer's parameter groups, and the
      checkpoint files saved so far. */
  datatype TrainerState = TrainerState(
    tokens: nat,
    avgLoss: real,
    steps: nat,
    lr: Option<real>,
    groups: seq<ParamGroup>,
    checkpoints: seq<string>)

  // ----- helpers over batches and epochs -----

  /** Every group with its learning rate set to `lr` and nothing else changed. */
  function WithLr(groups: seq<ParamGroup>, lr: real): (r: seq<ParamGroup>)
    ensures |r| == |groups|
    ensures forall i :: 0 <= i < |r| ==> r[i].lr == lr && r[i].settings == groups[i].settings
  {
    seq(|groups|, i requires 0 <= i < |groups| => groups[i].(lr := lr))
  }

  /** Setting the rate twice leaves only the second rate. */
  lemma WithLrLastWins(groups: seq<ParamGroup>, a: real, b: real)
    ensures WithLr(WithLr(groups, a), b) == WithLr(groups, b)
  {
  }

  /** The losses of a run of batches. */
  function Losses(batches: seq<Batch>): (losses: seq<real>)
    ensures |losses| == |batches|
  {
    if batches == [] then []
    else Losses(batches[..|batches| - 1]) + [batches[|batches| - 1].loss]
  }

  /** What one step adds to `tokens`: its non-ignored labels with decay on, nothing otherwise. */
  function StepTokens(cfg: TrainerConfig, b: Batch): (n: nat)
    ensures n <= b.nonIgnored
    ensures n == 0 <==> !cfg.lrDecay || b.nonIgnored == 0
  {
    if cfg.lrDecay then b.nonIgnored else 0
  }

  function EpochTokens(cfg: TrainerConfig, batches: seq<Batch>): nat
  {
    if batches == [] then 0
    else EpochTokens(cfg, batches[..|batches| - 1]) + StepTokens(cfg, batches[|batches| - 1])
  }

  function RunTokens(cfg: TrainerConfig, epochs: seq<seq<Batch>>): nat
  {
    if epochs == [] then 0
    else RunTokens(cfg, epochs[..|epochs| - 1]) + EpochTokens(cfg, epochs[|epochs| - 1])
  }

  function TotalBatches(epochs: seq<seq<Batch>>): nat
  {
    if epochs == [] then 0
    else TotalBatches(epochs[..|epochs| - 1]) + |epochs[|epochs| - 1]|
  }

  /** `avg_loss` after whole epochs: each epoch restarts the index `it` at 0. */
  function AvgAcross(start: real, epochs: seq<seq<Batch>>): real
  {
    if epochs == [] then start
    else AvgAfter(AvgAcross(start, epochs[..|epochs| - 1]), Losses(epochs[|epochs| - 1]))
  }

  /** The number of epochs `range(max_epochs)` runs. */
  function EpochCount(maxEpochs: int): nat
  {
    if maxEpochs < 0 then 0 else maxEpochs
  }

  /** The learning rate of a step whose counted tokens are `tokens`. */
  function RateAt(cfg: TrainerConfig, tokens: nat, cosPi: real -> real): real
    requires !RaisesOnDecay(cfg)
  {
    ScheduledRate(cfg, tokens, cosPi).value.lr
  }

  /** Some step of these epochs raised: the run stops there. */
  predicate Failed(cfg: TrainerConfig, epochs: seq<seq<Batch>>)
  {
    RaisesOnDecay(cfg) && TotalBatches(epochs) > 0
  }

  /** The log line after the first epoch reads `self.lr`, which no step has set: the
      trainer started without a rate and that epoch had no batches. */
  predicate LogFails(s: TrainerState, epochs: seq<seq<Batch>>)
  {
    s.lr.None? && |epochs| > 0 && epochs[0] == []
  }

  /** The run from `s` stopped with an exception somewhere in these epochs. */
  predicate Stopped(cfg: TrainerConfig, s: TrainerState, epochs: seq<seq<Batch>>)
  {
    Failed(cfg, epochs) || LogFails(s, epochs)
  }

  // ----- the loop as functions of the trainer state -----

  /** One training step (src/trainer.py:172-208) on batch `b` at index `it` of its epoch.
      With a zero learning rate under decay the step raises after counting its tokens. */
  function AfterStep(cfg: TrainerConfig, s: TrainerState, b: Batch, it: nat, cosPi: real -> real): (r: TrainerState)
    ensures r.tokens >= s.tokens && r.checkpoints == s.checkpoints && |r.groups| == |s.groups|
    ensures r.steps == if RaisesOnDecay(cfg) then s.steps else s.steps + 1
    ensures RaisesOnDecay(cfg) ==> r.lr == s.lr && r.groups == s.groups
    ensures !RaisesOnDecay(cfg) ==> r.lr.Some?
  {
    var tokens := s.tokens + StepTokens(cfg, b);
    match ScheduledRate(cfg, tokens, cosPi)
    case Err(_) => s.(tokens := tokens)
    case Ok(rate) =>
      TrainerState(tokens, AvgUpdate(s.avgLoss, b.loss, it), s.steps + 1, Some(rate.lr),
                   if cfg.lrDecay then WithLr(s.groups, rate.lr) else s.groups, s.checkpoints)
  }

  /** `run_epoch('train')`: the steps of one epoch in order, stopping at a step that raises
      (which, the condition being fixed by the configuration, is the first one). */
  function AfterEpoch(cfg: TrainerConfig, s: TrainerState, batches: seq<Batch>, cosPi: real -> real): (r: TrainerState)
    ensures r.tokens >= s.tokens && r.checkpoints == s.checkpoints && |r.groups| == |s.groups|
  {
    if batches == [] then s
    else if RaisesOnDecay(cfg) then AfterStep(cfg, s, batches[0], 0, cosPi)
    else
      var n := |batches|;
      AfterStep(cfg, AfterEpoch(cfg, s, batches[..n - 1], cosPi), batches[n - 1], n - 1, cosPi)
  }

  /** The token counts a pass over `batches` records, one after each step. */
  function StepLog(cfg: TrainerConfig, s: TrainerState, batches: seq<Batch>, cosPi: real -> real): (log: seq<nat>)
    ensures |log| == |batches|
  {
    if batches == [] then []
    else StepLog(cfg, s, batches[..|batches| - 1], cosPi) + [AfterEpoch(cfg, s, batches, cosPi).tokens]
  }

  /** Entry `i` of the log is the token count after the first `i + 1` steps. */
  lemma {:induction false} StepLogAt(cfg: TrainerConfig, s: TrainerState, batches: seq<Batch>, i: nat, cosPi: real -> real)
    requires i < |batches|
    ensures StepLog(cfg, s, batches, cosPi)[i] == AfterEpoch(cfg, s, batches[..i + 1], cosPi).tokens
    decreases |batches|
  {
    var n := |batches|;
    if i < n - 1 {
      StepLogAt(cfg, s, batches[..n - 1], i, cosPi);
      assert batches[..n - 1][..i + 1] == batches[..i + 1];
    } else {
      assert batches[..i + 1] == batches;
    }
  }

  /** Step `it` of an epoch extends the state after the steps before it (a raising
      configuration never gets past step 0). */
  lemma EpochStep(cfg: TrainerConfig, s: TrainerState, batches: seq<Batch>, it: nat, cosPi: real -> real)
    requires it < |batches| && (it == 0 || !RaisesOnDecay(cfg))
    ensures AfterEpoch(cfg, s, batches[..it + 1], cosPi)
         == AfterStep(cfg, AfterEpoch(cfg, s, batches[..it], cosPi), batches[it], it, cosPi)
    ensures StepLog(cfg, s, batches[..it + 1], cosPi)
         == StepLog(cfg, s, batches[..it], cosPi) + [AfterEpoch(cfg, s, batches[..it + 1], cosPi).tokens]
  {
    assert batches[..it + 1][..it] == batches[..it];
  }

  /** The end-of-epoch checkpoint decision for epoch `epoch`. */
  function AfterSave(cfg: TrainerConfig, s: TrainerState, epoch: nat): (r: TrainerState)
    ensures r == s.(checkpoints := r.checkpoints)
    ensures |s.checkpoints| <= |r.checkpoints| <= |s.checkpoints| + 1
    ensures s.checkpoints <= r.checkpoints
    ensures epoch == cfg.maxEpochs - 1 ==> r.checkpoints == s.checkpoints + [CheckpointPath(cfg.epochSavePath, epoch)]
  {
    if ShouldSave(cfg.epochSaveFrequency, epoch, cfg.maxEpochs)
    then s.(checkpoints := s.checkpoints + [CheckpointPath(cfg.epochSavePath, epoch)])
    else s
  }

  /** The epoch loop of `train` from state `s`: each epoch runs, then the log line reads
      `lr`, then the checkpoint decision is made. An epoch that raises, or a log line that
      finds `lr` unset, ends the run without a save. */
  function AfterEpochs(cfg: TrainerConfig, s: TrainerState, epochs: seq<seq<Batch>>, cosPi: real -> real): (r: TrainerState)
    ensures r.tokens >= s.tokens && |r.groups| == |s.groups|
  {
    if epochs == [] then s
    else
      var front, last := epochs[..|epochs| - 1], epochs[|epochs| - 1];
      var prev := AfterEpochs(cfg, s, front, cosPi);
      if Stopped(cfg, s, front) then prev
      else if RaisesOnDecay(cfg) && last != [] then AfterEpoch(cfg, prev, last, cosPi)
      else
        var ran := AfterEpoch(cfg, prev, last, cosPi);
        if ran.lr.None? then ran else AfterSave(cfg, ran, |front|)
  }

  // ----- what the loop computes -----

  /** A step that does not raise counts its tokens, takes one step, folds its loss into
      `avg_loss`, and sets `lr` (and, with decay on, every parameter group) to the rate
      of the new token count. */
  lemma StepEffect(cfg: TrainerConfig, s: TrainerState, b: Batch, it: nat, cosPi: real -> real)
    requires !RaisesOnDecay(cfg)
    ensures var t := s.tokens + StepTokens(cfg, b);
      AfterStep(cfg, s, b, it, cosPi)
        == TrainerState(t, AvgUpdate(s.avgLoss, b.loss, it), s.steps + 1, Some(RateAt(cfg, t, cosPi)),
                        if cfg.lrDecay then WithLr(s.groups, RateAt(cfg, t, cosPi)) else s.groups,
                        s.checkpoints)
  {
  }

  /** An epoch with no raising step adds its tokens (with decay on), one step per batch,
      folds its losses into `avg_loss`, and leaves the checkpoints alone. */
  lemma {:induction false} EpochCounters(cfg: TrainerConfig, s: TrainerState, batches: seq<Batch>, cosPi: real -> real)
    requires !(RaisesOnDecay(cfg) && batches != [])
    ensures var r := AfterEpoch(cfg, s, batches, cosPi);
      && r.tokens == s.tokens + EpochTokens(cfg, batches)
      && r.steps == s.steps + |batches|
      && r.avgLoss == AvgAfter(s.avgLoss, Losses(batches))
      && r.checkpoints == s.checkpoints
    decreases |batches|
  {
    if batches != [] {
      var n := |batches|;
      var front := batches[..n - 1];
      EpochCounters(cfg, s, front, cosPi);
      assert Losses(batches)[..n - 1] == Losses(front);
      StepEffect(cfg, AfterEpoch(cfg, s, front, cosPi), batches[n - 1], n - 1, cosPi);
    }
  }

  /** After an epoch with no raising step, `lr` and (with decay on) every parameter group
      hold the rate of its last step; an empty epoch changes neither. */
  lemma {:induction false} EpochRate(cfg: TrainerConfig, s: TrainerState, batches: seq<Batch>, cosPi: real -> real)
    requires !(RaisesOnDecay(cfg) && batches != [])
    ensures var r := AfterEpoch(cfg, s, batches, cosPi);
      && (batches == [] ==> r.lr == s.lr && r.groups == s.groups)
      && (batches != [] ==> r.lr == Some(RateAt(cfg, r.tokens, cosPi)))
      && (batches != [] && cfg.lrDecay ==> r.groups == WithLr(s.groups, RateAt(cfg, r.tokens, cosPi)))
      && (!cfg.lrDecay ==> r.groups == s.groups)
    decreases |batches|
  {
    if batches != [] {
      var n := |batches|;
      var front := batches[..n - 1];
      EpochRate(cfg, s, front, cosPi);
      var prev := AfterEpoch(cfg, s, front, cosPi);
      var t := prev.tokens + StepTokens(cfg, batches[n - 1]);
      StepEffect(cfg, prev, batches[n - 1], n - 1, cosPi);
      if cfg.lrDecay && front != [] {
        WithLrLastWins(s.groups, RateAt(cfg, prev.tokens, cosPi), RateAt(cfg, t, cosPi));
      }
    }
  }

  lemma RunPrefixStep(cfg: TrainerConfig, start: real, epochs: seq<seq<Batch>>, e: nat)
    requires e < |epochs|
    ensures TotalBatches(epochs[..e + 1]) == TotalBatches(epochs[..e]) + |epochs[e]|
    ensures RunTokens(cfg, epochs[..e + 1]) == RunTokens(cfg, epochs[..e]) + EpochTokens(cfg, epochs[e])
    ensures AvgAcross(start, epochs[..e + 1]) == AvgAfter(AvgAcross(start, epochs[..e]), Losses(epochs[e]))
  {
    assert epochs[..e + 1][..e] == epochs[..e];
  }

  /** The checkpoints written by the first `e + 1` epochs. */
  lemma SavePathsStep(prefix: string, frequency: int, maxEpochs: int, e: nat)
    ensures CheckpointPaths(prefix, SaveEpochs(frequency, maxEpochs, e + 1))
         == CheckpointPaths(prefix, SaveEpochs(frequency, maxEpochs, e))
            + (if ShouldSave(frequency, e, maxEpochs) then [CheckpointPath(prefix, e)] else [])
  {
    var es := SaveEpochs(frequency, maxEpochs, e);
    if ShouldSave(frequency, e, maxEpochs) {
      assert (es + [e])[..|es|] == es;
    } else {
      assert SaveEpochs(frequency, maxEpochs, e + 1) == es;
    }
  }

  lemma AppendAssociative<T>(a: seq<T>, b: seq<T>, c: seq<T>)
    ensures (a + b) + c == a + (b + c)
  {
  }

  lemma SplitAppend<T>(a: seq<T>, b: seq<T>)
    ensures (a + b)[..|a|] == a && (a + b)[|a|..] == b
  {
  }

  /** A stop within a prefix of the epochs is a stop of the whole run. */
  lemma StoppedOfPrefix(cfg: TrainerConfig, s: TrainerState, epochs: seq<seq<Batch>>, k: nat)
    requires k <= |epochs| && Stopped(cfg, s, epochs[..k])
    ensures Stopped(cfg, s, epochs)
  {
    TotalBatchesOfPrefix(epochs, k);
  }

  lemma StillRunningBefore(cfg: TrainerConfig, s: TrainerState, epochs: seq<seq<Batch>>, k: nat)
    requires k <= |epochs| && !Stopped(cfg, s, epochs)
    ensures !Stopped(cfg, s, epochs[..k])
  {
    if Stopped(cfg, s, epochs[..k]) {
      StoppedOfPrefix(cfg, s, epochs, k);
    }
  }

  /** In a run that did not stop, `lr` is set after the first epoch. */
  lemma {:induction false} RunLrSet(cfg: TrainerConfig, s: TrainerState, epochs: seq<seq<Batch>>, cosPi: real -> real)
    requires epochs != [] && !Stopped(cfg, s, epochs)
    ensures AfterEpochs(cfg, s, epochs, cosPi).lr.Some?
    decreases |epochs|
  {
    var n := |epochs|;
    var front, last := epochs[..n - 1], epochs[n - 1];
    assert epochs[..n - 1] == front;
    StillRunningBefore(cfg, s, epochs, n - 1);
    TotalBatchesOfPrefix(epochs, n - 1);
    var prev := AfterEpochs(cfg, s, front, cosPi);
    EpochRate(cfg, prev, last, cosPi);
    if front != [] {
      assert front[0] == epochs[0];
      RunLrSet(cfg, s, front, cosPi);
    }
  }

  /** Without a stop, each epoch runs, `lr` is set, and the epoch makes its checkpoint decision. */
  lemma RunStep(cfg: TrainerConfig, s: TrainerState, epochs: seq<seq<Batch>>, cosPi: real -> real)
    requires epochs != [] && !Stopped(cfg, s, epochs)
    ensures var n := |epochs|;
      && !Stopped(cfg, s, epochs[..n - 1])
      && !(RaisesOnDecay(cfg) && epochs[n - 1] != [])
      && AfterEpochs(cfg, s, epochs, cosPi)
         == AfterSave(cfg, AfterEpoch(cfg, AfterEpochs(cfg, s, epochs[..n - 1], cosPi), epochs[n - 1], cosPi), n - 1)
  {
    var n := |epochs|;
    StillRunningBefore(cfg, s, epochs, n - 1);
    TotalBatchesOfPrefix(epochs, n - 1);
    RunLrSet(cfg, s, epochs, cosPi);
  }

  /** A run in which no step raised and `lr` was set for the log line: `tokens` grows by every counted token and is never
      reset between epochs, `steps` by one per batch, and `avg_loss` folds every epoch's
      losses. */
  lemma {:induction false} RunCounters(cfg: TrainerConfig, s: TrainerState, epochs: seq<seq<Batch>>, cosPi: real -> real)
    requires !Stopped(cfg, s, epochs)
    ensures var r := AfterEpochs(cfg, s, epochs, cosPi);
      && r.tokens == s.tokens + RunTokens(cfg, epochs)
      && r.steps == s.steps + TotalBatches(epochs)
      && r.avgLoss == AvgAcross(s.avgLoss, epochs)
    decreases |epochs|
  {
    if epochs != [] {
      var n := |epochs|;
      CountersStep(cfg, s, epochs, cosPi);
      RunPrefixStep(cfg, s.avgLoss, epochs, n - 1);
      assert epochs[..n] == epochs;
      RunCounters(cfg, s, epochs[..n - 1], cosPi);
    }
  }

  /** The last epoch of a run that did not stop adds its tokens, its steps and its losses. */
  lemma CountersStep(cfg: TrainerConfig, s: TrainerState, epochs: seq<seq<Batch>>, cosPi: real -> real)
    requires epochs != [] && !Stopped(cfg, s, epochs)
    ensures var n := |epochs|;
      && !Stopped(cfg, s, epochs[..n - 1])
      && var prev, r := AfterEpochs(cfg, s, epochs[..n - 1], cosPi), AfterEpochs(cfg, s, epochs, cosPi);
      && r.tokens == prev.tokens + EpochTokens(cfg, epochs[n - 1])
      && r.steps == prev.steps + |epochs[n - 1]|
      && r.avgLoss == AvgAfter(prev.avgLoss, Losses(epochs[n - 1]))
  {
    var n := |epochs|;
    RunStep(cfg, s, epochs, cosPi);
    EpochCounters(cfg, AfterEpochs(cfg, s, epochs[..n - 1], cosPi), epochs[n - 1], cosPi);
  }

  /** The last epoch of a run that did not stop adds the checkpoint of its own decision. */
  lemma SaveStep(cfg: TrainerConfig, s: TrainerState, epochs: seq<seq<Batch>>, cosPi: real -> real)
    requires epochs != [] && !Stopped(cfg, s, epochs)
    ensures var n := |epochs|;
      AfterEpochs(cfg, s, epochs, cosPi).checkpoints
        == AfterEpochs(cfg, s, epochs[..n - 1], cosPi).checkpoints
         + if ShouldSave(cfg.epochSaveFrequency, n - 1, cfg.maxEpochs)
           then [CheckpointPath(cfg.epochSavePath, n - 1)] else []
  {
    RunStep(cfg, s, epochs, cosPi);
  }

  /** A run that did not stop writes exactly the checkpoints of the save cadence,
      in epoch order. */
  lemma {:induction false} RunSaves(cfg: TrainerConfig, s: TrainerState, epochs: seq<seq<Batch>>, cosPi: real -> real)
    requires !Stopped(cfg, s, epochs)
    ensures AfterEpochs(cfg, s, epochs, cosPi).checkpoints
         == s.checkpoints + CheckpointPaths(cfg.epochSavePath, SaveEpochs(cfg.epochSaveFrequency, cfg.maxEpochs, |epochs|))
    decreases |epochs|
  {
    if epochs != [] {
      var n := |epochs|;
      var front, last := epochs[..n - 1], epochs[n - 1];
      SaveStep(cfg, s, epochs, cosPi);
      StillRunningBefore(cfg, s, epochs, n - 1);
      RunSaves(cfg, s, front, cosPi);
      SavePathsStep(cfg.epochSavePath, cfg.epochSaveFrequency, cfg.maxEpochs, n - 1);
      Extend(AfterEpochs(cfg, s, epochs, cosPi).checkpoints, AfterEpochs(cfg, s, front, cosPi).checkpoints,
             s.checkpoints,
             CheckpointPaths(cfg.epochSavePath, SaveEpochs(cfg.epochSaveFrequency, cfg.maxEpochs, n - 1)),
             CheckpointPaths(cfg.epochSavePath, SaveEpochs(cfg.epochSaveFrequency, cfg.maxEpochs, n)),
             if ShouldSave(cfg.epochSaveFrequency, n - 1, cfg.maxEpochs)
             then [CheckpointPath(cfg.epochSavePath, n - 1)] else []);
    }
  }

  /** Extending `base + before` by `x` gives `base + after` when `after` is `before + x`. */
  lemma Extend<T>(whole: seq<T>, prev: seq<T>, base: seq<T>, before: seq<T>, after: seq<T>, x: seq<T>)
    requires whole == prev + x && prev == base + before && after == before + x
    ensures whole == base + after
  {
    AppendAssociative(base, before, x);
  }

  /** `tokens` never goes down over a run that did not stop: after any prefix of the epochs it is at most
      what it is after all of them. */
  lemma {:induction false} TokensNeverDecrease(cfg: TrainerConfig, s: TrainerState, epochs: seq<seq<Batch>>, k: nat, cosPi: real -> real)
    requires k <= |epochs| && !Stopped(cfg, s, epochs)
    ensures s.tokens <= AfterEpochs(cfg, s, epochs[..k], cosPi).tokens <= AfterEpochs(cfg, s, epochs, cosPi).tokens
  {
    StillRunningBefore(cfg, s, epochs, k);
    RunCounters(cfg, s, epochs[..k], cosPi);
    RunCounters(cfg, s, epochs, cosPi);
    RunTokensOfPrefix(cfg, epochs, k);
  }

  lemma {:induction false} RunTokensOfPrefix(cfg: TrainerConfig, epochs: seq<seq<Batch>>, k: nat)
    requires k <= |epochs|
    ensures RunTokens(cfg, epochs[..k]) <= RunTokens(cfg, epochs)
    decreases |epochs|
  {
    if k < |epochs| {
      assert epochs[..|epochs| - 1][..k] == epochs[..k];
      RunTokensOfPrefix(cfg, epochs[..|epochs| - 1], k);
    } else {
      assert epochs[..k] == epochs;
    }
  }

  /** After a run that did not stop, `lr` and (with decay on) every parameter group
      hold the rate of the run's last step, at the run's final token count. */
  lemma {:induction false} RunRate(cfg: TrainerConfig, s: TrainerState, epochs: seq<seq<Batch>>, cosPi: real -> real)
    requires !Stopped(cfg, s, epochs)
    ensures var r := AfterEpochs(cfg, s, epochs, cosPi);
      && (TotalBatches(epochs) == 0 ==> r.lr == s.lr && r.groups == s.groups)
      && (TotalBatches(epochs) > 0 ==> r.lr == Some(RateAt(cfg, r.tokens, cosPi)))
      && (TotalBatches(epochs) > 0 && cfg.lrDecay ==> r.groups == WithLr(s.groups, RateAt(cfg, r.tokens, cosPi)))
      && (!cfg.lrDecay ==> r.groups == s.groups)
    decreases |epochs|
  {
    if epochs != [] {
      var n := |epochs|;
      var front, last := epochs[..n - 1], epochs[n - 1];
      RateStep(cfg, s, epochs, cosPi);
      RunRate(cfg, s, front, cosPi);
      var prev, r := AfterEpochs(cfg, s, front, cosPi), AfterEpochs(cfg, s, epochs, cosPi);
      if cfg.lrDecay && TotalBatches(front) > 0 && last != [] {
        WithLrLastWins(s.groups, RateAt(cfg, prev.tokens, cosPi), RateAt(cfg, r.tokens, cosPi));
      }
    }
  }

  /** The last epoch of a run that did not stop sets `lr` and the groups as its own steps do. */
  lemma RateStep(cfg: TrainerConfig, s: TrainerState, epochs: seq<seq<Batch>>, cosPi: real -> real)
    requires epochs != [] && !Stopped(cfg, s, epochs)
    ensures var n := |epochs|;
      && !Stopped(cfg, s, epochs[..n - 1])
      && var last, prev, r := epochs[n - 1], AfterEpochs(cfg, s, epochs[..n - 1], cosPi), AfterEpochs(cfg, s, epochs, cosPi);
      && (last == [] ==> r.lr == prev.lr && r.groups == prev.groups)
      && (last != [] ==> r.lr == Some(RateAt(cfg, r.tokens, cosPi)))
      && (last != [] && cfg.lrDecay ==> r.groups == WithLr(prev.groups, RateAt(cfg, r.tokens, cosPi)))
      && (!cfg.lrDecay ==> r.groups == prev.groups)
  {
    var n := |epochs|;
    RunStep(cfg, s, epochs, cosPi);
    EpochRate(cfg, AfterEpochs(cfg, s, epochs[..n - 1], cosPi), epochs[n - 1], cosPi);
  }

  lemma {:induction false} TotalBatchesOfPrefix(epochs: seq<seq<Batch>>, k: nat)
    requires k <= |epochs|
    ensures TotalBatches(epochs[..k]) <= TotalBatches(epochs)
    decreases |epochs|
  {
    if k < |epochs| {
      assert epochs[..|epochs| - 1][..k] == epochs[..k];
      TotalBatchesOfPrefix(epochs[..|epochs| - 1], k);
    } else {
      assert epochs[..k] == epochs;
    }
  }

  /** Once the run has stopped, later epochs change nothing. */
  lemma {:induction false} FailureIsFinal(cfg: TrainerConfig, s: TrainerState, epochs: seq<seq<Batch>>, k: nat, cosPi: real -> real)
    requires k <= |epochs| && Stopped(cfg, s, epochs[..k])
    ensures AfterEpochs(cfg, s, epochs, cosPi) == AfterEpochs(cfg, s, epochs[..k], cosPi)
    decreases |epochs|
  {
    if k < |epochs| {
      var front := epochs[..|epochs| - 1];
      assert front[..k] == epochs[..k];
      FailureIsFinal(cfg, s, front, k, cosPi);
      StoppedOfPrefix(cfg, s, front, k);
    } else {
      assert epochs[..k] == epochs;
    }
  }

  /** Epochs without batches, run by a trainer whose `lr` is already set, only make their
      checkpoint decisions. */
  lemma {:induction false} EmptyRun(cfg: TrainerConfig, s: TrainerState, epochs: seq<seq<Batch>>, cosPi: real -> real)
    requires TotalBatches(epochs) == 0 && !LogFails(s, epochs)
    ensures AfterEpochs(cfg, s, epochs, cosPi)
         == s.(checkpoints := s.checkpoints + CheckpointPaths(cfg.epochSavePath, SaveEpochs(cfg.epochSaveFrequency, cfg.maxEpochs, |epochs|)))
    decreases |epochs|
  {
    if epochs != [] {
      var n := |epochs|;
      var front := epochs[..n - 1];
      RunStep(cfg, s, epochs, cosPi);
      TotalBatchesOfPrefix(epochs, n - 1);
      assert front != [] ==> front[0] == epochs[0];
      EmptyRun(cfg, s, front, cosPi);
      SavePathsStep(cfg.epochSavePath, cfg.epochSaveFrequency, cfg.maxEpochs, n - 1);
      AppendAssociative(s.checkpoints,
                        CheckpointPaths(cfg.epochSavePath, SaveEpochs(cfg.epochSaveFrequency, cfg.maxEpochs, n - 1)),
                        if ShouldSave(cfg.epochSaveFrequency, n - 1, cfg.maxEpochs)
                        then [CheckpointPath(cfg.epochSavePath, n - 1)] else []);
    }
  }

  /** A trainer that never took a step, given a first epoch without batches, raises
      `AttributeError` on the log line after it: nothing changes and nothing is saved. */
  lemma RunLogFailure(cfg: TrainerConfig, s: TrainerState, epochs: seq<seq<Batch>>, cosPi: real -> real)
    requires LogFails(s, epochs)
    ensures AfterEpochs(cfg, s, epochs, cosPi) == s
  {
    assert epochs[..1][..0] == [] && epochs[..1][0] == epochs[0];
    assert AfterEpochs(cfg, s, epochs[..1], cosPi) == s;
    FailureIsFinal(cfg, s, epochs, 1, cosPi);
  }

  /** A run whose learning rate is zero under decay raises on its first batch: its tokens
      are counted, nothing else of that step happens, and only the epochs before it (which
      had no batches) made their checkpoint decisions. */
  lemma {:induction false} RunFailure(cfg: TrainerConfig, s: TrainerState, epochs: seq<seq<Batch>>, cosPi: real -> real)
    requires Failed(cfg, epochs) && !LogFails(s, epochs)
    ensures exists k ::
              && 0 <= k < |epochs| && TotalBatches(epochs[..k]) == 0 && epochs[k] != []
              && AfterEpochs(cfg, s, epochs, cosPi) == FailedAt(cfg, s, epochs[k][0], k)
    decreases |epochs|
  {
    var n := |epochs|;
    var front, last := epochs[..n - 1], epochs[n - 1];
    FailureStep(cfg, s, epochs, cosPi);
    if Failed(cfg, front) {
      RunFailure(cfg, s, front, cosPi);
      var k :| 0 <= k < |front| && TotalBatches(front[..k]) == 0 && front[k] != [] &&
        AfterEpochs(cfg, s, front, cosPi) == FailedAt(cfg, s, front[k][0], k);
      assert front[..k] == epochs[..k] && front[k] == epochs[k];
    } else {
      RaiseInLastEpoch(cfg, s, epochs, cosPi);
      assert epochs[..n - 1] == front;
    }
  }

  /** When only the last epoch has batches, its first batch raises. */
  lemma RaiseInLastEpoch(cfg: TrainerConfig, s: TrainerState, epochs: seq<seq<Batch>>, cosPi: real -> real)
    requires Failed(cfg, epochs) && !LogFails(s, epochs) && !Failed(cfg, epochs[..|epochs| - 1])
    ensures var n := |epochs|;
      && TotalBatches(epochs[..n - 1]) == 0 && epochs[n - 1] != []
      && AfterEpochs(cfg, s, epochs, cosPi) == FailedAt(cfg, s, epochs[n - 1][0], n - 1)
  {
    var n := |epochs|;
    var front, last := epochs[..n - 1], epochs[n - 1];
    FailureStep(cfg, s, epochs, cosPi);
    EmptyRun(cfg, s, front, cosPi);
    RaisingStep(cfg, AfterEpochs(cfg, s, front, cosPi), last[0], cosPi);
  }

  /** In a run that raises, the last epoch either comes after the raise or holds it. */
  lemma FailureStep(cfg: TrainerConfig, s: TrainerState, epochs: seq<seq<Batch>>, cosPi: real -> real)
    requires Failed(cfg, epochs) && !LogFails(s, epochs)
    ensures var n := |epochs|;
      && !LogFails(s, epochs[..n - 1])
      && AfterEpochs(cfg, s, epochs, cosPi)
         == if Failed(cfg, epochs[..n - 1]) then AfterEpochs(cfg, s, epochs[..n - 1], cosPi)
            else AfterEpoch(cfg, AfterEpochs(cfg, s, epochs[..n - 1], cosPi), epochs[n - 1], cosPi)
  {
    var n := |epochs|;
    assert epochs[..n - 1] != [] ==> epochs[..n - 1][0] == epochs[0];
  }

  /** The state a run is left in when the first batch `b`, in epoch `k`, raises: `b`'s tokens
      counted and the checkpoints of epochs 0 .. k-1 written. */
  function FailedAt(cfg: TrainerConfig, s: TrainerState, b: Batch, k: nat): TrainerState
  {
    s.(tokens := s.tokens + b.nonIgnored,
       checkpoints := s.checkpoints + CheckpointPaths(cfg.epochSavePath, SaveEpochs(cfg.epochSaveFrequency, cfg.maxEpochs, k)))
  }

  /** A raising step counts its batch's tokens and changes nothing else. */
  lemma RaisingStep(cfg: TrainerConfig, s: TrainerState, b: Batch, cosPi: real -> real)
    requires RaisesOnDecay(cfg)
    ensures AfterEpoch(cfg, s, [b], cosPi) == AfterStep(cfg, s, b, 0, cosPi) == s.(tokens := s.tokens + b.nonIgnored)
  {
  }

  /** With decay off the run never counts a token and never touches the parameter groups;
      unless the log line stopped it first, `lr` ends at `learning_rate`. */
  lemma NoDecayRun(cfg: TrainerConfig, s: TrainerState, epochs: seq<seq<Batch>>, cosPi: real -> real)
    requires !cfg.lrDecay
    ensures AfterEpochs(cfg, s, epochs, cosPi).tokens == s.tokens
    ensures AfterEpochs(cfg, s, epochs, cosPi).groups == s.groups
    ensures TotalBatches(epochs) > 0 && !LogFails(s, epochs) ==> AfterEpochs(cfg, s, epochs, cosPi).lr == Some(cfg.learningRate)
  {
    if LogFails(s, epochs) {
      RunLogFailure(cfg, s, epochs, cosPi);
    } else {
      RunCounters(cfg, s, epochs, cosPi);
      RunRate(cfg, s, epochs, cosPi);
      NoDecayCountsNothing(cfg, epochs);
    }
  }

  lemma {:induction false} NoDecayCountsNothing(cfg: TrainerConfig, epochs: seq<seq<Batch>>)
    requires !cfg.lrDecay
    ensures RunTokens(cfg, epochs) == 0
    decreases |epochs|
  {
    if epochs != [] {
      NoDecayCountsNothing(cfg, epochs[..|epochs| - 1]);
      NoDecayEpochCountsNothing(cfg, epochs[|epochs| - 1]);
    }
  }

  lemma {:induction false} NoDecayEpochCountsNothing(cfg: TrainerConfig, batches: seq<Batch>)
    requires !cfg.lrDecay
    ensures EpochTokens(cfg, batches) == 0
    decreases |batches|
  {
    if batches != [] {
      NoDecayEpochCountsNothing(cfg, batches[..|batches| - 1]);
    }
  }

  /** `avg_loss` at the end of a run is the mean loss of its last epoch, when that epoch had
      batches and every loss was non-negative. */
  lemma LastEpochMean(start: real, epochs: seq<seq<Batch>>)
    requires |epochs| > 0
    requires var last := epochs[|epochs| - 1]; |last| > 0 && AllNonNegative(Losses(last))
    ensures var last := Losses(epochs[|epochs| - 1]);
      AvgAcross(start, epochs) == Sum(last) / |last| as real
  {
    var prev := AvgAcross(start, epochs[..|epochs| - 1]);
    EpochAverageIsMean(prev, Losses(epochs[|epochs| - 1]));
  }

  /** A completed epoch `e` that left `lr` set extends the run by that epoch followed by
      its checkpoint decision. */
  lemma EpochThenSave(cfg: TrainerConfig, s: TrainerState, epochs: seq<seq<Batch>>, e: nat, cosPi: real -> real)
    requires e < |epochs| && !Stopped(cfg, s, epochs[..e]) && !(RaisesOnDecay(cfg) && epochs[e] != [])
    requires AfterEpoch(cfg, AfterEpochs(cfg, s, epochs[..e], cosPi), epochs[e], cosPi).lr.Some?
    ensures !Stopped(cfg, s, epochs[..e + 1])
    ensures TotalBatches(epochs[..e + 1]) == TotalBatches(epochs[..e]) + |epochs[e]|
    ensures AfterEpochs(cfg, s, epochs[..e + 1], cosPi)
         == AfterSave(cfg, AfterEpoch(cfg, AfterEpochs(cfg, s, epochs[..e], cosPi), epochs[e], cosPi), e)
  {
    assert epochs[..e + 1][..e] == epochs[..e] && epochs[..e + 1][e] == epochs[e];
    assert epochs[..e + 1][0] == epochs[0];
    if e > 0 {
      assert epochs[..e][0] == epochs[0];
    }
  }

  /** An epoch that raises ends the run: the state is the one it left. */
  lemma FailingEpochEndsRun(cfg: TrainerConfig, s: TrainerState, epochs: seq<seq<Batch>>, e: nat, cosPi: real -> real)
    requires e < |epochs| && !Stopped(cfg, s, epochs[..e]) && RaisesOnDecay(cfg) && epochs[e] != []
    ensures TotalBatches(epochs[..e]) == 0 && Failed(cfg, epochs) && !LogFails(s, epochs)
    ensures AfterEpochs(cfg, s, epochs, cosPi)
         == AfterEpoch(cfg, AfterEpochs(cfg, s, epochs[..e], cosPi), epochs[e], cosPi)
  {
    assert epochs[..e + 1][..e] == epochs[..e] && epochs[..e + 1][e] == epochs[e];
    if e > 0 {
      assert epochs[..e][0] == epochs[0];
    }
    TotalBatchesOfPrefix(epochs, e + 1);
    FailureIsFinal(cfg, s, epochs, e + 1, cosPi);
  }

  /** An epoch after which the log line finds `lr` unset is the first one, it had no
      batches, the trainer had never stepped, and the run ends there with nothing changed. */
  lemma LogLineEndsRun(cfg: TrainerConfig, s: TrainerState, epochs: seq<seq<Batch>>, e: nat, cosPi: real -> real)
    requires e < |epochs| && !Stopped(cfg, s, epochs[..e]) && !(RaisesOnDecay(cfg) && epochs[e] != [])
    requires AfterEpoch(cfg, AfterEpochs(cfg, s, epochs[..e], cosPi), epochs[e], cosPi).lr.None?
    ensures e == 0 && LogFails(s, epochs) && TotalBatches(epochs[..e]) == 0
    ensures AfterEpochs(cfg, s, epochs, cosPi) == s
    ensures AfterEpoch(cfg, AfterEpochs(cfg, s, epochs[..e], cosPi), epochs[e], cosPi) == s
  {
    var prev := AfterEpochs(cfg, s, epochs[..e], cosPi);
    EpochRate(cfg, prev, epochs[e], cosPi);
    if e > 0 {
      RunLrSet(cfg, s, epochs[..e], cosPi);
      assert false;
    }
    RunLogFailure(cfg, s, epochs, cosPi);
  }

  ghost predicate NonDecreasing(s: seq<nat>)
  {
    forall i, j :: 0 <= i <= j < |s| ==> s[i] <= s[j]
  }

  /** A token log that never went down, bounded by and ending in the current count. */
  ghost predicate LogUpTo(log: seq<nat>, tokens: nat)
  {
    && NonDecreasing(log)
    && (forall i :: 0 <= i < |log| ==> log[i] <= tokens)
    && (|log| > 0 ==> log[|log| - 1] == tokens)
  }

  /** Logging a count no smaller than the current one keeps the log well formed. */
  lemma LogExtend(log: seq<nat>, tokens: nat, next: nat)
    requires LogUpTo(log, tokens) && tokens <= next
    ensures LogUpTo(log + [next], next)
  {
  }

  // ----- the trainer object -----

  class Trainer {
    const config: TrainerConfig
    /** `optimizer.param_groups`. */
    const paramGroups: array<ParamGroup>
    /** Non-ignored labels counted since `train` started (only with `lr_decay`). */
    var tokens: nat
    var avgLoss: real
    var steps: nat
    /** The rate of the last training step; unset before the first. */
    var lr: Option<real>
    /** The paths of the checkpoints saved, in order. */
    var checkpoints: seq<string>
    /** The value of `tokens` after each training step since `train` started. */
    ghost var tokenLog: seq<nat>

    ghost function State(): TrainerState
      reads this, paramGroups
    {
      TrainerState(tokens, avgLoss, steps, lr, paramGroups[..], checkpoints)
    }

    /** The token counter never went down during the current run, and its last logged
        value is the current one. */
    ghost predicate Valid()
      reads this`tokens, this`tokenLog
    {
      LogUpTo(tokenLog, tokens)
    }

    constructor (config: TrainerConfig, paramGroups: array<ParamGroup>)
      ensures this.config == config && this.paramGroups == paramGroups
      ensures State() == TrainerState(0, Unset, 0, None, paramGroups[..], [])
      ensures tokenLog == [] && Valid()
    {
      this.config := config;
      this.paramGroups := paramGroups;
      avgLoss := Unset;
      steps := 0;
      lr := None;
      tokens := 0;
      checkpoints := [];
      tokenLog := [];
    }

    /** `param_group['lr'] = lr` for every parameter group. */
    method SetParamGroupsLr(rate: real)
      modifies paramGroups
      ensures paramGroups[..] == WithLr(old(paramGroups[..]), rate)
    {
      for i := 0 to paramGroups.Length
        invariant forall k :: 0 <= k < i ==> paramGroups[k] == old(paramGroups[k]).(lr := rate)
        invariant forall k :: i <= k < paramGroups.Length ==> paramGroups[k] == old(paramGroups[k])
      {
        paramGroups[i] := paramGroups[i].(lr := rate);
      }
    }

    /** One training iteration after `optimizer.step()`: count the batch's tokens, set
        the rate of the next step, and update the step counter and the running loss.
        The rate written here is used by the next `optimizer.step()`. */
    method TrainStep(batch: Batch, it: nat, cosPi: real -> real) returns (outcome: Outcome)
      requires Valid()
      modifies this, paramGroups
      ensures State() == AfterStep(config, old(State()), batch, it, cosPi)
      ensures outcome.Fail? <==> RaisesOnDecay(config)
      ensures outcome.Fail? ==> outcome.error == ZeroDivisionError
      ensures tokenLog == old(tokenLog) + [tokens] && tokens >= old(tokens) && Valid()
    {
      var rate: real;
      if config.lrDecay {
        LogExtend(tokenLog, tokens, tokens + batch.nonIgnored);
        tokens := tokens + batch.nonIgnored;
        match ScheduledRate(config, tokens, cosPi)
        case Err(e) =>
          tokenLog := tokenLog + [tokens];
          return Fail(e);
        case Ok(s) =>
          rate := s.lr;
          SetParamGroupsLr(rate);
      } else {
        LogExtend(tokenLog, tokens, tokens);
        rate := config.learningRate;
      }
      lr := Some(rate);
      steps := steps + 1;
      avgLoss := AvgUpdate(avgLoss, batch.loss, it);
      tokenLog := tokenLog + [tokens];
      outcome := Pass;
    }

    /** `run_epoch('train')`: one pass over the epoch's batches, `it` counting from 0.
        A failing step ends the pass (the exception propagates). */
    method RunEpoch(batches: seq<Batch>, cosPi: real -> real) returns (outcome: Outcome)
      requires Valid()
      modifies this, paramGroups
      ensures State() == AfterEpoch(config, old(State()), batches, cosPi)
      ensures outcome.Fail? <==> RaisesOnDecay(config) && batches != []
      ensures outcome.Fail? ==> outcome.error == ZeroDivisionError
      ensures |tokenLog| == |old(tokenLog)| + (if outcome.Fail? then 1 else |batches|)
      ensures tokenLog[..|old(tokenLog)|] == old(tokenLog)
      ensures tokenLog[|old(tokenLog)|..] == StepLog(config, old(State()), batches[..if outcome.Fail? then 1 else |batches|], cosPi)
      ensures tokens >= old(tokens) && Valid()
    {
      var it := 0;
      while it < |batches|
        invariant 0 <= it <= |batches|
        invariant it > 0 ==> !RaisesOnDecay(config)
        invariant State() == AfterEpoch(config, old(State()), batches[..it], cosPi)
        invariant tokenLog == old(tokenLog) + StepLog(config, old(State()), batches[..it], cosPi)
        invariant tokens >= old(tokens) && Valid()
      {
        EpochStep(config, old(State()), batches, it, cosPi);
        AppendAssociative(old(tokenLog), StepLog(config, old(State()), batches[..it], cosPi),
                          [AfterEpoch(config, old(State()), batches[..it + 1], cosPi).tokens]);
        outcome := TrainStep(batches[it], it, cosPi);
        if outcome.Fail? {
          SplitAppend(old(tokenLog), StepLog(config, old(State()), batches[..1], cosPi));
          return;
        }
        it := it + 1;
      }
      assert batches[..it] == batches;
      SplitAppend(old(tokenLog), StepLog(config, old(State()), batches, cosPi));
      outcome := Pass;
    }

    /** The end-of-epoch decision: save a checkpoint named after the epoch when the
        cadence says so (`torch.save` is recorded as the path it writes). */
    method SaveCheckpointIfDue(epoch: nat)
      modifies this`checkpoints
      ensures checkpoints == AfterSave(config, old(State()), epoch).checkpoints
    {
      if ShouldSave(config.epochSaveFrequency, epoch, config.maxEpochs) {
        checkpoints := checkpoints + [CheckpointPath(config.epochSavePath, epoch)];
      }
    }

    /** `train`: reset the token counter once, run `max_epochs` passes, and after each
        pass save a checkpoint when the cadence says so. `epochs[e]` holds the batches
        of pass `e` with the losses the model reported for them. */
    method Train(epochs: seq<seq<Batch>>, cosPi: real -> real) returns (outcome: Outcome)
      requires |epochs| == EpochCount(config.maxEpochs)
      modifies this, paramGroups
      ensures State() == AfterEpochs(config, old(State()).(tokens := 0), epochs, cosPi)
      ensures outcome.Fail? <==> Stopped(config, old(State()), epochs)
      ensures outcome.Fail? ==> outcome.error == if LogFails(old(State()), epochs) then AttributeError else ZeroDivisionError
      ensures |tokenLog| == if LogFails(old(State()), epochs) then 0 else if outcome.Fail? then 1 else TotalBatches(epochs)
      ensures Valid()
    {
      tokens := 0;
      tokenLog := [];
      ghost var start := State();
      assert start == old(State()).(tokens := 0);
      assert LogFails(start, epochs) == LogFails(old(State()), epochs);
      assert Stopped(config, start, epochs) == Stopped(config, old(State()), epochs);
      var e := 0;
      while e < |epochs|
        invariant 0 <= e <= |epochs|
        invariant !Stopped(config, start, epochs[..e])
        invariant State() == AfterEpochs(config, start, epochs[..e], cosPi)
        invariant |tokenLog| == TotalBatches(epochs[..e])
        invariant Valid()
      {
        outcome := RunEpoch(epochs[e], cosPi);
        if outcome.Fail? {
          FailingEpochEndsRun(config, start, epochs, e, cosPi);
          return;
        }
        if lr.None? {
          LogLineEndsRun(config, start, epochs, e, cosPi);
          return Fail(AttributeError);
        }
        ghost var ran := State();
        SaveCheckpointIfDue(e);
        assert State() == AfterSave(config, ran, e);
        EpochThenSave(config, start, epochs, e, cosPi);
        e := e + 1;
      }
      assert epochs[..e] == epochs;
      outcome := Pass;
    }
  }
}

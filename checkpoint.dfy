/** The end-of-epoch checkpoint decision and the checkpoint file names. */
module Checkpoint {
  import opened Decimal

  /** Epoch `epoch` (counted from 0) saves when the frequency is positive and divides it,
      or when it is the last epoch of the run. */
  function ShouldSave(frequency: int, epoch: nat, maxEpochs: int): (b: bool)
    ensures epoch == maxEpochs - 1 ==> b
    ensures frequency <= 0 ==> (b <==> epoch == maxEpochs - 1)
    ensures frequency > 0 && epoch == 0 ==> b
    ensures frequency > 0 && b && epoch != maxEpochs - 1 ==> epoch % frequency == 0
  {
    (frequency > 0 && epoch % frequency == 0) || epoch == maxEpochs - 1
  }

  /** The epochs among 0 .. n-1 that write a checkpoint, in the order they are written. */
  function SaveEpochs(frequency: int, maxEpochs: int, n: nat): (es: seq<nat>)
    ensures forall i :: 0 <= i < |es| ==> es[i] < n
  {
    if n == 0 then []
    else SaveEpochs(frequency, maxEpochs, n - 1) + (if ShouldSave(frequency, n - 1, maxEpochs) then [n - 1] else [])
  }

  /** `epoch_save_path + str(epoch + 1) + '.pth'`. */
  function CheckpointPath(prefix: string, epoch: nat): (path: string)
    ensures |path| == |prefix| + |NatToString(epoch + 1)| + 4
    ensures path[..|prefix|] == prefix && path[|path| - 4..] == ".pth"
  {
    prefix + NatToString(epoch + 1) + ".pth"
  }

  /** The checkpoint files written for the epochs `es`, in order. */
  function CheckpointPaths(prefix: string, es: seq<nat>): (paths: seq<string>)
    ensures |paths| == |es|
  {
    if es == [] then []
    else CheckpointPaths(prefix, es[..|es| - 1]) + [CheckpointPath(prefix, es[|es| - 1])]
  }

  lemma {:induction false} SaveEpochsMembers(frequency: int, maxEpochs: int, n: nat, e: nat)
    ensures e in SaveEpochs(frequency, maxEpochs, n) <==> e < n && ShouldSave(frequency, e, maxEpochs)
  {
    if n > 0 {
      SaveEpochsMembers(frequency, maxEpochs, n - 1, e);
    }
  }

  predicate StrictlyIncreasing(es: seq<nat>)
  {
    forall i, j :: 0 <= i < j < |es| ==> es[i] < es[j]
  }

  lemma {:induction false} SaveEpochsIncreasing(frequency: int, maxEpochs: int, n: nat)
    ensures StrictlyIncreasing(SaveEpochs(frequency, maxEpochs, n))
  {
    if n > 0 {
      SaveEpochsIncreasing(frequency, maxEpochs, n - 1);
      var front := SaveEpochs(frequency, maxEpochs, n - 1);
      var es := SaveEpochs(frequency, maxEpochs, n);
      assert es[..|front|] == front;
      forall i, j | 0 <= i < j < |es|
        ensures es[i] < es[j]
      {
        if j >= |front| {
          assert es[j] == n - 1 && es[i] == front[i];
          assert front[i] < n - 1;
        } else {
          assert es[i] == front[i] && es[j] == front[j];
          assert front[i] < front[j];
        }
      }
    }
  }

  /** The last epoch of a run always writes a checkpoint, and it is the last one written. */
  lemma FinalEpochSavesLast(frequency: int, maxEpochs: int)
    requires maxEpochs >= 1
    ensures var es := SaveEpochs(frequency, maxEpochs, maxEpochs);
      |es| > 0 && es[|es| - 1] == maxEpochs - 1
  {
  }

  lemma {:induction false} NothingBeforeFinal(frequency: int, maxEpochs: int, n: nat)
    requires frequency <= 0 && n < maxEpochs
    ensures SaveEpochs(frequency, maxEpochs, n) == []
  {
    if n > 0 {
      NothingBeforeFinal(frequency, maxEpochs, n - 1);
    }
  }

  /** A frequency of 0 (or below) saves the last epoch only. */
  lemma NoFrequencySavesOnlyFinal(frequency: int, maxEpochs: int)
    requires frequency <= 0 && maxEpochs >= 1
    ensures SaveEpochs(frequency, maxEpochs, maxEpochs) == [maxEpochs - 1]
  {
    NothingBeforeFinal(frequency, maxEpochs, maxEpochs - 1);
  }

  /** With a positive frequency the first epoch writes the first checkpoint. */
  lemma {:induction false} FrequencySavesFirstEpoch(frequency: int, maxEpochs: int, n: nat)
    requires frequency > 0 && n >= 1
    ensures var es := SaveEpochs(frequency, maxEpochs, n);
      |es| > 0 && es[0] == 0
  {
    if n > 1 {
      FrequencySavesFirstEpoch(frequency, maxEpochs, n - 1);
    }
  }

  /** Five epochs: a frequency of 2 saves epochs 0, 2 and 4; a frequency of 0 saves epoch 4. */
  lemma CadenceExamples()
    ensures SaveEpochs(2, 5, 5) == [0, 2, 4]
    ensures SaveEpochs(0, 5, 5) == [4]
  {
    assert SaveEpochs(2, 5, 1) == [0];
    assert SaveEpochs(2, 5, 3) == [0, 2];
    NoFrequencySavesOnlyFinal(0, 5);
  }

  /** The epoch number can be read back from a checkpoint name. */
  lemma CheckpointPathNamesEpoch(prefix: string, epoch: nat)
    ensures var path := CheckpointPath(prefix, epoch);
      AllDigits(path[|prefix|..|path| - 4]) && ParseDecimal(path[|prefix|..|path| - 4]) == epoch + 1
  {
    var path := CheckpointPath(prefix, epoch);
    assert path[|prefix|..|path| - 4] == NatToString(epoch + 1);
    ParseInvertsNatToString(epoch + 1);
  }

  lemma CheckpointPathInjective(prefix: string, e1: nat, e2: nat)
    requires CheckpointPath(prefix, e1) == CheckpointPath(prefix, e2)
    ensures e1 == e2
  {
    CheckpointPathNamesEpoch(prefix, e1);
    CheckpointPathNamesEpoch(prefix, e2);
  }

  lemma {:induction false} CheckpointPathsAt(prefix: string, es: seq<nat>, i: nat)
    requires i < |es|
    ensures CheckpointPaths(prefix, es)[i] == CheckpointPath(prefix, es[i])
  {
    if i < |es| - 1 {
      CheckpointPathsAt(prefix, es[..|es| - 1], i);
    }
  }

  /** Within one run no checkpoint file is written twice. */
  lemma CheckpointsNeverOverwritten(prefix: string, frequency: int, maxEpochs: int, n: nat)
    ensures var paths := CheckpointPaths(prefix, SaveEpochs(frequency, maxEpochs, n));
      forall i, j :: 0 <= i < j < |paths| ==> paths[i] != paths[j]
  {
    var es := SaveEpochs(frequency, maxEpochs, n);
    var paths := CheckpointPaths(prefix, es);
    SaveEpochsIncreasing(frequency, maxEpochs, n);
    forall i, j | 0 <= i < j < |paths|
      ensures paths[i] != paths[j]
    {
      CheckpointPathsAt(prefix, es, i);
      CheckpointPathsAt(prefix, es, j);
      if paths[i] == paths[j] {
        CheckpointPathInjective(prefix, es[i], es[j]);
      }
    }
  }
}

/**
 * The bookkeeping of the capsule autoencoder's training script: the
 * learning-rate tier of each epoch, the inclusive epoch range, checkpoint
 * cadence and file names, the logger's global step, the early stop on a
 * short batch, the iteration counter and the log-directory name.
 *
 * The forward and backward passes, the loss values and the optimiser's
 * arithmetic are not modelled; an epoch's data loader is described only by
 * the sizes of the batches it yields, which shuffling does not change.
 */
module TrainAE {
  import opened Results
  import PyFormat
  import Arith

  /** The command-line options the loop reads. */
  datatype Options = Options(
    batchSize: int,
    nEpochs: int,
    latentCapsSize: int,
    latentVecSize: int,
    outf: string,
    dataset: string)

  /**
   * What one epoch leaves behind, in the order it happens: a fresh Adam
   * optimiser at a learning rate, the logger steps at which the batch losses
   * were logged, and the checkpoint file written at the end, if any.
   */
  datatype EpochLog = EpochLog(lr: real, steps: seq<int>, checkpoint: Option<string>)

  /** The exceptions the script raises. */
  datatype TrainError =
    | NotImplemented  // a dataset without a train_dataloader
    | ZeroDivision    // the average loss of an epoch over an empty loader

  /** The epochs of a run, epoch `e` at index `e`, and the final iteration counter. */
  datatype TrainLog = TrainLog(epochs: seq<EpochLog>, globalIter: nat)

  /** The learning rate of an epoch: 0.01 before epoch 50, 0.001 before 150, 0.0001 after. */
  function LearningRate(epoch: int): (lr: real)
    ensures 0.0001 <= lr <= 0.01
  {
    if epoch < 50 then 0.01 else if epoch < 150 then 0.001 else 0.0001
  }

  /** The epochs at which the learning rate drops tenfold. */
  const Milestones: seq<int> := [50, 150]

  /** How many of `milestones` the epoch has reached. */
  function Reached(epoch: int, milestones: seq<int>): nat {
    if milestones == [] then 0
    else (if milestones[0] <= epoch then 1 else 0) + Reached(epoch, milestones[1..])
  }

  function Pow10(k: nat): (p: real)
    ensures p >= 1.0
  {
    if k == 0 then 1.0 else 10.0 * Pow10(k - 1)
  }

  /** The tiers are a step decay: 0.01 divided by ten for each milestone reached. */
  lemma {:induction false} LearningRateIsStepDecay(epoch: int)
    ensures LearningRate(epoch) == 0.01 / Pow10(Reached(epoch, Milestones))
  {
    var m := Milestones;
    assert m[1..][1..] == [];
    assert Reached(epoch, m[1..]) == (if 150 <= epoch then 1 else 0) + Reached(epoch, m[1..][1..]);
    var n := Reached(epoch, m);
    assert n == (if 50 <= epoch then 1 else 0) + (if 150 <= epoch then 1 else 0);
    assert Pow10(1) == 10.0;
    assert Pow10(2) == 100.0;
    if epoch < 50 {
      assert n == 0;
    } else if epoch < 150 {
      assert n == 1;
    } else {
      assert n == 2;
    }
  }

  /** The learning rate never rises from one epoch to a later one. */
  lemma {:induction false} LearningRateNonIncreasing(e1: int, e2: int)
    requires e1 <= e2
    ensures LearningRate(e2) <= LearningRate(e1)
  {
  }

  /** The number of epochs `range(n_epochs + 1)` runs: `n_epochs` is included. */
  function EpochCount(nEpochs: int): (k: nat)
    ensures nEpochs >= 0 ==> k == nEpochs + 1 && k - 1 == nEpochs
    ensures nEpochs < 0 ==> k == 0
  {
    if nEpochs + 1 > 0 then nEpochs + 1 else 0
  }

  /** Whether an epoch ends with a checkpoint. */
  predicate IsCheckpointEpoch(epoch: int) {
    epoch % 5 == 0
  }

  /** The checkpoint path up to the epoch: `"%s/%s_dataset_%dcaps_%dvec_"`. */
  function CheckpointPrefix(opt: Options): string {
    opt.outf + "/" + opt.dataset + "_dataset_" + PyFormat.Str(opt.latentCapsSize) + "caps_" +
    PyFormat.Str(opt.latentVecSize) + "vec_"
  }

  /** The checkpoint path of an epoch, `"%s/%s_dataset_%dcaps_%dvec_%d.pth"`. */
  function CheckpointName(opt: Options, epoch: int): string {
    CheckpointPrefix(opt) + PyFormat.Str(epoch) + ".pth"
  }

  /** A checkpoint path is the prefix, then the epoch in decimal, then ".pth". */
  lemma {:induction false} CheckpointNameShape(opt: Options, epoch: int)
    ensures var name, prefix := CheckpointName(opt, epoch), CheckpointPrefix(opt);
      |name| >= |prefix| + 5 &&
      name[..|prefix|] == prefix &&
      name[|name| - 4..] == ".pth" &&
      PyFormat.ParseInt(name[|prefix|..|name| - 4]) == epoch
  {
    var name, prefix, digits := CheckpointName(opt, epoch), CheckpointPrefix(opt), PyFormat.Str(epoch);
    PyFormat.FormatIntReadsBack(epoch, 0);
    assert name == prefix + digits + ".pth";
    assert name[|prefix|..|name| - 4] == digits;
  }

  /** No checkpoint overwrites one from another epoch. */
  lemma {:induction false} CheckpointNamesDistinct(opt: Options, e1: int, e2: int)
    requires e1 != e2
    ensures CheckpointName(opt, e1) != CheckpointName(opt, e2)
  {
    CheckpointNameShape(opt, e1);
    CheckpointNameShape(opt, e2);
  }

  /** The directory all runs log under. */
  const LogRoot: string := "./logs"

  /** The log directory up to the batch size. */
  function LogDirPrefix(opt: Options): string {
    LogRoot + "/" + LogName(opt)
  }

  /** The run's name under the log root, up to the batch size. */
  function LogName(opt: Options): string {
    opt.dataset + "_dataset_" + PyFormat.Str(opt.latentCapsSize) + "caps_" +
    PyFormat.Str(opt.latentVecSize) + "vec" + "_batch_size_"
  }

  /** The log directory, `./logs/<dataset>_dataset_<caps>caps_<vec>vec_batch_size_<batch size>`. */
  function LogDir(opt: Options): string {
    LogDirPrefix(opt) + PyFormat.Str(opt.batchSize)
  }

  /** The log directory lies under "./logs/" and ends with the batch size in decimal. */
  lemma {:induction false} LogDirShape(opt: Options)
    ensures var dir, prefix := LogDir(opt), LogDirPrefix(opt);
      |dir| > |prefix| &&
      dir[..|LogRoot| + 1] == LogRoot + "/" &&
      dir[..|prefix|] == prefix &&
      PyFormat.ParseInt(dir[|prefix|..]) == opt.batchSize
  {
    var dir, prefix, digits := LogDir(opt), LogDirPrefix(opt), PyFormat.Str(opt.batchSize);
    PyFormat.FormatIntReadsBack(opt.batchSize, 0);
    assert dir == prefix + digits;
    assert dir[|prefix|..] == digits;
    assert dir[..|LogRoot| + 1] == prefix[..|LogRoot| + 1];
  }

  /** Runs that differ only in batch size log to different directories. */
  lemma {:induction false} LogDirsSeparateBatchSizes(opt: Options, batchSize: int)
    requires batchSize != opt.batchSize
    ensures LogDir(opt.(batchSize := batchSize)) != LogDir(opt)
  {
    LogDirShape(opt);
    LogDirShape(opt.(batchSize := batchSize));
  }

  /** The logger step of batch `batchId` in `epoch`, over a loader of `len` batches. */
  function LoggerStep(len: int, epoch: int, batchId: int): int {
    len * epoch + batchId + 1
  }

  /** The steps of epoch `e` lie in `(len * e, len * (e + 1)]`. */
  lemma {:induction false} LoggerStepWithinEpoch(len: int, epoch: int, batchId: int)
    requires 0 <= batchId < len
    ensures len * epoch < LoggerStep(len, epoch, batchId) <= len * (epoch + 1)
  {
    assert len * (epoch + 1) == len * epoch + len;
  }

  /** Later batches, in the same epoch or a later one, log at strictly later steps. */
  lemma {:induction false} LoggerStepIncreasing(len: int, e1: int, b1: int, e2: int, b2: int)
    requires 0 <= b1 < len && 0 <= b2 < len
    requires e1 < e2 || (e1 == e2 && b1 < b2)
    ensures LoggerStep(len, e1, b1) < LoggerStep(len, e2, b2)
  {
    if e1 < e2 {
      LoggerStepWithinEpoch(len, e1, b1);
      LoggerStepWithinEpoch(len, e2, b2);
      assert len * (e1 + 1) <= len * e2 by {
        Arith.MulMono(e1 + 1, e2, len);
      }
    }
  }

  /** The datasets for which the script builds a training data loader. */
  predicate HasTrainLoader(dataset: string) {
    dataset == "shapenet_part" || dataset == "shapenet_core13"
  }

  /**
   * The index of the first batch holding fewer than `batchSize` clouds, or
   * the number of batches when there is none: the batches trained per epoch.
   */
  function FirstShort(sizes: seq<nat>, batchSize: int): (k: nat)
    ensures k <= |sizes|
    ensures forall i :: 0 <= i < k ==> sizes[i] >= batchSize
    ensures k < |sizes| ==> sizes[k] < batchSize
  {
    if sizes == [] || sizes[0] < batchSize then 0 else 1 + FirstShort(sizes[1..], batchSize)
  }

  /** The batches fetched per epoch: those trained, plus the short one that stops the epoch. */
  function Fetched(sizes: seq<nat>, batchSize: int): nat {
    var k := FirstShort(sizes, batchSize);
    if k < |sizes| then k + 1 else k
  }

  /** The logger steps of `epoch`'s first `count` batches, in order. */
  function EpochStepRun(len: int, epoch: int, count: nat): (steps: seq<int>)
    ensures |steps| == count
  {
    if count == 0 then [] else EpochStepRun(len, epoch, count - 1) + [LoggerStep(len, epoch, count - 1)]
  }

  /** Entry `b` of an epoch's step run is the step of batch `b`. */
  lemma {:induction false} EpochStepRunAt(len: int, epoch: int, count: nat, b: nat)
    requires b < count
    ensures EpochStepRun(len, epoch, count)[b] == LoggerStep(len, epoch, b)
  {
    if b < count - 1 {
      EpochStepRunAt(len, epoch, count - 1, b);
    }
  }

  /** The checkpoint an epoch writes: on a multiple of five, the epoch's checkpoint path. */
  function Checkpoint(opt: Options, epoch: int): (saved: Option<string>)
    ensures saved.Some? <==> IsCheckpointEpoch(epoch)
  {
    if IsCheckpointEpoch(epoch) then Some(CheckpointName(opt, epoch)) else None
  }

  /**
   * What one epoch over a loader of `len` batches, the first `trained` of
   * them full, leaves behind.
   */
  function EpochOutcome(opt: Options, len: int, trained: nat, epoch: int): EpochLog {
    EpochLog(LearningRate(epoch), EpochStepRun(len, epoch, trained), Checkpoint(opt, epoch))
  }

  /** The records of the first `k` epochs. */
  function Trace(opt: Options, len: int, trained: nat, k: nat): (log: seq<EpochLog>)
    ensures |log| == k
  {
    if k == 0 then [] else Trace(opt, len, trained, k - 1) + [EpochOutcome(opt, len, trained, k - 1)]
  }

  /** The outcome of the training script's main loop. */
  function TrainSpec(opt: Options, sizes: seq<nat>): Result<TrainLog, TrainError> {
    var epochs := EpochCount(opt.nEpochs);
    if !HasTrainLoader(opt.dataset) then Err(NotImplemented)
    else if epochs > 0 && |sizes| == 0 then Err(ZeroDivision)
    else Ok(TrainLog(Trace(opt, |sizes|, FirstShort(sizes, opt.batchSize), epochs), epochs * Fetched(sizes, opt.batchSize)))
  }

  /**
   * The script raises NotImplementedError for a dataset without a train
   * loader, and ZeroDivisionError when at least one epoch runs over an empty
   * loader; otherwise it records `n_epochs + 1` epochs (none for a negative
   * `n_epochs`).
   */
  lemma TrainOutcome(opt: Options, sizes: seq<nat>)
    ensures TrainSpec(opt, sizes) == Err(NotImplemented) <==> !HasTrainLoader(opt.dataset)
    ensures TrainSpec(opt, sizes) == Err(ZeroDivision) <==>
      HasTrainLoader(opt.dataset) && opt.nEpochs >= 0 && |sizes| == 0
    ensures TrainSpec(opt, sizes).Ok? ==> |TrainSpec(opt, sizes).value.epochs| == EpochCount(opt.nEpochs)
  {
  }

  /**
   * A run covers the epochs `0 .. n_epochs` inclusive: `n_epochs + 1`
   * records, record `e` being what epoch `e` does, so epoch `n_epochs`
   * itself runs at its tier's rate and writes its checkpoint when it is a
   * multiple of five.
   */
  lemma {:induction false} EpochsRunInclusive(opt: Options, sizes: seq<nat>)
    requires TrainSpec(opt, sizes).Ok? && opt.nEpochs >= 0
    ensures var log := TrainSpec(opt, sizes).value;
      |log.epochs| == opt.nEpochs + 1 &&
      forall e :: 0 <= e <= opt.nEpochs ==>
        log.epochs[e] == EpochOutcome(opt, |sizes|, FirstShort(sizes, opt.batchSize), e)
  {
    var t, k := FirstShort(sizes, opt.batchSize), EpochCount(opt.nEpochs);
    assert TrainSpec(opt, sizes).value.epochs == Trace(opt, |sizes|, t, k);
    forall e | 0 <= e <= opt.nEpochs
      ensures Trace(opt, |sizes|, t, k)[e] == EpochOutcome(opt, |sizes|, t, e)
    {
      TraceAt(opt, |sizes|, t, k, e);
    }
  }

  /**
   * The epoch and batch loops of the training script over a loader whose
   * batches have the given sizes.
   */
  method Train(opt: Options, batchSizes: seq<nat>) returns (r: Result<TrainLog, TrainError>)
    ensures r == TrainSpec(opt, batchSizes)
  {
    if !HasTrainLoader(opt.dataset) {
      return Err(NotImplemented);
    }
    var len := |batchSizes|;
    ghost var trained, perEpoch := FirstShort(batchSizes, opt.batchSize), Fetched(batchSizes, opt.batchSize);
    var globalIter: nat := 0;
    var epochs: seq<EpochLog> := [];
    for epoch := 0 to EpochCount(opt.nEpochs)
      invariant epochs == Trace(opt, len, trained, epoch)
      invariant globalIter == epoch * perEpoch
      invariant epoch > 0 ==> len > 0
    {
      var lr := LearningRate(epoch);
      var steps, fetched := TrainEpoch(opt, batchSizes, epoch);
      globalIter := globalIter + fetched;
      if len == 0 {
        return Err(ZeroDivision);
      }
      var saved: Option<string> := None;
      if epoch % 5 == 0 {
        saved := Some(CheckpointName(opt, epoch));
      }
      assert EpochLog(lr, steps, saved) == EpochOutcome(opt, len, trained, epoch);
      epochs := epochs + [EpochLog(lr, steps, saved)];
      Arith.MulPred(epoch + 1, perEpoch);
    }
    return Ok(TrainLog(epochs, globalIter));
  }

  /**
   * One pass over the loader: the logger steps of the batches trained and
   * the number of batches fetched, the short batch that ends the pass included.
   */
  method TrainEpoch(opt: Options, batchSizes: seq<nat>, epoch: int) returns (steps: seq<int>, fetched: nat)
    ensures steps == EpochStepRun(|batchSizes|, epoch, FirstShort(batchSizes, opt.batchSize))
    ensures fetched == Fetched(batchSizes, opt.batchSize)
  {
    var len := |batchSizes|;
    ghost var trained := FirstShort(batchSizes, opt.batchSize);
    steps, fetched := [], 0;
    var batchId := 0;
    ghost var stopped := false;
    while batchId < len
      invariant batchId <= trained
      invariant fetched == batchId + (if stopped then 1 else 0)
      invariant steps == EpochStepRun(len, epoch, batchId)
      invariant stopped ==> batchId == trained < len
    {
      fetched := fetched + 1;
      if batchSizes[batchId] < opt.batchSize {
        stopped := true;
        break;
      }
      steps := steps + [LoggerStep(len, epoch, batchId)];
      batchId := batchId + 1;
    }
  }

  /** Epoch `e` of a run is recorded at index `e`, whatever the later epochs. */
  lemma {:induction false} TraceAt(opt: Options, len: int, trained: nat, k: nat, e: nat)
    requires e < k
    ensures Trace(opt, len, trained, k)[e] == EpochOutcome(opt, len, trained, e)
  {
    if e < k - 1 {
      TraceAt(opt, len, trained, k - 1, e);
    }
  }

  /**
   * Each recorded epoch ran at its tier's learning rate, logged one step per
   * trained batch, batch `b` at `LoggerStep`, and wrote a checkpoint exactly
   * on a multiple of five.
   */
  lemma {:induction false} TraceRecordsEpochs(opt: Options, len: int, trained: nat, k: nat, e: nat)
    requires e < k
    ensures var rec := Trace(opt, len, trained, k)[e];
      rec.lr == LearningRate(e) &&
      |rec.steps| == trained &&
      (forall b :: 0 <= b < trained ==> rec.steps[b] == LoggerStep(len, e, b)) &&
      (rec.checkpoint.Some? <==> e % 5 == 0) &&
      (rec.checkpoint.Some? ==> rec.checkpoint.value == CheckpointName(opt, e))
  {
    TraceAt(opt, len, trained, k, e);
    forall b | 0 <= b < trained
      ensures EpochStepRun(len, e, trained)[b] == LoggerStep(len, e, b)
    {
      EpochStepRunAt(len, e, trained, b);
    }
  }

  /** The logger steps of a run's epochs, one after the other. */
  function AllSteps(log: seq<EpochLog>): seq<int> {
    if log == [] then [] else AllSteps(log[..|log| - 1]) + log[|log| - 1].steps
  }

  lemma {:induction false} AllStepsOneMore(opt: Options, len: int, trained: nat, k: nat)
    requires k > 0
    ensures AllSteps(Trace(opt, len, trained, k)) ==
      AllSteps(Trace(opt, len, trained, k - 1)) + EpochStepRun(len, k - 1, trained)
  {
    var log := Trace(opt, len, trained, k);
    assert log[..k - 1] == Trace(opt, len, trained, k - 1);
  }

  /** A run of `k` epochs logs `trained` losses in each. */
  lemma {:induction false} StepCount(opt: Options, len: int, trained: nat, k: nat)
    ensures |AllSteps(Trace(opt, len, trained, k))| == k * trained
  {
    if k == 0 {
      assert Trace(opt, len, trained, 0) == [];
    } else {
      StepCount(opt, len, trained, k - 1);
      AllStepsOneMore(opt, len, trained, k);
      Arith.MulPred(k, trained);
    }
  }

  ghost predicate StrictlyIncreasing(s: seq<int>) {
    forall i, j :: 0 <= i < j < |s| ==> s[i] < s[j]
  }

  /**
   * Over any number of epochs the logger steps strictly increase, and after
   * `k` epochs they are all at most `len * k`: the trained batches are among
   * the loader's `len`.
   */
  lemma {:induction false} TraceStepsIncrease(opt: Options, len: nat, trained: nat, k: nat)
    requires trained <= len
    ensures StrictlyIncreasing(AllSteps(Trace(opt, len, trained, k)))
    ensures forall x :: x in AllSteps(Trace(opt, len, trained, k)) ==> x <= len * k
  {
    if k == 0 {
      assert Trace(opt, len, trained, 0) == [];
    } else {
      var e := k - 1;
      TraceStepsIncrease(opt, len, trained, e);
      AllStepsOneMore(opt, len, trained, k);
      var before, added := AllSteps(Trace(opt, len, trained, e)), EpochStepRun(len, e, trained);
      EpochStepRunWithin(len, e, trained);
      EpochStepRunIncreasing(len, e, trained);
      AppendIncreasing(before, added, len * e);
      Arith.MulMono(e, k, len);
      AppendBounded(before, added, len * k);
    }
  }

  /** The steps of epoch `e` lie in `(len * e, len * (e + 1)]`. */
  lemma {:induction false} EpochStepRunWithin(len: nat, e: int, count: nat)
    requires count <= len
    ensures forall i :: 0 <= i < count ==> len * e < EpochStepRun(len, e, count)[i] <= len * (e + 1)
  {
    forall i | 0 <= i < count
      ensures len * e < EpochStepRun(len, e, count)[i] <= len * (e + 1)
    {
      EpochStepRunAt(len, e, count, i);
      LoggerStepWithinEpoch(len, e, i);
    }
  }

  /** Two sequences within a bound join into one within it. */
  lemma {:induction false} AppendBounded(s: seq<int>, u: seq<int>, bound: int)
    requires forall x :: x in s ==> x <= bound
    requires forall i :: 0 <= i < |u| ==> u[i] <= bound
    ensures forall x :: x in s + u ==> x <= bound
  {
  }

  /** Within an epoch the steps increase with the batch. */
  lemma {:induction false} EpochStepRunIncreasing(len: int, epoch: int, count: nat)
    ensures StrictlyIncreasing(EpochStepRun(len, epoch, count))
  {
    var run := EpochStepRun(len, epoch, count);
    forall i, j | 0 <= i < j < |run|
      ensures run[i] < run[j]
    {
      EpochStepRunAt(len, epoch, count, i);
      EpochStepRunAt(len, epoch, count, j);
    }
  }

  /** Two increasing runs, the second above a bound the first stays within, join into one. */
  lemma {:induction false} AppendIncreasing(s: seq<int>, u: seq<int>, bound: int)
    requires StrictlyIncreasing(s) && StrictlyIncreasing(u)
    requires forall x :: x in s ==> x <= bound
    requires forall i :: 0 <= i < |u| ==> bound < u[i]
    ensures StrictlyIncreasing(s + u)
  {
    forall i, j | 0 <= i < j < |s + u|
      ensures (s + u)[i] < (s + u)[j]
    {
      if i < |s| <= j {
        assert s[i] in s;
      }
    }
  }

  /** Whether some epoch of a run wrote the file at `path`. */
  ghost predicate Saved(log: seq<EpochLog>, path: string) {
    exists i :: 0 <= i < |log| && log[i].checkpoint == Some(path)
  }

  /** A run of `k` epochs writes the checkpoint of epoch `e` exactly when `e` is one of its epochs and a multiple of five. */
  lemma {:induction false} CheckpointWrittenIff(opt: Options, len: int, trained: nat, k: nat, e: int)
    ensures Saved(Trace(opt, len, trained, k), CheckpointName(opt, e)) <==> 0 <= e < k && IsCheckpointEpoch(e)
  {
    var log, path := Trace(opt, len, trained, k), CheckpointName(opt, e);
    if Saved(log, path) {
      var i :| 0 <= i < |log| && log[i].checkpoint == Some(path);
      TraceAt(opt, len, trained, k, i);
      if i != e {
        CheckpointNamesDistinct(opt, i, e);
      }
    }
    if 0 <= e < k && IsCheckpointEpoch(e) {
      TraceAt(opt, len, trained, k, e);
      assert log[e].checkpoint == Some(path);
    }
  }

  /**
   * A run's iteration counter counts every batch fetched: the trained
   * batches, whose losses are logged, plus one short batch per epoch when
   * the loader yields one.
   */
  lemma {:induction false} GlobalIterCountsFetched(opt: Options, sizes: seq<nat>)
    requires TrainSpec(opt, sizes).Ok?
    ensures var log := TrainSpec(opt, sizes).value;
      var epochs := EpochCount(opt.nEpochs);
      log.globalIter == |AllSteps(log.epochs)| + (if FirstShort(sizes, opt.batchSize) < |sizes| then epochs else 0)
  {
    var epochs, t := EpochCount(opt.nEpochs), FirstShort(sizes, opt.batchSize);
    assert TrainSpec(opt, sizes).value == TrainLog(Trace(opt, |sizes|, t, epochs), epochs * Fetched(sizes, opt.batchSize));
    StepCount(opt, |sizes|, t, epochs);
    Arith.MulSucc(epochs, t);
  }
}

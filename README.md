# Structural-aware 3D capsule network: loader, patch and training bookkeeping

This project models the index and bookkeeping logic of the structural-aware 3D point-capsule network scripts, and proves properties of that model. It covers three pieces:

- **The latent-capsule batch loader** (`LatentLoader`, `latent_loader.dfy`), the `DataLoader` of the flow trainer.
  - A class whose one piece of state is the `startPos` cursor.
  - `NextBatch` advances the cursor by the batch size, wrapping it to 0 once it reaches `trainSize`.
  - It then loads the rows of the clamped range `[start, end)` from files named `<base>_%03d.pt`.
  - The directory is a parameter: a map from file name to flattened tensor.
  - A missing file raises `FileNotFound`. A flattened tensor that is not `N_DIM` long raises `RowSizeMismatch`, the failure of `torch.cat`.
  - A batch size of 0 reads `[0, train_size + 1)`. This is one index past the last file, and it is reproduced as written: `WholeDatasetReadsOnePast` shows that a directory holding exactly the files `0 .. train_size - 1` makes that call fail on the file `train_size`.
  - `batch_range` refers to `math`, which the module never imports. It is modelled as written, raising NameError, and as intended (see "## Findings").
- **Per-capsule patch extraction in the visualisation script** (`PatchViz`, `patch_viz.dfy`).
  - Slot `m` of capsule `j`'s patch is reconstruction point `latent_caps_size * m + j`.
  - Each patch is painted: a palette colour through the `jc` counter for highlighted capsules, grey for the others, or nothing in the branch whose painting is commented out.
  - The patches are appended to one merged cloud in capsule order.
  - The outer loop stops at the first batch with fewer than `batch_size` clouds.
  - Reading past the end of a reconstruction raises IndexError.
- **The training loop of the autoencoder** (`TrainAE`, `train_ae.dfy`).
  - The learning-rate tier of each epoch, with exact decimals.
  - The inclusive epoch range `range(n_epochs + 1)`.
  - A checkpoint every fifth epoch, with its `"%s/%s_dataset_%dcaps_%dvec_%d.pth"` name.
  - The logger step `len * epoch + batch_id + 1`.
  - The break on a short batch. The iteration counter still counts that batch.
  - The log-directory name.
  - NotImplementedError for a dataset without a train loader, and ZeroDivisionError for the per-epoch average over an empty loader.
  - A run is recorded as one `EpochLog` per epoch: its learning rate, the logger steps of its losses, and the checkpoint file it wrote.

`PyFormat` (`pyformat.dfy`) models Python's `str(i)`, `"%d" % i` and `"%03d" % i` for integers. It includes a parser, so that formatted names provably read back. `Results` (`results.dfy`) holds the `Result` and `Option` types, and `Arith` (`arith.dfy`) the few facts about multiplication the proofs use.

## Model

| member | source | states |
|---|---|---|
| PyFormat.FormatIntReadsBack | main/Flow/utils.py:35 | `"%0<w>d" % i` is at least `w` characters (and at least one) and reads back as `i`, for every integer and width; the sign counts in the width |
| PyFormat.ZeroPadShape | main/Flow/utils.py:35 | zero padding keeps the digits at the end and puts only '0' in front, up to the width |
| PyFormat.DigitsWellFormed | main/AE/train_ae.py:47 | `str(n)` of a natural number is all digits, with a leading '0' only for 0 |
| PyFormat.DigitsRoundTrip | main/AE/train_ae.py:47 | the decimal digits of `n` parse back to `n` |
| LatentLoader.LatentFileNameShape | main/Flow/utils.py:35 | the file for index `i` is the base name, '_', at least three characters that read back as `i`, then ".pt" |
| LatentLoader.LatentFileNameInjective | main/Flow/utils.py:35 | distinct indices never share a file name |
| LatentLoader.NextStart | main/Flow/utils.py:22-25 | the new cursor is `old + b` when that is below `train_size`, otherwise 0; it is 0 or below `train_size` |
| LatentLoader.BatchSpan | main/Flow/utils.py:22-31 | `b == 0` reads `[0, train_size + 1)`; otherwise the range starts at the old cursor, ends at or before both `train_size` and `old + b`, ends where the next call starts unless the cursor wraps, is non-empty from inside the directory, and a wrapping call reads up to `train_size` |
| LatentLoader.LoadRowsSucceedsIff | main/Flow/utils.py:33-43 | loading a range succeeds exactly when every index in it has a file whose flattened tensor is `N_DIM` long |
| LatentLoader.LoadRowsContents | main/Flow/utils.py:33-43 | a successful load returns `hi - lo` rows; row `k` is the contents of the file for index `lo + k` and is `N_DIM` long |
| LatentLoader.WholeDatasetReadsOnePast | main/Flow/utils.py:29-37 | with batch size 0, a directory of exactly the files `0 .. n - 1` (all well formed) fails with FileNotFound for the file of index `n` |
| LatentLoader.LoadRange | main/Flow/utils.py:33-43 | the file-by-file loop returns what `LoadRows` describes: the rows in index order, or the error at the first bad index |
| LatentLoader.CeilDiv | main/Flow/utils.py:48 | exact ceiling of `n / b` for positive and negative `b` |
| LatentLoader.DataLoader.constructor | main/Flow/utils.py:11-18 | a fresh loader has its cursor at 0, over `train_size` files |
| LatentLoader.DataLoader.NextBatch | main/Flow/utils.py:21-43 | the cursor moves to `NextStart(old, b, train_size)`, even when loading then fails; the result is the load of `BatchSpan(old, b, train_size)`; the cursor is 0 or below `train_size` afterwards |
| LatentLoader.DataLoader.BatchRangeAsWritten | main/Flow/utils.py:45-48 | returns 1 for batch size 0 and raises NameError for every other batch size |
| LatentLoader.DataLoader.BatchRange | main/Flow/utils.py:45-48 | 1 for batch size 0, otherwise the least number of batches covering `train_size` (`ceil(train_size / b)`) |
| LatentLoader.BatchRangeRaises | main/Flow/utils.py:45-48 | over 100 files, `batch_range(20)` raises NameError where 5 was meant |
| LatentLoader.EpochTiles | main/Flow/utils.py:21-26 | from a fresh loader, call `k` before the wrap starts at `k * b` and reads `[k * b, min((k + 1) * b, n))`, so consecutive ranges are adjacent |
| LatentLoader.EpochWraps | main/Flow/utils.py:21-26 | after `ceil(n / b)` calls the cursor is back at 0, and the last of them read up to `n` |
| LatentLoader.PositiveBatchLoads | main/Flow/utils.py:21-43 | on a complete directory, a positive batch from inside it loads one row per index, and at least one |
| PatchViz.PatchLen | main/AE/viz_reconstruction.py:114-115 | `int(num_points / latent_caps_size)` is the largest slot count whose patches fit in `num_points` |
| PatchViz.SourceIndexInRange | main/AE/viz_reconstruction.py:113-116 | every point read, `latent_caps_size * m + j`, lies below `latent_caps_size * slots <= num_points` |
| PatchViz.SourceIndexInjective | main/AE/viz_reconstruction.py:113-116 | no reconstruction point fills two slots |
| PatchViz.SourceIndexCovers | main/AE/viz_reconstruction.py:113-116 | every point below `latent_caps_size * slots` is read, point `i` filling slot `i / caps` of capsule `i % caps` |
| PatchViz.PatchesPartitionPoints | main/AE/viz_reconstruction.py:113-116 | when `latent_caps_size` divides `num_points`, the patches cover every point exactly once |
| PatchViz.DefaultHighlightPaintsByIndex | main/AE/viz_reconstruction.py:112-121 | with the highlight list `[0..19]` of line 50, capsule `j` is painted palette colour `j % 20` |
| PatchViz.DefaultHighlightCountsAll | main/AE/viz_reconstruction.py:112-121 | with the list `[0..19]`, `jc` equals `j` when capsule `j` is painted |
| PatchViz.MergedLength | main/AE/viz_reconstruction.py:113-124 | the merged cloud of `upto` capsules has `upto * slots` points |
| PatchViz.MergedAt | main/AE/viz_reconstruction.py:113-124 | position `j * slots + m` of the merged cloud holds point `caps * m + j`, painted capsule `j`'s colour |
| PatchViz.MergedLayout | main/AE/viz_reconstruction.py:111-124 | the merged cloud holds `upto * slots` points, capsule by capsule, each slot at its place with its capsule's colour |
| PatchViz.ExtractPatch | main/AE/viz_reconstruction.py:114-117 | the patch buffer is filled exactly when every strided index is inside the reconstruction; slot `m` is point `caps * m + j` |
| PatchViz.MergeCloud | main/AE/viz_reconstruction.py:108-124 | the capsule loop returns `MergeSpec`: the merged painted cloud, or IndexError when the reconstruction is shorter than `caps * slots` |
| PatchViz.MergeSpecShape | main/AE/viz_reconstruction.py:108-124 | a reconstruction of at least `num_points` points never raises and merges into `caps * slots` points |
| PatchViz.ShortBatchStops | main/AE/viz_reconstruction.py:83-136 | in both branches (the break at lines 85-86 and at lines 135-136), a batch with fewer than `batch_size` clouds ends the loop: nothing from it or any later batch is shown |
| PatchViz.FullBatchesQueueAll | main/AE/viz_reconstruction.py:132-142 | when no batch is short, `batch_size` clouds are shown from every batch, cloud `p` of batch `i` at position `i * batch_size + p` |
| PatchViz.ShowBatch | main/AE/viz_reconstruction.py:101-160 | one batch shows its first `batch_size` merged clouds in order, or those before the first that raises and then the exception; with `paint` set this is the loop at lines 101-126, without it the loop at lines 142-160 |
| PatchViz.ShowBatches | main/AE/viz_reconstruction.py:132-160 | the loop over batches shows what `ShowAll` of the queued clouds describes |
| PatchViz.MergeSpecOk | main/AE/viz_reconstruction.py:113-116 | a reconstruction of at least `num_points` points merges without raising |
| PatchViz.ShowAllShowsEach | main/AE/viz_reconstruction.py:142-160 | when every queued reconstruction has at least `num_points` points nothing raises, and one merged cloud is shown per reconstruction, in queue order |
| TrainAE.LearningRate | main/AE/train_ae.py:73-78 | the learning rate of every epoch lies between 0.0001 and 0.01 |
| TrainAE.LearningRateIsStepDecay | main/AE/train_ae.py:73-78 | the tiers are 0.01 divided by ten for each of the milestones 50 and 150 reached |
| TrainAE.LearningRateNonIncreasing | main/AE/train_ae.py:73-78 | the learning rate never rises from one epoch to a later one |
| TrainAE.EpochsRunInclusive | main/AE/train_ae.py:72 | a run of `range(n_epochs + 1)` records `n_epochs + 1` epochs, record `e` being what epoch `e` does, so epoch `n_epochs` itself runs at its tier's rate and writes its checkpoint when it is a multiple of five |
| TrainAE.CheckpointNameShape | main/AE/train_ae.py:122-123 | a checkpoint path is the `"%s/%s_dataset_%dcaps_%dvec_"` prefix, the epoch in decimal, then ".pth" |
| TrainAE.CheckpointNamesDistinct | main/AE/train_ae.py:122-124 | no checkpoint overwrites that of another epoch |
| TrainAE.LogDirShape | main/AE/train_ae.py:47 | the log directory lies under "./logs/" and ends with the batch size in decimal after the run name |
| TrainAE.LogDirsSeparateBatchSizes | main/AE/train_ae.py:47 | runs differing only in batch size log to different directories |
| TrainAE.LoggerStepWithinEpoch | main/AE/train_ae.py:112-113 | the steps of epoch `e` lie in `(len * e, len * (e + 1)]` |
| TrainAE.LoggerStepIncreasing | main/AE/train_ae.py:112-113 | a later batch, in the same epoch or a later one, logs at a strictly later step |
| TrainAE.FirstShort | main/AE/train_ae.py:83-88 | the batches trained per epoch are those before the first short batch: all of them full, and the next one short if there is one |
| TrainAE.TrainOutcome | main/AE/train_ae.py:71-128 | NotImplementedError exactly for a dataset without a train loader; ZeroDivisionError exactly when an epoch runs over an empty loader; otherwise `n_epochs + 1` epochs are recorded |
| TrainAE.Train | main/AE/train_ae.py:66-128 | the epoch loop returns `TrainSpec`: the errors above, or the records of every epoch with the final `global_iter` |
| TrainAE.TrainEpoch | main/AE/train_ae.py:83-113 | one pass logs the steps of the batches before the first short one and counts every batch fetched, the short one included |
| TrainAE.TraceAt | main/AE/train_ae.py:72-124 | epoch `e` of a run is recorded at index `e`, whatever the later epochs |
| TrainAE.TraceRecordsEpochs | main/AE/train_ae.py:72-124 | each recorded epoch ran at its tier's learning rate, logged one step per trained batch, batch `b` at `len * e + b + 1`, and wrote the checkpoint of epoch `e` exactly on a multiple of five |
| TrainAE.StepCount | main/AE/train_ae.py:83-113 | a run of `k` epochs logs `k * trained` losses |
| TrainAE.TraceStepsIncrease | main/AE/train_ae.py:112-113 | over a whole run the logger steps strictly increase and stay at most `len * k` |
| TrainAE.CheckpointWrittenIff | main/AE/train_ae.py:121-124 | a run of `k` epochs writes the checkpoint file of epoch `e` exactly when `0 <= e < k` and `e` is a multiple of five |
| TrainAE.GlobalIterCountsFetched | main/AE/train_ae.py:84-88 | `global_iter` counts every batch fetched: the losses logged plus one short batch per epoch when the loader yields one |

## Left out

- The torch, FrEIA and Open3D calls: the capsule network's forward and backward passes, the decoder, the Chamfer and reconstruction losses, the optimiser's arithmetic, `gen_inn` (main/Flow/utils.py:50-57) and `draw_geometries`. They are library code that is not part of this model.
- Floating-point values: loss sums, averages and colours. Learning rates are exact decimals. The ZeroDivisionError of the average-loss print is kept.
- I/O:
  - `os.listdir` counting is replaced by the `trainSize` parameter of `LatentLoader.DataLoader.constructor`.
  - `os.path.join` with the directory is not modelled: file names are the base name and the formatted index.
  - `torch.load` reads from the `files` map parameter.
  - `torch.save`, `os.makedirs` and the logger backend are recorded only as the paths and steps they receive.
- The device argument, CUDA, `DataParallel`, `num_workers`, shuffling and the external dataset loaders. A training loader is described only by the sizes of the batches it yields, in order.
- Printing, argparse and the `batch_id % 50` progress line.
- main/Flow/train_flow.py, a fixed-iteration driver with a hard-coded path, is not part of this model beyond the `next_batch` it calls.
- `LOGGING` is taken as on. The `log_dir` string and the logger steps are modelled; `Logger` itself is not.
- `PatchViz.PatchLen`: `int(num_points / latent_caps_size)` goes through a float. For the natural-number sizes modelled it is taken as exact integer division. Negative or zero sizes from the command line are not modelled, apart from 0 capsules, which yields an empty cloud.
- `PatchViz.MergeCloud`: each capsule's patch is modelled as a fresh value. The reuse of the same `pcd_list[j]` objects across clouds is not modelled, because the merged cloud copies their points.
- `PatchViz.ShowBatches`: the shapenet_part branch also shows the raw points and a second decoding before each merged cloud (main/AE/viz_reconstruction.py:91-105). Those are library renders; only the merged clouds are modelled, with painting switched on by the `paint` flag.
- `LatentLoader.DataLoader.NextBatch`: `train_set`, `test_set` and the class attribute `start_pos` are never used as shared state. The cursor is a per-instance field.
- `TrainAE.Train`: the per-epoch optimiser is recorded only by its learning rate. The loss logged at each step is recorded only by the step number.

## Findings

| source | as written | input that shows it | evidently intended | confidence | as-written member | corrected member |
|---|---|---|---|---|---|---|
| main/Flow/utils.py:45-48 | `batch_range` calls `math.ceil`, but the module never imports `math` | `batch_range(20)` on a loader over 100 files raises NameError | `ceil(train_size / batch_size)`, i.e. 5 for that input | high; not executed | LatentLoader.DataLoader.BatchRangeAsWritten | LatentLoader.DataLoader.BatchRange |

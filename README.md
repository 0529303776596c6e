# Road segmentation training core, modelled in Dafny

This project models the two pieces of plain logic inside a PyTorch training
codebase for road segmentation of satellite images.

- **Patch labelling and the dataset sample pipeline** (`scripts/preprocessing.py`).
  - `get_class` labels a block of pixels 1 (road) when its mean is above a threshold.
  - `get_patched_classification` fills a zero-initialised copy of a 2D array with
    the label of each 16×16 patch.
  - `RoadDataset` holds images, optional masks and two optional processing steps.
    It turns index `i` into a channel-first (image, mask) sample.
- **Metric bookkeeping and the epoch loop** (`scripts/training.py`).
  - `MetricMonitor` keeps running averages per metric name, in insertion order.
  - The per-batch loops of `train_epoch` and `valid_epoch` feed it.
  - `train_model` collects per-epoch histories.
  - `tune_hyperparams` computes the cosine schedule length and looks up the loss
    by name.

Files, one module each:

- `common.dfy` (`Common`): the Python exceptions kept by the model (`IndexError`,
  `AxisError`, `ValueError`, `KeyError`, `ZeroDivisionError`), `Result`, `Option`, Python list indexing
  (negative indices count from the back), and `Sum`.
- `ndarrays.dfy` (`NdArrays`): a numpy array as its shape plus its elements in
  row-major order. It provides `np.zeros`, `np.where(m >= 0.5, 1, 0)`,
  `np.expand_dims(m, 0)` and `np.moveaxis(a, -1, 0)`. In any rank, `moveaxis` is
  the transpose of the (other axes) × (last axis) grid.
- `patching.dfy` (`Patching`): `get_class`, and `get_patched_classification` as
  nested loops over an `array2<real>`. Each numpy slice assignment has its bounds
  clipped at the edges with `Clip`, then `FillBlock` writes the block.
- `dataset.dfy` (`Dataset`): the `__getitem__` pipeline as a function, and the
  `RoadDataset` class with `__init__`, `__getitem__`, `set_tf` and `__len__`.
- `metrics.dfy` (`Metrics`): the monitor's dictionary as a value (`Table`) with its
  update step, and the `MetricMonitor` class whose methods are proved against it.
- `training.dfy` (`Training`): the epoch loop, `valid_epoch`, `train_model`, the
  criterion lookup, the schedule length and `tune_hyperparams`.

Behaviour reproduced from the code as written:

- **Swapped tile offsets.** In `get_patched_classification` the column offset `x`
  ranges below the number of ROWS and the row offset `y` below the number of
  COLUMNS. A square input is tiled completely. In a non-square input, a cell whose
  column patch starts at or past the row count stays 0, and so does a cell whose
  row patch starts at or past the column count. `WideAllOnesKeepsRightPatchZero`
  shows this on a 16×32 all-ones input.
- **Empty block.** `get_class` of an empty block is 0, because the mean of nothing
  is NaN and NaN compares false.
- **Dummy mask.** With no masks, the dummy mask has the image's whole shape,
  channel axis included, not just its spatial shape.
- **Masks.** An empty list of mask paths counts as no masks.
- **Falsy validation loader.** A validation loader with no batches is falsy
  because a DataLoader has a `len`. Its epochs are skipped like an absent loader.
  An empty training loader instead makes the first epoch fail when its empty
  averages are unpacked (`ValueError`).
- **Unknown criterion.** An unknown loss name fails with the `KeyError` of a plain
  dictionary lookup. It fails before any training starts.
- **No shape check.** The code never checks that image and mask shapes match, so
  the model does not either.
- **Schedule length.** It is `(dataset length × epochs) // batch size`. Python's
  `//` floors. Dafny's `/` on `int` is Euclidean. The two agree because the batch
  size is positive by then.
- **Zero-length schedule.** When all planned epochs hold fewer samples than one
  batch, T_max is 0. The cosine schedule then divides by zero at the first
  `scheduler.step()` of the first training batch, so the trial fails with
  `ZeroDivisionError`.

## Model

| member | source | states |
|---|---|---|
| `Common.PyIndex` | scripts/preprocessing.py:38-41 | a list index is valid exactly when -n ≤ i < n, and then addresses position i (counted from the back when negative) |
| `Patching.GetClass` | scripts/preprocessing.py:104-114 | the label is 0 or 1, and 1 exactly when the block is non-empty and its sum exceeds threshold × size, i.e. its mean is strictly above the threshold |
| `Patching.MeanAtThresholdIsBackground` | scripts/preprocessing.py:114 | a block whose mean equals the threshold exactly is labelled 0 |
| `Patching.BlockAtMostThresholdIsBackground` | scripts/preprocessing.py:114 | a block with no value above the threshold, including an empty one, is labelled 0 |
| `Patching.BlockAboveThresholdIsRoad` | scripts/preprocessing.py:114 | a non-empty block with every value above the threshold is labelled 1 |
| `Patching.FillBlock` | scripts/preprocessing.py:131-133 | the slice assignment sets every cell of the clipped block to the value and leaves every other cell as it was |
| `Patching.GetPatchedClassification` | scripts/preprocessing.py:117-135 | the result is a new array of the input's shape, and each cell holds the label of its patch when the swapped-offset loops reach it, else 0 |
| `Patching.FillPatchColumn` | scripts/preprocessing.py:130-133 | one pass of the inner `y` loop at column offset x writes the labels of every row patch in column patch x, leaving the rest as it was |
| `Patching.PatchedCellIsBinary` | scripts/preprocessing.py:127-133 | every cell of the result is 0 or 1 |
| `Patching.SquarePatchLabel` | scripts/preprocessing.py:129-133 | on a square input, cell (r, c) is the label of the block with rows [16⌊r/16⌋, min(n, 16⌊r/16⌋+16)) and the same column range |
| `Patching.PatchedConstantOnTiles` | scripts/preprocessing.py:129-133 | two cells in the same 16×16 patch get the same value |
| `Patching.AllZeroGivesAllZero` | scripts/preprocessing.py:127-133 | an all-zero input of any shape gives an all-zero result |
| `Patching.AllOnesSquareGivesAllOnes` | scripts/preprocessing.py:127-133 | an all-ones square input gives an all-ones result |
| `Patching.UncoveredCellsStayZero` | scripts/preprocessing.py:129-132 | a cell whose column patch starts at or past the row count, or whose row patch starts at or past the column count, stays 0 |
| `Patching.WideAllOnesKeepsRightPatchZero` | scripts/preprocessing.py:129-132 | on a 16×32 all-ones input the left patch is 1 but the right patch stays 0 |
| `NdArrays.Zeros` | scripts/preprocessing.py:43 | `np.zeros(shape)` has that shape and only zero elements |
| `NdArrays.Binarize` | scripts/preprocessing.py:41 | same shape; each element is 1 exactly when the stored value is at least 0.5, else 0 |
| `NdArrays.ExpandDims0` | scripts/preprocessing.py:59 | one leading axis of length 1 is added and the elements are unchanged |
| `NdArrays.MoveLastAxisFirst` | scripts/preprocessing.py:58 | `np.moveaxis(a, -1, 0)` puts the last axis first, keeps the other axes in order, and keeps the number of elements |
| `NdArrays.MoveLastAxisFirstAt` | scripts/preprocessing.py:58 | in any rank, element (k, rest) of `moveaxis(a, -1, 0)` is element (rest, k) of `a`, and the last axis becomes the first |
| `NdArrays.ChannelFirstAt` | scripts/preprocessing.py:58 | an (H, W, C) image becomes (C, H, W) with out[c][h][w] = in[h][w][c] |
| `Dataset.GetSampleErrors` | scripts/preprocessing.py:36-58 | `__getitem__` raises IndexError exactly when the index is outside the images, or outside the stored masks when there are any; its only other failure is the moveaxis AxisError |
| `Dataset.StoredMaskIsBinarised` | scripts/preprocessing.py:40-44 | with masks stored and no transform and no preprocessing step, mask cell k is 1 when the stored value is ≥ 0.5 and 0 otherwise, under one extra leading axis of size 1 |
| `Dataset.DummyMaskIsZero` | scripts/preprocessing.py:40-44 | without masks and with no transform and no preprocessing step, the mask is all zeros with exactly the image's shape, channel axis included, under one extra leading axis |
| `Dataset.ImageIsChannelFirst` | scripts/preprocessing.py:57-58 | with no transform and no preprocessing step, the returned image satisfies out[c][h][w] = in[h][w][c] |
| `Dataset.ProcessedSampleIsLaidOut` | scripts/preprocessing.py:46-61 | for any transform and preprocessing step, the returned image is the processed (H, W, C) image as (C, H, W) with out[c][h][w] = in[h][w][c], and the returned mask is the processed mask under a leading axis of length 1 |
| `Dataset.GetSample` | scripts/preprocessing.py:36-61 | `__getitem__` fails only with IndexError or AxisError, and every returned mask has a leading axis of length 1 |
| `Dataset.RoadDataset.GetItem` | scripts/preprocessing.py:36-61 | on the dataset's own fields, IndexError exactly when the index is outside `-len .. len-1`, or outside the stored masks when there are any |
| `Dataset.RoadDataset.Len` | scripts/preprocessing.py:71-72 | `len` is the bound of the valid indices: exactly the indices from -len to len-1 address an image, and `__getitem__` of any other index raises IndexError |
| `Dataset.TransformBeforePreprocess` | scripts/preprocessing.py:46-55 | the transform runs first and the preprocessing step on its output |
| `Dataset.AbsentTransformSkipped` | scripts/preprocessing.py:46-55 | an absent step is skipped, so a lone preprocessing step acts as that step alone |
| `Dataset.RoadDataset.constructor` | scripts/preprocessing.py:28-34 | one stored image per image path (so `__len__` is the number of paths); masks only when mask paths are given and non-empty; both steps stored as given |
| `Dataset.RoadDataset.Copy` | scripts/preprocessing.py:67 | the deep copy has the same images, masks, transform and preprocessing step |
| `Dataset.RoadDataset.SetTf` | scripts/preprocessing.py:63-69 | a new dataset with the given transform and the original's images, masks and preprocessing step; the original is unchanged |
| `Metrics.Step` | scripts/training.py:28-34 | after `update(name, v)` the name has a record whose count is one more than before (1 for a new name) and whose average is its sum over its count |
| `Metrics.MetricMonitor.Averages` | scripts/training.py:36-38 | one value per recorded name, in insertion order, equal to that name's val / count |
| `Metrics.AveragesOf` | scripts/training.py:36-38 | one average per distinct name in first-insertion order, each equal to val / count |
| `Metrics.NoAveragesAfterReset` | scripts/training.py:24-26 | after a reset there are no metrics and `averages()` is empty |
| `Metrics.StepWellFormed` | scripts/training.py:28-34 | an update keeps names distinct, keys equal to the recorded names, and avg = val / count with count ≥ 1 |
| `Metrics.NewNameAppended` | scripts/training.py:26-34 | a name not seen since the last reset is appended as the last key, with count 1 and average equal to the value |
| `Metrics.OnlyOwnRecordChanges` | scripts/training.py:28-34 | an update changes only its own name's record; other records and the existing key order stay the same |
| `Metrics.ExistingNameAccumulates` | scripts/training.py:32-34 | an update adds the value to val, one to count, and sets avg = val / count |
| `Metrics.UpdateAllAverages` | scripts/training.py:32-34 | after n updates of a fresh name, its average is the sum of the n values divided by n |
| `Metrics.MetricMonitor.constructor` | scripts/training.py:19-22 | a new monitor keeps its precision and holds no metrics |
| `Metrics.MetricMonitor.Reset` | scripts/training.py:24-26 | after `reset` the dictionary is empty |
| `Metrics.MetricMonitor.Update` | scripts/training.py:28-34 | the dictionary after `update` is the update step applied to the one before, and the invariant is kept |
| `Training.EpochTableAfterBatches` | scripts/training.py:97-98 | after k ≥ 1 batches the keys are exactly ("Loss", "f1"), in that order, each with the sum, count k and mean of its values |
| `Training.EpochAverages` | scripts/training.py:107 | an epoch's averages are (mean loss, mean f1) after at least one batch, and empty after none |
| `Training.RunEpoch` | scripts/training.py:73-107 | the monitor loop over the batches returns (mean loss, mean f1), or nothing for an empty loader |
| `Training.Unpack2` | scripts/training.py:159 | unpacking into (loss, f1) succeeds exactly on two values and otherwise raises ValueError |
| `Training.ValidEpoch` | scripts/training.py:127-162 | `valid_epoch` returns (mean loss, mean f1), or fails with ValueError on an empty loader |
| `Training.TrainModel` | scripts/training.py:184-201 | the train lists have `num_epochs` entries, entry i being epoch i+1's means; the validation lists have `num_epochs` entries when the validation loader is truthy and none otherwise; an empty training loader gives ValueError, and otherwise a schedule of length 0 gives ZeroDivisionError at the first batch |
| `Training.CriterionFor` | scripts/training.py:230-234 | only "dice_loss" and "focal_loss" are found; any other key raises KeyError |
| `Training.ScheduleLengthZero` | scripts/training.py:224-228 | with at least one epoch, T_max is 0 exactly when all planned epochs hold fewer samples than one batch |
| `Training.BatchCountPositive` | scripts/training.py:218-219 | a loader has a batch exactly when its dataset has a sample |
| `Training.ScheduleLength` | scripts/training.py:224-228 | T_max is the floor of (dataset length × epochs) / batch size |
| `Training.BatchCount` | scripts/training.py:218-219 | a loader over n samples has ⌈n / batch size⌉ batches |
| `Training.TuneHyperparams` | scripts/training.py:214-244 | a non-positive batch size gives ValueError; an unknown criterion gives KeyError whatever the loaders hold, so it fails before training; with at least one epoch, an empty training set gives ValueError and a run whose planned epochs together hold fewer samples than one batch (T_max = 0) gives ZeroDivisionError; otherwise the result carries T_max, the chosen loss and the histories of `train_model` |

## Left out

- Reading files (`mpimg.imread`). It becomes the `imread` parameter of the dataset constructor. An unreadable path (IOError) is not modelled.
- `split_data`. It does directory listing and a randomised split by a foreign library.
- `simplify_array`. `scripts/array_manipulations.py` is not part of this model. The input to `get_patched_classification` is taken to be 2D already, and the shape error for other ranks is not modelled.
- `get_preprocessing` and the albumentations transforms. The transform and the preprocessing step are opaque `Sample -> Sample` functions. A `Compose` is treated as present whenever it is given, although a `Compose` with no transforms has length 0 and is falsy.
- Array dtypes. The uint8 of the binarised mask and the float64 of `np.zeros` are not modelled; every element is a `real`.
- Everything torch and segmentation-models inside `train_epoch` and `valid_epoch`: device moves, forward and backward passes, optimiser steps, the learning rates the scheduler sets, `get_stats` and `f1_score`. Each batch is the opaque (loss, f1) pair it yields, a function of the epoch number and batch index. Of the scheduler only its length is kept. A length of 0 makes torch's cosine formula divide by zero at the first `scheduler.step()`, read from torch's source; torch is not part of this model.
- Random transforms. An albumentations transform draws random parameters on each call. It is modelled as one fixed `Sample -> Sample` function, so two `__getitem__(i)` calls give the same sample in the model but not in the program.
- The ensembler hooks and `tune.report`. They are external side effects.
- Model and optimiser construction in `tune_hyperparams`, and the `lr` entry that only the optimiser reads. Only the schedule length, loader sizes and criterion lookup are kept.
- A trial configuration missing a key. The configuration is a record holding the three entries the model reads.
- `setup_seed`. It only sets global random state.
- `MetricMonitor.__str__`, the `tqdm` descriptions and the epoch padding. These are fixed-precision text output.
- Floating point. Means and averages are exact `real` arithmetic, with no rounding, NaN or infinity. The one exception is the empty block of `get_class`, where the NaN comparison result (0) is modelled.

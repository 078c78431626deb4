# DeepProfiler: training-sample cursor, record helpers and training schedule

This project models three parts of DeepProfiler's training path:

- **`ImageDataset` and `ImageLocations`** (`deepprofiler/dataset/image_dataset.py`):
  - The image key of a record and the per-channel paths of `get_image_paths`.
  - The partitions behind `number_of_records` and `scan`.
  - The four parallel lists `ImageLocations` builds.
  - The training-sample state machine. `shuffle_training_images` draws a stratified sample: one draw of
    `sample_images` records per distinct value of the sampling field. `get_train_batch` slices that sample
    at `batch_pointer`, advances the pointer and redraws when the pointer passes the end.
- **The pure decisions of `learn_model`** (`deepprofiler/learning/training.py`):
  - The learning-rate schedule `lrs`.
  - The model-type dispatch for the crop generator and the input shape.
  - The checkpoint file names.
  - The warm-start rule.
  - The range of epochs a run fits.

Layout:

- `results.dfy`: `Option` and `Result`. A Python exception is modelled as `Err(name)`. A `KeyError` carries
  the missing column.
- `records.dfy` (`Records`):
  - A record is a map from column to cell text, and the metadata table is a sequence of records.
  - The training and validation partitions are the index labels of their records. The table comes from a
    CSV file, so a record's index label is its position in the table.
  - Also: keys, `get_image_paths`, target values, `number_of_records`, and the frame and visits of `scan`.
- `sampling.dfy` (`Sampling`):
  - Pools per class, what counts as a draw, and the stratification invariant.
  - The per-class count lemmas.
- `batch_cursor.dfy` (`BatchCursor`): Python slicing, and the batches served between two redraws.
- `image_dataset.dfy` (`ImageDatasets`):
  - The classes `ImageLocations` and `ImageDataset`, which have mutable fields and methods.
  - The batch loop of `get_train_batch`, proved against the function `BatchFor`.
  - The visiting loop of `scan`, proved against `Visits`.
- `training.dfy` (`Training`): the schedule, the dispatch, checkpoint naming, the warm start and `LearnModel`.

Randomness is not modelled as a distribution:

- The draw for a class is any sequence of labels of that class's pool that has the required length. It
  holds no label twice unless the pool is smaller than `sample_images` (pandas `sample(n, replace=available < n)`).
- The shuffle is any permutation. Both choices are written as Dafny `:|` choices constrained by these facts.

The generator dispatch of `learn_model` tests `"mixup"` twice (`training.py:36-39`), so `"same_label_mixup"`
gets an input shape but no crop generator. The model keeps this as written: `CropGeneratorFor` has no
generator for that type, and `LearnModel` returns the error `crop_generator.start` raises on an unbound name.
The source does not say which generator that type was meant to use, so no corrected variant is modelled.

## Model

| member | source | states |
|---|---|---|
| Records.ImageKeyColumns | deepprofiler/dataset/image_dataset.py:174 | keyGen reads plate, well and site in that order. It succeeds exactly when all three columns are present, and otherwise fails with the first missing column |
| Records.KeyRoundTrip | deepprofiler/dataset/image_dataset.py:174 | the key "{plate}/{well}-{site}" gives back plate, well and site whenever the plate has no '/' and the well has no '-' |
| Records.KeyCollision | deepprofiler/dataset/image_dataset.py:174 | without that condition, two different records ("P", "A-1", "2") and ("P", "A", "1-2") get the same key |
| Records.ChannelPaths | deepprofiler/dataset/image_dataset.py:63 | one path per channel, in channel order, each `root + "/" + r[ch]`. It fails exactly when a channel column is missing, with the first such column |
| Records.GetImagePaths | deepprofiler/dataset/image_dataset.py:61-67 | succeeds exactly when every column read is present. It returns the keyGen key and the channel paths in order. The outline is None when outlines are off and `outlines + r["Outlines"]` otherwise. On failure the KeyError names the first absent column in reading order |
| Records.NumberOfRecordsMatchesFrame | deepprofiler/dataset/image_dataset.py:123-149 | for "all", "val" and "train", `number_of_records` is the size of the partition `scan` iterates. For any other name it is 0, while `scan` iterates the training records |
| Records.FramePaths | deepprofiler/dataset/image_dataset.py:131 | the paths of every frame record are resolved before any visit: one entry per record, or the KeyError of the first record that lacks a column |
| Records.CheckedPositionsExact | deepprofiler/dataset/image_dataset.py:132-138 | the positions `scan` visits are increasing frame positions, and a position is among them exactly when its record passes `check` |
| Records.VisitsAtPositions | deepprofiler/dataset/image_dataset.py:132-138 | the i-th call of `f` receives the index label, the image of the paths and the record at the i-th visited position |
| Records.VisitsFilter | deepprofiler/dataset/image_dataset.py:132-138 | `f` is called exactly once per record that passes `check`, in frame order, and never on a record that fails it |
| Sampling.Unique | deepprofiler/dataset/image_dataset.py:95 | `unique()` holds no value twice and holds exactly the values that occur |
| Sampling.Pool | deepprofiler/dataset/image_dataset.py:96-97 | the mask selects exactly the training records whose sampling value is `c` |
| Sampling.PoolOrdered | deepprofiler/dataset/image_dataset.py:96-97 | a class pool taken from the ordered training records is ordered too, so it holds no label twice |
| Sampling.PoolNonEmpty | deepprofiler/dataset/image_dataset.py:95-97 | every value taken from the training records has a non-empty pool |
| Sampling.ClassesEmpty | deepprofiler/dataset/image_dataset.py:95 | the training records have no distinct sampling value exactly when there are none |
| Sampling.DrawExists | deepprofiler/dataset/image_dataset.py:98 | whenever the pool is non-empty, some draw of `n` records exists, with or without replacement |
| Sampling.CountPermutation | deepprofiler/dataset/image_dataset.py:102 | shuffling the sample does not change the number of records of any class |
| Sampling.CountFlatten | deepprofiler/dataset/image_dataset.py:95-100 | the first k per-class draws hold `sample_images` records of each of the first k classes and none of any other class |
| Sampling.StratifiedCounts | deepprofiler/dataset/image_dataset.py:95-101 | after a draw and shuffle, each distinct training value contributes exactly `sample_images` records. Every record of the sample carries one of those values, and the sample has #values × `sample_images` records |
| BatchCursor.BatchBounds | deepprofiler/dataset/image_dataset.py:107 | the slice at pointer p is `sample[p .. min(p+ipw, len))`. It holds at most `ipw` records, exactly `ipw` when p+ipw ≤ len, and none when p ≥ len |
| BatchCursor.PassCovers | deepprofiler/dataset/image_dataset.py:107-110 | the batches served from pointer p up to and including the redrawing call cover the rest of the sample exactly once, in order |
| BatchCursor.PassSizes | deepprofiler/dataset/image_dataset.py:107-110 | there are (len − p) div ipw + 1 such batches. All but the last are full, and the last holds (len − p) mod ipw records |
| BatchCursor.EmptyBatchBeforeReshuffle | deepprofiler/dataset/image_dataset.py:107-110 | the call that redraws returns an empty batch exactly when the remaining length is a multiple of `ipw`. |
| BatchCursor.ZeroImagesPerWorker | deepprofiler/dataset/image_dataset.py:86-110 | when `batch_size < workers`, `images_per_worker` is 0: every batch is empty and the sample is never redrawn |
| ImageDatasets.BatchForFailedPrefix | deepprofiler/dataset/image_dataset.py:113-121 | once a record of the slice fails, the whole batch loop fails with that record's error |
| ImageDatasets.BatchForResult | deepprofiler/dataset/image_dataset.py:113-121 | the batch loop yields a batch exactly when every record has the needed columns. Its four lists have one entry per record, in slice order: the key, the image of its paths, its target values, and the locations sampled for its key with `sample_locations`. Otherwise it yields the KeyError of the first failing record |
| ImageDatasets.FirstFailingPrefix | deepprofiler/dataset/image_dataset.py:113-121 | the first failing record of a slice is the first failing record of its prefix, or else the last record if that one fails |
| ImageDatasets.BuildBatch | deepprofiler/dataset/image_dataset.py:112-121 | the loop, appending to four lists, returns exactly `BatchFor` of the slice, whose meaning `BatchForResult` states |
| ImageDatasets.VisitFrame | deepprofiler/dataset/image_dataset.py:132-138 | the visiting loop makes exactly the calls `Visits` describes: one call per checked record, in frame order |
| ImageDatasets.ImageLocations.constructor | deepprofiler/dataset/image_dataset.py:13-24 | builds four lists of the training-record count. Entry k holds the key, channel paths, outline and target values of training record k |
| ImageDatasets.ImageDataset.constructor | deepprofiler/dataset/image_dataset.py:50-59 | keeps the metadata, sampling field, channels and root. `sampling_values` is the unique values of the sampling column over the whole table. Targets start empty and outlines unset |
| ImageDatasets.ImageDataset.AddTarget | deepprofiler/dataset/image_dataset.py:151-152 | appends the target and keeps the invariant |
| ImageDatasets.ImageDataset.PrepareTrainingLocations | deepprofiler/dataset/image_dataset.py:69-91 | fails exactly when building the locations fails, `workers` is 0, or a factor of the cells per epoch is 0. It checks them in the source's order. Building the locations raises the KeyError of the first training record without a needed column, then IndexError with records but no target (`self.targets[i][0]` at :35), then ValueError with no records (`pd.concat` of no locations); each changes nothing. Otherwise it records `sample_images` and `sample_locations`, and `images_per_worker = batch_size div workers` when `workers` is not 0. A zero `workers` (:86) or a zero class count or median (:88) then raises ZeroDivisionError, leaving the sample, pointer and prepared state as they were. Otherwise it draws the first stratified sample and leaves the pointer at 0 |
| ImageDatasets.LoadLocations | deepprofiler/dataset/image_dataset.py:13-73 | building the locations fails with the KeyError of the first record that lacks a needed column (`ImageLocations` at :20). When every record has its columns, it fails with IndexError exactly when there are records but no target, with ValueError exactly when there are no records, and succeeds otherwise |
| ImageDatasets.ImageDataset.SetSamplingParameters | deepprofiler/dataset/image_dataset.py:78-88 | records `sample_images` and `sample_locations`. It raises ZeroDivisionError exactly when `workers` is 0 (:86, before `images_per_worker` is set, which then keeps its value) or when the class count or one of the two medians is 0 (:88). Otherwise `images_per_worker = batch_size div workers` |
| ImageDatasets.DrawPerClass | deepprofiler/dataset/image_dataset.py:94-99 | the loop over `unique()` makes one draw of `sample_images` labels from each class's pool, in order, and the sample is the concatenation of the drawn records |
| ImageDatasets.ImageDataset.ShuffleTrainingImages | deepprofiler/dataset/image_dataset.py:93-103 | fails with ValueError, leaving the sample, draws and pointer unchanged, exactly when there are no training records (`pd.concat` of an empty list). Otherwise the new sample is a permutation of one draw per class, in the order of `unique()`. Each draw has `sample_images` records of its class and holds no label twice unless the pool is smaller. The pointer is 0 afterwards |
| ImageDatasets.ImageDataset.TakeNextSlice | deepprofiler/dataset/image_dataset.py:106-110 | returns the slice of the sample as it was before the call, and advances the pointer by `images_per_worker`. The sample is redrawn, with the pointer reset to 0, exactly when the new pointer is past the end. Otherwise the sample is unchanged |
| ImageDatasets.ImageDataset.GetTrainBatch | deepprofiler/dataset/image_dataset.py:105-121 | the batch is `BatchFor` of the slice taken before any redraw, built with the current paths, targets and `sample_locations`. The pointer and the sample change as in `TakeNextSlice` |
| ImageDatasets.ImageDataset.Scan | deepprofiler/dataset/image_dataset.py:123-139 | it fails exactly when some frame record lacks a needed column, with the first such KeyError. Otherwise the calls of `f` are the visits of the checked frame records, in frame order |
| Training.LrDivisor | deepprofiler/learning/training.py:11-19 | the divisor is one of 1, 10, 100 and 1000. A zero `epochs` raises ZeroDivisionError |
| Training.LearningRate | deepprofiler/learning/training.py:11-19 | the returned rate times the divisor is the base rate, and it fails exactly when `epochs` is 0 |
| Training.FractionBelow | deepprofiler/learning/training.py:14-17 | comparing `e/epochs` with a fraction num/den is the integer comparison den·e < num·epochs |
| Training.LrBands | deepprofiler/learning/training.py:14-17 | base rate below 40%, /10 below 70%, /100 below 90%, /1000 from 90% of the epochs on. A negative epoch index keeps the base rate |
| Training.LrDivisorMonotone | deepprofiler/learning/training.py:14-17 | for a fixed positive `epochs`, the divisor never decreases as the epoch index grows |
| Training.LearningRateNonIncreasing | deepprofiler/learning/training.py:11-19 | for a non-negative base rate, the rate never increases as the epoch index grows |
| Training.CropGeneratorFor | deepprofiler/learning/training.py:32-39 | a generator is bound exactly for "convnet", "recurrent" and "mixup", and the plain `CropGenerator` only for "convnet" |
| Training.InputShape | deepprofiler/learning/training.py:53-102 | a shape is set exactly for the four handled types. It is (box, box, #channels), preceded by the sequence length for "recurrent" |
| Training.GeneratorImpliesShape | deepprofiler/learning/training.py:32-102 | every type with a generator has a shape, and "same_label_mixup" is the only type with a shape but no generator |
| Training.Digits | deepprofiler/learning/training.py:105 | decimal digits without a leading zero |
| Training.ZeroPad | deepprofiler/learning/training.py:105 | left padding with zeros to the width, never truncating |
| Training.FormatEpochDenotes | deepprofiler/learning/training.py:105 | `{:04d}` of a non-negative index is a digit string denoting it. A negative index gives '-' followed by the digits of its absolute value |
| Training.FormatEpochWidth | deepprofiler/learning/training.py:105 | every index from 0 to 9999 gets exactly four digits |
| Training.FormatEpochInjective | deepprofiler/learning/training.py:105 | different epoch indices are formatted differently |
| Training.CheckpointPathInjective | deepprofiler/learning/training.py:105 | different epochs get different checkpoint files |
| Training.CheckpointNames | deepprofiler/learning/training.py:105 | epoch 1 is saved as "out/checkpoint_0001.hdf5" |
| Training.NegativeEpochName | deepprofiler/learning/training.py:105 | the width of 4 counts the sign: index −1 is formatted "-001" |
| Training.SmallEpochNames | deepprofiler/learning/training.py:105 | epochs 1 to 4 are formatted "0001" to "0004" |
| Training.WideEpochName | deepprofiler/learning/training.py:105 | the width is a minimum: 12345 is formatted "12345" |
| Training.WarmStart | deepprofiler/learning/training.py:119-124 | the previous model is loaded exactly when `epoch >= 1` and the file for `epoch - 1` exists, and it is that file |
| Training.FitEpochs | deepprofiler/learning/training.py:126-135 | the 0-based indices fitted are `initial, initial+1, …, epochs-1`, and none when `initial >= epochs` |
| Training.Rates | deepprofiler/learning/training.py:114-135 | one rate per fitted epoch, each the schedule's rate for that index. A run fails exactly when it fits some epoch with `epochs == 0` |
| Training.FittedIndex | deepprofiler/learning/training.py:128-135 | an epoch index is fitted exactly when `initial_epoch <= k < epochs` |
| Training.WrittenOfIndex | deepprofiler/learning/training.py:105-110 | every fitted index k leaves the checkpoint numbered k + 1 |
| Training.CheckpointsWrittenCover | deepprofiler/learning/training.py:105-135 | a run started at `epoch` writes the checkpoint of every epoch from `epoch` to `epochs` |
| Training.CheckpointsWrittenOnly | deepprofiler/learning/training.py:105-135 | a run started at `epoch` writes no checkpoint numbered outside `epoch` to `epochs`; with `CheckpointsWrittenCover`, exactly those checkpoints |
| Training.RatesNonIncreasing | deepprofiler/learning/training.py:114-135 | for a non-negative base rate, the rates of a run never increase |
| Training.LearnModel | deepprofiler/learning/training.py:27-135 | a run fails exactly when no generator is bound or the schedule divides by zero. Otherwise it uses the type's generator and shape, loads the warm-start file and starts fitting at `epoch - 1` |
| Training.ResumeLoadsLastCheckpoint | deepprofiler/learning/training.py:105-135 | after a run up to `epochs`, a run started at `epochs + 1` loads the last checkpoint the first run wrote |
| Training.TwoRuns | tests/deepprofiler/learning/test_training.py:101-113 | the files the test checks for: a run from epoch 1 with 2 epochs leaves checkpoints 1 and 2 and the log. A second run from epoch 3, with `epochs` set to 4 in the model, loads checkpoint 2 and leaves checkpoints 3 and 4 and the log. The test sets 4 under `config["train"]["model"]["epochs"]`, a key `learn_model` does not read (`training.py:126` reads `config["training"]["epochs"]`). The test looks for checkpoints under `config["paths"]["checkpoints"]` and for the log under `config["paths"]["logs"]`, while `learn_model` writes both under `config["training"]["output"]` (`training.py:105, 111`); the lemma takes all three to be the one directory `config.output` |

## Left out

- The lock of `get_train_batch` (`image_dataset.py:106, 111`) and any concurrency: `GetTrainBatch` is one atomic step.
- `ImageLocations.load_loc` and `load_locations`: the process pool and location files are outside the model.
- Pixel and location reads (`pixels.openImage`, `boxes.get_locations`): `Image` and `Locations` are the
  value records naming what would be read.
- The CSV reads and writes of `read_dataset` and `prepare_training_locations`, and all printing.
- The pandas grouping and the two medians of `prepare_training_locations`: the class count,
  `sample_images` and `sample_locations` are parameters. Only the division by their product at
  `image_dataset.py:88` is modelled, as its ZeroDivisionError; the coverage percentage is not. When every
  image has zero cells the medians are NaN and `int` raises at :78; that case is not modelled.
- The random choices of `sample`: only the facts above constrain a draw and a shuffle.
- `MetadataColumnTarget.get_values`: `target.py` is not part of this model, so `Encoded` records the target
  column and the record's value in it.
- The keyGen is fixed to the one `read_dataset` passes in. The `config` and `keyGen` constructor arguments
  are not modelled.
- `read_dataset` itself. Assigning `dset.outlines` is a plain field write on `outlines`.
- TensorFlow and Keras: sessions, model building, `fit_generator`, callbacks and generator start and stop.
  The model assumes Keras's conventions: `ModelCheckpoint` formats `{epoch}` with the 1-based epoch number of
  0-based index k, `LearningRateScheduler` passes the 0-based index to `lrs`, and `fit_generator` fits
  `range(initial_epoch, epochs)`.
- Missing cells: every cell is text. pandas reads an empty CSV cell as NaN, which never equals itself, so a
  training record with an empty sampling cell would give `unique()` a class whose mask selects nothing, and
  `sample` would raise ValueError on the empty frame (`image_dataset.py:96-98`). That behaviour is not
  modelled; `Sampling.PoolNonEmpty` and `Sampling.DrawExists` hold for text cells only.
- Training.CheckpointPath: joins the output directory literally. The source applies `.format` to the whole
  string `output + "/checkpoint_{epoch:04d}.hdf5"` (`training.py:105, 119`), so a `{` or `}` in the output
  directory would be interpreted as a format field (a KeyError, or `{{` read as `{`). The model holds for
  output directories without braces.
- Floating point: the schedule compares `e/epochs` as exact rationals and divides exactly.
- Training.LearnModel: the other error paths of an unknown model type (the unbound model) are subsumed by
  the first error raised, which is the unbound generator.
- ImageDatasets.ImageDataset.constructor: requires the sampling column in every record and ordered, in-range
  partitions. The source assumes a valid `Metadata` object and would raise a KeyError on a missing column.
- ImageDatasets.ImageDataset.PrepareTrainingLocations: the process pool of `load_locations` (:42) is not
  modelled, so a zero `workers` is reported where line 86 divides by it, not by the pool.
- ImageDatasets.ImageLocations.constructor: requires every record to have the needed columns, where the source
  raises the first KeyError. `LoadLocations` returns that KeyError before building it.
- ImageDatasets.ImageDataset.GetTrainBatch: requires `prepare_training_locations` to have run. Before that,
  the source fails on the missing `training_sample` attribute.
- ImageDatasets.ImageDataset.GetTrainBatch: the batch is stated over the paths configuration, targets and
  `sample_locations` read before the call. The method cannot change them.
- ImageDatasets.ImageDataset.TakeNextSlice: requires `prepare_training_locations` to have run. Before that,
  line 107 fails on the missing `training_sample` attribute (an AttributeError). After a redraw, the new
  sample is described by the invariant that `Valid()` keeps. It is not tied to a particular draw.

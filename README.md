# Repair-cost service core: a Dafny model

This project models the deterministic glue of a vehicle-damage cost
estimator. The glue sits between the damage detector, the price aggregator
and the learned regressor:

- `/predict` (module `Api`) detects damage in one photograph and prices the
  detected classes for the requested vehicle type. It then assembles one
  report entry per detection: the raw label, the confidence at the same
  index, and the unit cost of the label's normalised class key.
- `/compare` (module `Api`) takes the differ's before/after summary and
  expands the new-damage counts back into a flat list of labels. It re-prices
  that list for the requested vehicle type and replaces only the new-damage
  costs of the summary.
- The trainer (module `TrainPriceGbm`) walks the claims table. It skips rows
  whose image cannot be read and keeps features and targets aligned. It stacks
  the feature vectors, or returns an empty matrix with one column per feature
  name. It refuses to train on fewer than 20 samples and bundles the fitted
  model with the feature schema `FEATURE_NAMES`.

The functions the service imports from its inference and feature modules
are fields of the `MlServices.Services` datatype: `normalize_class_key`,
`detect_from_numpy`, `aggregate_costs_for_classes`, `compare_before_after`,
`compute_features` and `FEATURE_NAMES`. The same datatype also holds the
height and width of a numpy image, `(img.shape[0], img.shape[1])`, which is not
an imported function. The bodies of these functions are not
part of this model, so every property below holds whatever those functions
do. These are parameters rather than modelled code: the price table
(`PriceMap`), decoded images (`Image`), the fitted model (`Model`), reading a
training image (`readImage`, `None` when the read raises), `np.log1p`, and
the regressor's `fit`.

Python dicts that are iterated in order (the count dicts) are sequences of
`(key, count)` pairs with distinct keys (`MlServices.Counts`). Other dicts
are maps.

In these places the model follows what the code does:

- A confidence list shorter than the class list is allowed. The missing
  confidences are `None`.
- `[cls] * n` makes no copies when `n` is zero or negative. The expansion
  therefore clamps counts at zero instead of assuming they are non-negative.
- `/predict` prices without per-detection areas; the trainer passes the
  detector's areas.
- The trainer converts `total_usd` to a float before it tries to read the
  image. A row with an unconvertible target therefore aborts the whole
  dataset build (`InvalidTarget`), even when that row's image would have been
  skipped.
- The width of the feature vectors is not checked against `FEATURE_NAMES`.
  Only the empty dataset gets `len(FEATURE_NAMES)` columns. Vectors of
  differing widths make stacking fail (`RaggedFeatures`).
- The gate refuses fewer than 20 samples. The error message asks for "at
  least ~100 rows"; the model follows the comparison, not the message.

## Model

| member | source | states |
|---|---|---|
| `Api.MinEachFor` | ml/api.py:42-43 | the unit cost is present exactly when the normalised key has a per-class entry with a `min_each` value, and is then that value |
| `Api.ConfidenceAt` | ml/api.py:44-47 | a confidence is reported exactly when the list exists and is longer than the index, and is then the element at that index; an absent list behaves as an empty one |
| `Api.AssembleDetections` | ml/api.py:39-49 | one entry per detected label in the same order; entry i carries `classes[i]`, the confidence at index i and the unit cost of `normalize(classes[i])`; two labels with the same normalised key get the same cost |
| `Api.Predict` | ml/api.py:32-58 | the response's classes, counts, per-class costs, totals and annotated image are the detector's and aggregator's; its detections are pointwise as above |
| `Api.Repeat` | ml/api.py:71 | `[cls] * n` has `max(n, 0)` elements, all equal to `cls` |
| `Api.Expanded` | ml/api.py:69-71 | the list built by extending, for each dict item in iteration order, by `[cls] * n`; what it contains is proved in the lemmas below |
| `Api.ExpandedLength` | ml/api.py:69-71 | the expanded list is as long as the sum of the (clamped) counts |
| `Api.ExpandedMultiplicity` | ml/api.py:69-71 | each key of the count dict occurs in the expansion exactly as often as its count (zero for a non-positive count) |
| `Api.ExpandedOnlyKeys` | ml/api.py:69-71 | a label that is not a key of the dict does not occur in the expansion |
| `Api.ZeroCountContributesNothing` | ml/api.py:70-71 | a key with count zero or less does not occur in the expansion |
| `Api.ExpandedBlockAt` | ml/api.py:70-71 | the copies of the p-th key occupy the positions right after the copies of all earlier keys |
| `Api.BlockOf` | ml/api.py:70-71 | every position of the expansion lies in the block of copies of a dict entry and holds that entry's key |
| `Api.BlockOfUnique` | ml/api.py:70-71 | no other dict entry's block covers that position, so the covering entry is unique |
| `Api.ExpandedGroupsContiguous` | ml/api.py:70-71 | all copies of a class are contiguous in the expansion |
| `Api.ExpandedFollowsKeyOrder` | ml/api.py:70-71 | every copy of an earlier key (in dict iteration order) precedes every copy of a later key |
| `Api.ExpandCounts` | ml/api.py:69-71 | the loop builds the expansion: its length is the sum of counts, each key occurs exactly its count, nothing else occurs |
| `Api.Compare` | ml/api.py:61-81 | before, after and new-damage counts are passed through unchanged; only the new-damage costs are replaced, by the aggregation of the expanded new damage for the requested vehicle type |
| `TrainPriceGbm.VehicleTypeOf` | ml/train_price_gbm.py:57 | when the table has no `vehicle_type` column, every row uses `"car"`; otherwise the row's own value |
| `TrainPriceGbm.DefaultVehicleTypeUsed` | ml/train_price_gbm.py:57-68 | in a table without that column, `"car"` is used both for the rule-based cost and for the feature computation |
| `TrainPriceGbm.RowFeatures` | ml/train_price_gbm.py:66-68 | the feature vector of a readable row: detection on its image, the rule-based total for the row's vehicle type with the detector's areas, then `compute_features` with that vehicle type, total and the image's height and width |
| `TrainPriceGbm.Collected` | ml/train_price_gbm.py:55-71 | the lists `xs` and `ys` the row loop builds, or its abort: `float` of the target before the `try`, a failed read skipped as `continue`, otherwise one feature vector and one target appended; the two lists have equal length |
| `TrainPriceGbm.KeptRows` | ml/train_price_gbm.py:55-64 | the surviving rows are exactly those whose image read succeeds, in strictly increasing table order |
| `TrainPriceGbm.KeptCount` | ml/train_price_gbm.py:55-71 | the number of surviving rows is the number of rows minus the number of failed reads |
| `TrainPriceGbm.CollectedErrorPersists` | ml/train_price_gbm.py:55-58 | once a row's target conversion raises, the rest of the table does not change the outcome |
| `TrainPriceGbm.CollectedFailsOnFirstInvalidTarget` | ml/train_price_gbm.py:58 | the row loop fails exactly when some target cannot be converted, and fails at the first such row (the row index in `InvalidTarget` is the model's own addition; the raised `ValueError` names only the value) |
| `TrainPriceGbm.CollectedAligned` | ml/train_price_gbm.py:60-71 | `xs` and `ys` have equal length; the k-th feature vector and the k-th target both come from the k-th readable row; failed rows contribute neither |
| `TrainPriceGbm.Stack` | ml/train_price_gbm.py:73 | stacking succeeds exactly when all rows have one width and keeps the rows; with no rows it is a 0-row matrix of the given width |
| `TrainPriceGbm.DatasetSpec` | ml/train_price_gbm.py:49-75 | what `build_dataset` returns: the loop's error, a stacking error, or X (stacked rows, or a 0-row matrix with `len(FEATURE_NAMES)` columns) with y; X has as many rows as y has targets |
| `TrainPriceGbm.DatasetAligned` | ml/train_price_gbm.py:49-75 | a built dataset has one sample per readable row (rows minus failed reads), in table order, each feature row paired with its own row's target |
| `TrainPriceGbm.EmptyDatasetShape` | ml/train_price_gbm.py:73-74 | with valid targets and no readable image, X has 0 rows and `len(FEATURE_NAMES)` columns and y is empty |
| `TrainPriceGbm.BuildDataset` | ml/train_price_gbm.py:49-75 | the loop with its `continue` and its early error computes the reference dataset; sample count equals rows minus failed reads |
| `TrainPriceGbm.LogTargets` | ml/train_price_gbm.py:90 | the transformed targets are `log1p` of each target, index by index |
| `TrainPriceGbm.Train` | ml/train_price_gbm.py:85-106 | a dataset error is passed on; fewer than 20 samples is `NotEnoughSamples`; otherwise the payload is exactly the model fitted on X and the log targets, with `FEATURE_NAMES` |

## Left out

- Upload reading, PIL decoding, PNG and base64 encoding, and HTTP routing: I/O and transport. The endpoints take decoded images and return the annotated images unencoded.
- `read_image_any`, with its HTTP fetch, timeout and file open: I/O. It is a parameter that returns `None` when the read raises. It is deterministic per path, so the model does not capture a fetch that succeeds once and fails once for the same URL.
- CSV parsing, argument parsing, directory creation, `joblib.dump`, the warning messages and the unused `--test_split` argument: library and I/O plumbing. A table without the `image_path` or `total_usd` column (a `KeyError` at the first row, which is not caught and ends the whole build) is not modelled.
- `load_model()` and `load_price_map()`: the price map is a parameter and the model load has no effect that the model captures.
- The bodies of `normalize_class_key`, `aggregate_costs_for_classes`, `compare_before_after`, `detect_from_numpy` and `compute_features`: they are not part of this model, so they are total functions with unknown results. Their own exceptions, and idempotence of normalisation, are not modelled.
- The regressor's fitting and `np.log1p`: external library and floating point. Both are parameters, and all numbers are Dafny reals; `float(...)` conversions of values that are already numbers are identities.
- Blank cells of the claims table are not modelled. pandas reads them as NaN: a NaN vehicle type is handed to the aggregator and the feature builder as it is (not replaced by `"car"`), and a NaN target converts without error, so the row stays in with a NaN target. The `"car"` default applies only when the whole column is missing.
- A `confidences` key present with the value `None` (`len(None)` raises) is not modelled: `None` stands for a missing key.
- `Api.Compare`: the summary dict updated in place is assumed not to be shared with `compare_before_after` or anything else, so the model writes that update as a datatype update. The model does not capture what another holder of a reference to that dict would observe.
- The backend schema migration adding a vehicle-type column: DDL with no logic.

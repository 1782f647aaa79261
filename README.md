# Tabular regression pipeline and prediction server, in Dafny

This project models the core of a small tabular machine-learning service:

- the **data validation** step checks that every required column (and the
  target) is present and lists the missing ones, sorted;
- the **data transformation** step separates the target from the features,
  splits the rows into training and test parts, optionally fits a scaler
  (standard or min-max) on the training features only, applies it to both
  feature parts, and writes the four splits and the scaler to the processed
  data directory;
- the **model trainer** picks a linear regression or a random forest from the
  parameters, reads the training split back, coerces the target to numbers
  (non-numeric values become NaN), fits, and writes `features.json` (the
  training columns, in order) next to `model.joblib`;
- the **prediction server** loads the feature list, the model and (if the file
  exists) the scaler once, and answers `/predict`. It checks the body's shape
  and the first record's keys, frames the records in training-time column
  order, coerces every column to numbers, scales if a scaler was loaded, and
  predicts. Every error becomes a 400 answer.

Parameter and request values are JSON values (`PyValues.Json`), so that
Python's truthiness, `or`, `dict.get` and subscripting behave exactly as they
do in the source. Frames are `Tables.Table` values (labels plus row-major
cells). The numerical routines of scikit-learn and pandas' string parsing are
parameters: the fields of `Estimators.Library`. A fitted scaler or model is
identified by its kind and by the data it was fitted on. That is how
"the scaler is fitted on the training rows only" is stated. The files shared
by the stages are a map from path to content (`Artifacts.ArtifactStore`).

Modules: `Wrappers`, `PyValues`, `Seqs`, `StringOrder`, `Tables`, `Numeric`,
`Estimators`, `Artifacts`, `DataValidation`, `DataTransformation`,
`ModelTrainer`, `Serving`, `Pipeline`.

An empty `data` list passes the shape check, since `all` of an empty list
holds, and then fails at `rows[0]` with an IndexError, still a 400. In the
model this error is `NoRecords`, and it comes after the shape check.

## Model

| member | source | states |
|---|---|---|
| DataValidation.NewValidator | src/datascience/components/data_validation.py:2-4 | the target is the schema's when it names one and the configured one otherwise; the required set is the schema's list plus the target, so the target is always required |
| DataValidation.CheckRequired | src/datascience/components/data_validation.py:6-10 | succeeds with True exactly when every required name is a column; otherwise the error lists exactly the missing names, strictly sorted (each once) |
| DataValidation.TargetAlwaysChecked | src/datascience/components/data_validation.py:3-9 | whatever the schema says, a frame without the target fails and names the target among the missing columns |
| StringOrder.SortedSet | src/datascience/components/data_validation.py:9 | `sorted(set)`: strictly ascending in Python's string order, same elements as its input |
| Tables.ProjectRow | src/datascience/components/data_transformation.py:19-20 | the cells of a row under the kept labels: paired with those labels they are exactly the row's kept (label, cell) pairs, in column order |
| Tables.Drop | src/datascience/components/data_transformation.py:19 | KeyError exactly when the column is absent; otherwise every other column in order, and each row is the input row without that column's cell |
| Tables.Pick | src/datascience/components/data_transformation.py:20 | KeyError exactly when the column is absent; otherwise the frame restricted to the named column; each row holds the input row's cells under that label |
| Tables.TakeRows | src/datascience/components/data_transformation.py:22-27 | the rows at the given positions in that order; IndexError when a position is out of range |
| DataTransformation.FeatureColumns | src/datascience/components/data_transformation.py:19 | the features are all columns but the target, and the target is never a feature |
| DataTransformation.FeatureColumnsOrder | src/datascience/components/data_transformation.py:19 | removing the target keeps column order: it distributes over columns placed side by side |
| DataTransformation.ScalerName | src/datascience/components/data_transformation.py:15 | "none" when `preprocessing` is absent or falsy; otherwise its `scaler` entry, defaulting to "none"; a non-dict raises |
| DataTransformation.SelectScaler | src/datascience/components/data_transformation.py:14-16 | StandardScaler iff the name is "standard", MinMaxScaler iff "minmax", no scaler iff the name is any other hashable value; an unhashable name raises |
| DataTransformation.SplitPositions | src/datascience/components/data_transformation.py:22-27 | KeyError for the first of `split`, `split.test_size`, `split.shuffle`, `seed` that is absent; success iff all are present, `train_test_split` returns and every position is inside the frame; the positions are what `train_test_split` returns for `split.test_size`, `split.shuffle` and `seed`, all inside the frame |
| DataTransformation.SplitFrame | src/datascience/components/data_transformation.py:18-27 | KeyError when the target is absent; success iff the target exists and the split succeeds; feature parts have the frame's columns minus the target, in order; row k of each feature part and of the matching target part are the features and the target of the same frame row, the split's k-th position |
| DataTransformation.Reframe | src/datascience/components/data_transformation.py:31-32 | a transformed matrix gets the feature labels back, and pandas' shape error is raised exactly when it does not fit them |
| DataTransformation.ScaleSplit | src/datascience/components/data_transformation.py:29-32 | succeeds iff the scaler name is valid and, when a scaler is selected, its transforms of both feature parts keep their shapes; a scaler exists iff one was selected; it is fitted on the training features only; both feature parts are its transforms under the same labels; without one the split is untouched; targets are never scaled |
| DataTransformation.Plan | src/datascience/components/data_transformation.py:18-32 | the whole computation, succeeding iff the split and then the scaling do: feature columns equal the frame's columns minus the target, and the scaler, if any, is fitted on the unscaled training features |
| DataTransformation.WriteSplit | src/datascience/components/data_transformation.py:35-38 | the four CSV files hold the four parts; no other file changes |
| DataTransformation.PersistAsWritten | src/datascience/components/data_transformation.py:29-38 | the files as the source leaves them: the four CSVs hold the four parts; `scaler.joblib` holds this run's scaler if it chose one, and otherwise an earlier `scaler.joblib` stays as it was; nothing else changes |
| DataTransformation.Persist | src/datascience/components/data_transformation.py:29-38 | corrected: `scaler.joblib` exists iff this run chose a scaler and then holds it; the four splits are written; nothing else changes |
| DataTransformation.SplitAndTransform | src/datascience/components/data_transformation.py:18-39 | returns exactly `Plan`; on success the files become `PersistAsWritten` of the old files; on any failure no file is written |
| Artifacts.ArtifactStore.Write | src/datascience/components/data_transformation.py:33-38 | a write replaces that one file and leaves the others alone |
| Artifacts.ReadCsv | src/datascience/components/model_trainer.py:27-28 | the frame that was written to the path; FileNotFound when there is none |
| ModelTrainer.ModelType | src/datascience/components/model_trainer.py:15-16 | "random_forest" when `model` is absent or an empty dict, or its `type` is absent or falsy, otherwise the type lower-cased; a non-dict `model` or a truthy non-string type raises |
| ModelTrainer.BuildModel | src/datascience/components/model_trainer.py:14-24 | linear iff the lower-cased type is "linear"; otherwise a forest with n_estimators 200, max_depth None, n_jobs -1 and random_state the `seed` entry if present, else 42 |
| ModelTrainer.BuildModelIgnoresTypeCase | src/datascience/components/model_trainer.py:16-18 | parameters differing only in `model.type`, with types equal once lower-cased, build the same regressor |
| ModelTrainer.TargetColumn | src/datascience/components/model_trainer.py:28-30 | the first column of the target file, row for row; IndexError when the file has no column |
| Numeric.CoerceColumn | src/datascience/components/model_trainer.py:31 | `errors="coerce"`: same length, numeric values kept, every other value NaN |
| ModelTrainer.TrainPlan | src/datascience/components/model_trainer.py:27-33 | succeeds iff both CSV files exist, the target file has a column, the model parameters are valid and the fit completes (FileNotFound for a missing split file); the model is fitted on the stored training features and on the coerced first target column, with the spec `BuildModel` chooses |
| ModelTrainer.TrainOutput | src/datascience/components/model_trainer.py:34-36 | `features.json` lists the training columns in their order, `model.joblib` holds the model, no other file changes |
| ModelTrainer.Train | src/datascience/components/model_trainer.py:26-37 | succeeds exactly when `TrainPlan` does, returns the model path and leaves the files as `TrainOutput`; on failure no file is written |
| Serving.LoadArtifacts | app.py:11-20 | the feature list and the model are required (FileNotFound otherwise); the scaler is loaded exactly when `scaler.joblib` exists |
| Serving.CreateApp | app.py:52-54 | the application exists exactly when the artifacts load, and holds what was loaded |
| Serving.Records | app.py:24-33 | NoDataKey when the body is not a dict with "data"; one record for a dict, the list's items for a list of dicts, BadDataShape for any other `data` |
| Serving.Missing | app.py:36 | exactly the features the first record lacks |
| Serving.Unexpected | app.py:37 | exactly the first record's keys that are not features |
| Serving.MissingInFeatureOrder | app.py:36 | the missing keys come in feature-list order: over features placed side by side, the missing keys of each part in turn |
| Serving.UnexpectedInKeyOrder | app.py:37 | the unexpected keys come in the record's key order: over keys `k1` then `k2`, those of `k1`, then those of `k2` |
| Serving.CheckKeys | app.py:36-41 | missing keys are reported before unexpected ones; no error iff the record has every feature and no other key |
| Serving.CellOf | app.py:44 | a cell is the record's value, or NaN where the record lacks the column |
| Serving.RecordCells | app.py:44 | one column per feature in feature order, one cell per record in record order |
| Numeric.ToNumber | app.py:48 | null is NaN, True and False are 1 and 0, numbers are themselves, strings go through pandas' parser, an empty list or dict is NaN (pandas treats every zero-length value as missing), any other list or dict is refused |
| Serving.ToNumericColumn | app.py:48 | success iff every cell converts; on failure the error names the first cell (by position) that does not, and all before it convert |
| Serving.CoerceColumns | app.py:47-48 | each column converted as `ToNumericColumn` converts it |
| Serving.CoerceColumnsSuccess | app.py:47-48 | the frame converts iff every column does |
| Serving.CoercePrefixFailure | app.py:47-48 | the first failing column (in feature order) decides the error |
| Serving.RecordCellsConvert | app.py:44-48 | the framed records convert iff every cell does, and each cell's number is then the converted column's entry |
| Serving.FrameRecords | app.py:36-50 | NoRecords for no record, the key error of the first record, else success iff every cell converts, and then row i, column j is record i's feature j as a number |
| Serving.Frame | app.py:22-50 | the numeric frame has the feature columns and one row per record, or the first error in the source's order |
| Serving.DataFrame.SetColumn | app.py:48 | replaces one column and keeps the frame rectangular |
| Serving.CoerceNumeric | app.py:47-48 | the in-place loop leaves every column numeric exactly when `CoerceColumns` succeeds, else stops with its error |
| Serving.ValidateAndFrame | app.py:22-50 | the frame built and coerced in place is numeric and holds exactly `Frame`; its errors are `Frame`'s |
| Serving.FrameIgnoresKeyOrder | app.py:43-44 | records holding the same values, with keys in any order, are framed identically |
| Serving.LaterMissingKeyIsNaN | app.py:36-44 | only the first record's keys are checked: a later record lacking a feature gets NaN there |
| Serving.ModelInput | app.py:68-69 | without a scaler the frame goes to the model unchanged; with one, the scaler's output under the same labels, and a shape change fails |
| Serving.Respond | app.py:63-73 | InvalidJson for an undecodable body, `Frame`'s error when framing fails; a 200 answer iff framing, scaling and predicting succeed, carrying the model's predictions and n = the number of records |
| Serving.Server.Predict | app.py:63-73 | the handler answers exactly `Respond` with the artifacts loaded at start-up, and n is the number of records |
| Pipeline.ServedArtifactsMatchRun | src/datascience/components/model_trainer.py:34 | with the files as the source leaves them, the server's feature list is the frame's columns minus the target in order, and its model was fitted on this run's training split; its scaler is this run's (fitted on training rows only) when the run chose one, else whatever scaler file was there before |
| Pipeline.StaleScalerServed | src/datascience/components/data_transformation.py:29-33 | as written, after a run with no scaler the server still loads an earlier run's scaler |
| Pipeline.ScalerServedIsLatest | app.py:16-19 | corrected (with `Persist`): the server's scaler is always the latest run's choice |

## Left out

- Flask routing, CORS, the `/health` endpoint, `app.run` and configuration loading are I/O. The directories are the two constants of `Artifacts.Dir`.
- Decoding the request body is not modelled. The body arrives as an optional JSON value, and None stands for invalid JSON.
- Error messages (`str(e)`) are not modelled: each 400 carries a `RequestError` constructor naming the error and its keys or value.
- The numerics of `train_test_split`, `fit_transform`/`transform`, `fit`, `predict` and pandas' parsing of numeric strings are parameters (`Estimators.Library`). Their failures are modelled as "raises".
- Writing a CSV and reading it back is modelled as the identity on the frame. Dtype inference, index handling and the CSV separator are left out.
- `str.lower` is modelled on ASCII letters only.
- JSON numbers are mathematical integers and reals. Float64 rounding, infinities and NaN literals are left out. A float64 cell is NaN or a finite real.
- Data ingestion, evaluation, diagnostics, the parameter and schema loaders and `main.py` are not part of this model.
- DataValidation.NewValidator: the configured target is a given string. The source reads `cfg["features"]["target"]` eagerly, so a configuration without that key raises even when the schema names a target. The model does not capture that.
- DataValidation.NewValidator: schema values are taken to be strings. Non-string YAML values in `required` or `target` are not modelled.
- Serving.Respond: the number of predictions is whatever the model's `predict` returns. The model does not state that it equals `n`; `n` itself is proved to be the number of records.
- The directory creation in the constructors (`mkdir`) is not modelled.

## Findings

| source | as written | input that shows it | evidently intended | confidence | as-written member | corrected member |
|---|---|---|---|---|---|---|
| src/datascience/components/data_transformation.py:29-33 | `scaler.joblib` is written when a scaler is chosen and never removed when none is | run once with `preprocessing.scaler: standard`, then again with `none` and retrain: the new model is fitted on unscaled columns, but app.py:17-19 finds the old `scaler.joblib` and scales every request with it | after a run without a scaler there is no scaler file, so the server scales requests exactly when the model was trained on scaled data | medium, not executed | Pipeline.StaleScalerServed | DataTransformation.Persist |

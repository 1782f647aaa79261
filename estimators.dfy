/**
 * The scikit-learn objects the pipeline uses, as values. A fitted scaler or
 * model is identified by what it was built from (its kind and the data it was
 * fitted on); the numerics of fitting, transforming and predicting are the
 * fields of `Library`, functions this model does not look inside.
 */
module Estimators {
  import opened Wrappers
  import opened PyValues
  import opened Tables
  import opened Numeric

  /** StandardScaler or MinMaxScaler. */
  datatype ScalerKind = Standard | MinMax

  /** A library call's outcome as a Python result: None means it raised. */
  function Raised<T>(o: Option<T>): (r: Result<T, PyError>)
    ensures r.Success? <==> o.Some?
    ensures r.Success? ==> r.value == o.value
  {
    if o.Some? then Success(o.value) else Failure(LibraryError)
  }

  /** A scaler of `kind` fitted on the rows of `fittedOn`. */
  datatype FittedScaler = FittedScaler(kind: ScalerKind, fittedOn: Table<Json>)

  /** LinearRegression, or RandomForestRegressor with its four keyword arguments
      exactly as they are passed (unvalidated parameter values). */
  datatype ModelSpec =
    | Linear
    | RandomForest(nEstimators: Json, maxDepth: Json, randomState: Json, nJobs: Json)

  /** A regressor of `spec` fitted on features `trainX` and target `trainY`. */
  datatype FittedModel = FittedModel(spec: ModelSpec, trainX: Table<Json>, trainY: seq<Num>)

  /** The row positions `train_test_split` puts in the training and test parts. */
  datatype Partition = Partition(train: seq<nat>, test: seq<nat>)

  /** The third-party operations the core calls, each returning None where it raises. */
  datatype Library = Library(
    /** `train_test_split` on n rows with test_size, shuffle and random_state. */
    split: (nat, Json, Json, Json) -> Option<Partition>,
    /** `scaler.transform` on a training-time frame. */
    transform: (FittedScaler, Table<Json>) -> Option<seq<seq<Json>>>,
    /** Whether `model.fit(X, y)` completes. */
    fits: (ModelSpec, Table<Json>, seq<Num>) -> bool,
    /** pandas' parsing of a numeric string. */
    parse: string -> Option<Num>,
    /** `scaler.transform` on a numeric request frame. */
    scaleRequest: (FittedScaler, seq<seq<Num>>) -> Option<seq<seq<Num>>>,
    /** `np.ravel(model.predict(X))`. */
    predict: (FittedModel, Table<Num>) -> Option<seq<real>>)
}

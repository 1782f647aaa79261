/**
 * `ModelTrainer` (src/datascience/components/model_trainer.py): choose the
 * regressor from the parameters, read the training split back, coerce the
 * target to numbers, fit, and write the feature list and the model.
 */
module ModelTrainer {
  import opened Wrappers
  import opened PyValues
  import opened Tables
  import opened Numeric
  import opened Estimators
  import opened Artifacts

  /** `(m.get("type") or "random_forest").lower()` with `m = params.get("model", {})`.
      A `model` entry that is not a dict (null included) has no `get` and raises. */
  function ModelType(params: Json): (r: Result<string, PyError>)
    ensures !params.JObject? ==> r.Failure?
    ensures (params.JObject? && "model" !in params.entries) ==> r == Success("random_forest")
    ensures (params.JObject? && "model" in params.entries && !params.entries["model"].JObject?) ==> r.Failure?
    ensures (params.JObject? && "model" in params.entries && params.entries["model"].JObject?) ==>
              var m := params.entries["model"];
              && ("type" !in m.entries || !Truthy(m.entries["type"]) ==> r == Success("random_forest"))
              && ("type" in m.entries && Truthy(m.entries["type"]) ==> r == LowerValue(m.entries["type"]))
  {
    var m :- Get(params, "model", EmptyObject());
    var t :- Get(m, "type", JNull);
    LowerKeepsLowercase("random_forest");
    LowerValue(Or(t, JString("random_forest")))
  }

  /** `lower` leaves a string without capitals as it is. */
  lemma LowerKeepsLowercase(s: string)
    requires forall i :: 0 <= i < |s| ==> !('A' <= s[i] <= 'Z')
    ensures Lower(s) == s
  {
  }

  /** `_build_model`: type "linear" in any letter case selects LinearRegression;
      any other type selects a random forest whose arguments default to
      n_estimators 200, max_depth None and n_jobs -1, with random_state the
      `seed` entry if present, else 42. */
  function BuildModel(params: Json): (r: Result<ModelSpec, PyError>)
    ensures r.Success? <==> ModelType(params).Success?
    ensures r.Success? ==> (r.value.Linear? <==> ModelType(params).value == "linear")
    ensures r.Success? && r.value.RandomForest? ==>
              var m := Get(params, "model", EmptyObject()).value;
              && r.value.nEstimators == (if "n_estimators" in m.entries then m.entries["n_estimators"] else JInt(200))
              && r.value.maxDepth == (if "max_depth" in m.entries then m.entries["max_depth"] else JNull)
              && r.value.randomState == (if "seed" in params.entries then params.entries["seed"] else JInt(42))
              && r.value.nJobs == (if "n_jobs" in m.entries then m.entries["n_jobs"] else JInt(-1))
  {
    var mtype :- ModelType(params);
    if mtype == "linear" then Success(Linear)
    else
      var m := Get(params, "model", EmptyObject()).value;
      RandomForestFrom(params, m)
  }

  /** The forest's keyword arguments, each a lookup with its documented default. */
  function RandomForestFrom(params: Json, m: Json): (r: Result<ModelSpec, PyError>)
    requires params.JObject? && m.JObject?
    ensures r.Success? && r.value.RandomForest?
  {
    Success(RandomForest(
      Get(m, "n_estimators", JInt(200)).value,
      Get(m, "max_depth", JNull).value,
      Get(params, "seed", JInt(42)).value,
      Get(m, "n_jobs", JInt(-1)).value))
  }

  /** `d[key] = v` on a dict. */
  function WithEntry(d: Json, key: string, v: Json): (r: Json)
    requires d.JObject?
    ensures r.JObject? && r.entries == d.entries[key := v]
  {
    JObject(if key in d.entries then d.keys else d.keys + [key], d.entries[key := v])
  }

  /** The letter case of the model type does not matter: two parameter sets
      that differ only in `model.type`, with types equal once lower-cased,
      build the same regressor ("LINEAR" and "Linear" select LinearRegression). */
  lemma BuildModelIgnoresTypeCase(params: Json, m: Json, t1: string, t2: string)
    requires params.JObject? && m.JObject?
    requires Lower(t1) == Lower(t2)
    ensures BuildModel(WithEntry(params, "model", WithEntry(m, "type", JString(t1))))
         == BuildModel(WithEntry(params, "model", WithEntry(m, "type", JString(t2))))
  {
    var p1 := WithEntry(params, "model", WithEntry(m, "type", JString(t1)));
    var p2 := WithEntry(params, "model", WithEntry(m, "type", JString(t2)));
    assert ModelType(p1) == ModelType(p2);
  }

  /** `read_csv(...).squeeze("columns")` followed by `iloc[:, 0]` when more than
      one column remains: the first column of the target file. A file without
      columns leaves `iloc[:, 0]` out of range. */
  function TargetColumn(y: Table<Json>): (r: Result<seq<Json>, PyError>)
    requires y.Valid()
    ensures r.Success? <==> y.columns != []
    ensures r.Failure? ==> r.error == IndexError
    ensures r.Success? ==> |r.value| == |y.rows|
    ensures r.Success? ==> forall i :: 0 <= i < |y.rows| ==> r.value[i] == y.rows[i][0]
  {
    if y.columns == [] then Failure(IndexError) else Success(Column(y, 0))
  }

  /** Everything `train` computes before writing: the fitted model. */
  function TrainPlan(params: Json, lib: Library, files: map<Path, Artifact>): (r: Result<FittedModel, PyError>)
    ensures r.Success? <==>
              && XTrainCsv in files && files[XTrainCsv].Csv?
              && YTrainCsv in files && files[YTrainCsv].Csv?
              && files[YTrainCsv].table.Valid() && files[YTrainCsv].table.columns != []
              && BuildModel(params).Success?
              && lib.fits(BuildModel(params).value, files[XTrainCsv].table,
                          CoerceColumn(Column(files[YTrainCsv].table, 0), lib.parse))
    ensures XTrainCsv !in files ==> r == Failure(FileNotFound(XTrainCsv.name))
    ensures XTrainCsv in files && files[XTrainCsv].Csv? && YTrainCsv !in files ==> r == Failure(FileNotFound(YTrainCsv.name))
    ensures r.Success? ==> XTrainCsv in files && files[XTrainCsv] == Csv(r.value.trainX)
    ensures r.Success? ==> YTrainCsv in files && files[YTrainCsv].Csv? && files[YTrainCsv].table.Valid()
    ensures r.Success? ==> files[YTrainCsv].table.columns != []
    ensures r.Success? ==>
              var y := files[YTrainCsv].table;
              |r.value.trainY| == |y.rows| &&
              forall i :: 0 <= i < |y.rows| ==>
                r.value.trainY[i] == (if IsNumeric(y.rows[i][0], lib.parse) then ToNumber(y.rows[i][0], lib.parse).value else NaN)
    ensures r.Success? ==> BuildModel(params) == Success(r.value.spec)
  {
    var xTrain :- ReadCsv(files, XTrainCsv);
    var yFrame :- ReadCsv(files, YTrainCsv);
    if !yFrame.Valid() then Failure(ValueError)
    else
      var y :- TargetColumn(yFrame);
      var yNum := CoerceColumn(y, lib.parse);
      var spec :- BuildModel(params);
      if !lib.fits(spec, xTrain, yNum) then Failure(LibraryError)
      else Success(FittedModel(spec, xTrain, yNum))
  }

  /** Lines 34-36: the files after training: `features.json` lists the
      training columns in their order, `model.joblib` holds the model; no other
      file changes. */
  function TrainOutput(files: map<Path, Artifact>, model: FittedModel): (r: map<Path, Artifact>)
    ensures FeaturesJson in r && r[FeaturesJson] == FeatureList(model.trainX.columns)
    ensures ModelJoblib in r && r[ModelJoblib] == ModelFile(model)
    ensures forall p :: p != FeaturesJson && p != ModelJoblib ==> (p in r <==> p in files)
    ensures forall p :: p in files && p != FeaturesJson && p != ModelJoblib ==> r[p] == files[p]
  {
    files[FeaturesJson := FeatureList(model.trainX.columns)][ModelJoblib := ModelFile(model)]
  }

  /** `train`: on success the feature list is exactly the training columns in
      their order, written next to the model fitted on them; on failure no
      file is written. */
  method Train(params: Json, lib: Library, store: ArtifactStore) returns (r: Result<Path, PyError>)
    modifies store
    ensures r.Success? <==> TrainPlan(params, lib, old(store.files)).Success?
    ensures r.Success? ==>
              var model := TrainPlan(params, lib, old(store.files)).value;
              r.value == ModelJoblib && store.files == TrainOutput(old(store.files), model)
    ensures r.Failure? ==> store.files == old(store.files)
  {
    var xTrain :- ReadCsv(store.files, XTrainCsv);
    var yFrame :- ReadCsv(store.files, YTrainCsv);
    if !yFrame.Valid() {
      return Failure(ValueError);
    }
    var y :- TargetColumn(yFrame);
    var yNum := CoerceColumn(y, lib.parse);
    var spec :- BuildModel(params);
    if !lib.fits(spec, xTrain, yNum) {
      return Failure(LibraryError);
    }
    var model := FittedModel(spec, xTrain, yNum);
    store.Write(FeaturesJson, FeatureList(xTrain.columns));
    store.Write(ModelJoblib, ModelFile(model));
    r := Success(ModelJoblib);
  }
}

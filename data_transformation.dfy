/**
 * `DataTransformation` (src/datascience/components/data_transformation.py):
 * separate the target from the features, split the rows into a training and
 * a test part, optionally fit a scaler on the training features and apply it
 * to both parts, and write the four splits (and the scaler) to the processed
 * data directory.
 */
module DataTransformation {
  import opened Wrappers
  import opened PyValues
  import opened Seqs
  import opened Tables
  import opened Estimators
  import opened Artifacts

  /** The feature columns: every column of the frame but the target, in order. */
  function FeatureColumns(columns: seq<string>, target: string): (r: seq<string>)
    ensures target !in r
    ensures forall c :: c in r <==> c in columns && c != target
  {
    Filter(columns, Except(target))
  }

  /** The feature columns keep the frame's column order: removing the target
      from columns placed side by side removes it from each part. */
  lemma FeatureColumnsOrder(front: seq<string>, back: seq<string>, target: string)
    ensures FeatureColumns(front + back, target) == FeatureColumns(front, target) + FeatureColumns(back, target)
  {
    FilterConcat(front, back, Except(target));
  }

  /** `(params.get("preprocessing", {}) or {}).get("scaler", "none")`. */
  function ScalerName(params: Json): (r: Result<Json, PyError>)
    ensures !params.JObject? ==> r.Failure?
    ensures params.JObject? && "preprocessing" !in params.entries ==> r == Success(JString("none"))
    ensures (params.JObject? && "preprocessing" in params.entries && !Truthy(params.entries["preprocessing"]))
              ==> r == Success(JString("none"))
    ensures (params.JObject? && "preprocessing" in params.entries && Truthy(params.entries["preprocessing"]))
              ==> r == Get(params.entries["preprocessing"], "scaler", JString("none"))
  {
    var pre :- Get(params, "preprocessing", EmptyObject());
    Get(Or(pre, EmptyObject()), "scaler", JString("none"))
  }

  /** `_scaler`: "standard" and "minmax" select a scaler; every other name
      (including "none" and unknown names) selects none; a list or dict as
      the name cannot be looked up and raises. */
  function SelectScaler(params: Json): (r: Result<Option<ScalerKind>, PyError>)
    ensures r == Success(Some(Standard)) <==> ScalerName(params) == Success(JString("standard"))
    ensures r == Success(Some(MinMax)) <==> ScalerName(params) == Success(JString("minmax"))
    ensures r == Success(None) <==>
              ScalerName(params).Success? && Hashable(ScalerName(params).value)
              && ScalerName(params).value != JString("standard")
              && ScalerName(params).value != JString("minmax")
  {
    var name :- ScalerName(params);
    if !Hashable(name) then Failure(TypeError)
    else if name == JString("standard") then Success(Some(Standard))
    else if name == JString("minmax") then Success(Some(MinMax))
    else Success(None)
  }

  /** The four parts `train_test_split` returns. */
  datatype Split = Split(xTrain: Table<Json>, xTest: Table<Json>, yTrain: Table<Json>, yTest: Table<Json>)

  /** What `split_and_transform` produces: the (possibly scaled) split and the
      fitted scaler, if one was selected. */
  datatype Outputs = Outputs(split: Split, scaler: Option<FittedScaler>)

  predicate WellShaped(s: Split) {
    && s.xTrain.Valid() && s.xTest.Valid() && s.yTrain.Valid() && s.yTest.Valid()
    && s.xTrain.columns == s.xTest.columns
    && s.yTrain.columns == s.yTest.columns
    && |s.xTrain.rows| == |s.yTrain.rows|
    && |s.xTest.rows| == |s.yTest.rows|
  }

  /** Every position is a row of a frame of `height` rows. */
  predicate Positions(idx: seq<nat>, height: nat) {
    forall k :: 0 <= k < |idx| ==> idx[k] < height
  }

  /** Lines 22-27: the row positions `train_test_split` chooses, from
      `params["split"]["test_size"]`, `params["split"]["shuffle"]` and
      `params["seed"]` (looked up in that order); positions outside the frame
      raise IndexError. */
  function SplitPositions(params: Json, lib: Library, height: nat): (r: Result<Partition, PyError>)
    ensures params.JObject? && "split" !in params.entries ==> r == Failure(KeyError("split"))
    ensures params.JObject? && "split" in params.entries && params.entries["split"].JObject? ==>
              var sp := params.entries["split"];
              && ("test_size" !in sp.entries ==> r == Failure(KeyError("test_size")))
              && ("test_size" in sp.entries && "shuffle" !in sp.entries ==> r == Failure(KeyError("shuffle")))
              && ("test_size" in sp.entries && "shuffle" in sp.entries && "seed" !in params.entries ==>
                    r == Failure(KeyError("seed")))
    ensures r.Success? <==>
              && params.JObject? && "split" in params.entries && "seed" in params.entries
              && var sp := params.entries["split"];
              && sp.JObject? && "test_size" in sp.entries && "shuffle" in sp.entries
              && var part := lib.split(height, sp.entries["test_size"], sp.entries["shuffle"], params.entries["seed"]);
              && part.Some? && Positions(part.value.train, height) && Positions(part.value.test, height)
    ensures r.Success? ==>
              && params.JObject? && "split" in params.entries && "seed" in params.entries
              && var sp := params.entries["split"];
              && sp.JObject? && "test_size" in sp.entries && "shuffle" in sp.entries
              && lib.split(height, sp.entries["test_size"], sp.entries["shuffle"], params.entries["seed"]) == Some(r.value)
    ensures r.Success? ==> Positions(r.value.train, height) && Positions(r.value.test, height)
  {
    var splitParams :- Subscript(params, "split");
    var testSize :- Subscript(splitParams, "test_size");
    var shuffle :- Subscript(splitParams, "shuffle");
    var seed :- Subscript(params, "seed");
    var part :- Raised(lib.split(height, testSize, shuffle, seed));
    if !Positions(part.train, height) || !Positions(part.test, height) then Failure(IndexError)
    else Success(part)
  }

  /** Row k of a part taken at `positions`: the frame row `positions[k]`,
      restricted to the columns `keep` selects. */
  predicate RowsFrom(part: Table<Json>, df: Table<Json>, positions: seq<nat>, keep: string -> bool)
    requires df.Valid() && Positions(positions, |df.rows|)
  {
    |part.rows| == |positions| &&
    forall k :: 0 <= k < |positions| ==> part.rows[k] == ProjectRow(df.columns, df.rows[positions[k]], keep)
  }

  /** Lines 19-27: features and target are separated, then the same row
      positions are taken from both, so row k of the features and row k of the
      target come from the same frame row. */
  function SplitFrame(params: Json, target: string, lib: Library, df: Table<Json>): (r: Result<Split, PyError>)
    requires df.Valid()
    ensures target !in df.columns ==> r == Failure(KeyError(target))
    ensures r.Success? <==> target in df.columns && SplitPositions(params, lib, |df.rows|).Success?
    ensures r.Success? ==> WellShaped(r.value)
    ensures r.Success? ==> r.value.xTrain.columns == FeatureColumns(df.columns, target)
    ensures r.Success? ==> r.value.yTrain.columns == Filter(df.columns, Only(target)) != []
    ensures r.Success? ==>
              var p := SplitPositions(params, lib, |df.rows|).value;
              && RowsFrom(r.value.xTrain, df, p.train, Except(target))
              && RowsFrom(r.value.yTrain, df, p.train, Only(target))
              && RowsFrom(r.value.xTest, df, p.test, Except(target))
              && RowsFrom(r.value.yTest, df, p.test, Only(target))
  {
    var x :- Drop(df, target);
    // the target is a column once the drop succeeded, so `df[target]` cannot raise
    var y := Pick(df, target).value;
    var part :- SplitPositions(params, lib, |df.rows|);
    Success(Split(TakeRows(x, part.train).value, TakeRows(x, part.test).value,
                  TakeRows(y, part.train).value, TakeRows(y, part.test).value))
  }

  /** A transformed matrix wrapped back into a frame with the given labels;
      pandas raises when the shape does not fit them. */
  function Reframe(columns: seq<string>, m: seq<seq<Json>>, height: nat): (r: Result<Table<Json>, PyError>)
    ensures r.Success? <==> HasShape(m, height, |columns|)
    ensures r.Success? ==> r.value.Valid() && r.value.columns == columns && r.value.rows == m
  {
    if HasShape(m, height, |columns|) then Success(Table(columns, m)) else Failure(ValueError)
  }

  /** Lines 29-32: with a scaler, fit it on the training features only and
      transform both feature parts, keeping labels and row counts. */
  function ScaleSplit(params: Json, lib: Library, s: Split): (r: Result<Outputs, PyError>)
    requires WellShaped(s)
    ensures r.Success? <==>
              && SelectScaler(params).Success?
              && (SelectScaler(params).value.None? ||
                  var sc := FittedScaler(SelectScaler(params).value.value, s.xTrain);
                  && lib.transform(sc, s.xTrain).Some?
                  && HasShape(lib.transform(sc, s.xTrain).value, |s.xTrain.rows|, |s.xTrain.columns|)
                  && lib.transform(sc, s.xTest).Some?
                  && HasShape(lib.transform(sc, s.xTest).value, |s.xTest.rows|, |s.xTrain.columns|))
    ensures r.Success? ==> WellShaped(r.value.split)
    ensures r.Success? ==> r.value.split.xTrain.columns == s.xTrain.columns
    ensures r.Success? ==> r.value.split.yTrain == s.yTrain && r.value.split.yTest == s.yTest
    ensures r.Success? ==> (r.value.scaler.Some? <==> SelectScaler(params).Success? && SelectScaler(params).value.Some?)
    ensures r.Success? && r.value.scaler.None? ==> r.value.split == s
    ensures r.Success? && r.value.scaler.Some? ==>
              r.value.scaler.value == FittedScaler(SelectScaler(params).value.value, s.xTrain)
    ensures r.Success? && r.value.scaler.Some? ==>
              Some(r.value.split.xTrain.rows) == lib.transform(r.value.scaler.value, s.xTrain) &&
              Some(r.value.split.xTest.rows) == lib.transform(r.value.scaler.value, s.xTest)
  {
    var kind :- SelectScaler(params);
    if kind.None? then Success(Outputs(s, None))
    else
      var scaler := FittedScaler(kind.value, s.xTrain);
      var trainRows :- Raised(lib.transform(scaler, s.xTrain));
      var xTrain :- Reframe(s.xTrain.columns, trainRows, |s.xTrain.rows|);
      var testRows :- Raised(lib.transform(scaler, s.xTest));
      var xTest :- Reframe(s.xTrain.columns, testRows, |s.xTest.rows|);
      Success(Outputs(Split(xTrain, xTest, s.yTrain, s.yTest), Some(scaler)))
  }

  /** `split_and_transform` as a value: everything it computes before writing. */
  function Plan(params: Json, target: string, lib: Library, df: Table<Json>): (r: Result<Outputs, PyError>)
    requires df.Valid()
    ensures r.Success? <==>
              SplitFrame(params, target, lib, df).Success? &&
              ScaleSplit(params, lib, SplitFrame(params, target, lib, df).value).Success?
    ensures r.Success? ==> WellShaped(r.value.split)
    ensures r.Success? ==> r.value.split.xTrain.columns == FeatureColumns(df.columns, target)
    ensures r.Success? && r.value.scaler.Some? ==>
              r.value.scaler.value.fittedOn == SplitFrame(params, target, lib, df).value.xTrain
  {
    var s :- SplitFrame(params, target, lib, df);
    ScaleSplit(params, lib, s)
  }

  /** The files `split_and_transform` writes. */
  const SplitFiles: set<Path> := {XTrainCsv, XTestCsv, YTrainCsv, YTestCsv}

  /** The four split files as written. */
  function WriteSplit(files: map<Path, Artifact>, s: Split): (r: map<Path, Artifact>)
    ensures forall p :: p in r <==> p in files || p in SplitFiles
    ensures XTrainCsv in r && XTestCsv in r && YTrainCsv in r && YTestCsv in r
    ensures r[XTrainCsv] == Csv(s.xTrain) && r[XTestCsv] == Csv(s.xTest)
    ensures r[YTrainCsv] == Csv(s.yTrain) && r[YTestCsv] == Csv(s.yTest)
    ensures forall p :: p in files && p !in SplitFiles ==> r[p] == files[p]
  {
    files[XTrainCsv := Csv(s.xTrain)][XTestCsv := Csv(s.xTest)][YTrainCsv := Csv(s.yTrain)][YTestCsv := Csv(s.yTest)]
  }

  /** The files after the run as the source writes them: the scaler file is
      only ever written, so a run without a scaler leaves an earlier run's
      `scaler.joblib` in place. */
  function PersistAsWritten(files: map<Path, Artifact>, o: Outputs): (r: map<Path, Artifact>)
    ensures ScalerJoblib in r <==> o.scaler.Some? || ScalerJoblib in files
    ensures o.scaler.Some? ==> r[ScalerJoblib] == ScalerFile(o.scaler.value)
    ensures o.scaler.None? && ScalerJoblib in files ==> r[ScalerJoblib] == files[ScalerJoblib]
    ensures XTrainCsv in r && XTestCsv in r && YTrainCsv in r && YTestCsv in r
    ensures r[XTrainCsv] == Csv(o.split.xTrain) && r[XTestCsv] == Csv(o.split.xTest)
    ensures r[YTrainCsv] == Csv(o.split.yTrain) && r[YTestCsv] == Csv(o.split.yTest)
    ensures forall p :: p != ScalerJoblib && p !in SplitFiles ==> (p in r <==> p in files)
    ensures forall p :: p in files && p != ScalerJoblib && p !in SplitFiles ==> r[p] == files[p]
  {
    var base := if o.scaler.Some? then files[ScalerJoblib := ScalerFile(o.scaler.value)] else files;
    WriteSplit(base, o.split)
  }

  /** The files after the run, corrected: the scaler file exists exactly when
      this run selected a scaler, and then holds this run's scaler. */
  function Persist(files: map<Path, Artifact>, o: Outputs): (r: map<Path, Artifact>)
    ensures ScalerJoblib in r <==> o.scaler.Some?
    ensures o.scaler.Some? ==> r[ScalerJoblib] == ScalerFile(o.scaler.value)
    ensures XTrainCsv in r && XTestCsv in r && YTrainCsv in r && YTestCsv in r
    ensures r[XTrainCsv] == Csv(o.split.xTrain) && r[XTestCsv] == Csv(o.split.xTest)
    ensures r[YTrainCsv] == Csv(o.split.yTrain) && r[YTestCsv] == Csv(o.split.yTest)
    ensures forall p :: p != ScalerJoblib && p !in SplitFiles ==> (p in r <==> p in files)
    ensures forall p :: p in files && p != ScalerJoblib && p !in SplitFiles ==> r[p] == files[p]
  {
    var base := if o.scaler.Some? then files[ScalerJoblib := ScalerFile(o.scaler.value)]
                else files - {ScalerJoblib};
    WriteSplit(base, o.split)
  }

  /** `split_and_transform`, step by step: each failure happens before any
      file is written; on success the files are as the source leaves them,
      an earlier `scaler.joblib` included when no scaler is chosen. */
  method SplitAndTransform(params: Json, target: string, lib: Library, df: Table<Json>, store: ArtifactStore)
    returns (r: Result<Outputs, PyError>)
    requires df.Valid()
    modifies store
    ensures r == Plan(params, target, lib, df)
    ensures r.Success? ==> store.files == PersistAsWritten(old(store.files), r.value)
    ensures r.Failure? ==> store.files == old(store.files)
  {
    var x :- Drop(df, target);
    var y := Pick(df, target).value;
    var part :- SplitPositions(params, lib, |df.rows|);
    var xTrain, xTest := TakeRows(x, part.train).value, TakeRows(x, part.test).value;
    var yTrain, yTest := TakeRows(y, part.train).value, TakeRows(y, part.test).value;
    ghost var s := Split(xTrain, xTest, yTrain, yTest);
    assert SplitFrame(params, target, lib, df) == Success(s);

    var kind :- SelectScaler(params);
    var scaler: Option<FittedScaler> := None;
    if kind.Some? {
      var fitted := FittedScaler(kind.value, xTrain);
      var trainRows :- Raised(lib.transform(fitted, xTrain));
      var scaledTrain :- Reframe(x.columns, trainRows, |xTrain.rows|);
      var testRows :- Raised(lib.transform(fitted, xTest));
      xTest :- Reframe(x.columns, testRows, |xTest.rows|);
      xTrain := scaledTrain;
      store.Write(ScalerJoblib, ScalerFile(fitted));
      scaler := Some(fitted);
    }

    store.Write(XTrainCsv, Csv(xTrain));
    store.Write(XTestCsv, Csv(xTest));
    store.Write(YTrainCsv, Csv(yTrain));
    store.Write(YTestCsv, Csv(yTest));
    r := Success(Outputs(Split(xTrain, xTest, yTrain, yTest), scaler));
  }
}

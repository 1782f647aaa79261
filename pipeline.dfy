/**
 * The stages together, through the files they share: `split_and_transform`
 * writes the split and the scaler, `train` reads the training split and writes
 * the feature list and the model, and the server loads all three.
 */
module Pipeline {
  import opened Wrappers
  import opened PyValues
  import opened Tables
  import opened Estimators
  import opened Artifacts
  import opened DataTransformation
  import opened ModelTrainer
  import opened Serving

  /** The server sees what this run produced, with the files as the source
      leaves them: the feature list is the frame's columns without the target,
      in the frame's order, and the model is the one fitted on this run's
      training split. The scaler is this run's, fitted on the training rows
      only, when this run chose one; otherwise it is whatever scaler file an
      earlier run left. */
  lemma ServedArtifactsMatchRun(params: Json, target: string, lib: Library, df: Table<Json>,
                                trainParams: Json, files: map<Path, Artifact>)
    requires df.Valid()
    requires ScalerJoblib in files ==> files[ScalerJoblib].ScalerFile?
    requires Plan(params, target, lib, df).Success?
    requires TrainPlan(trainParams, lib, PersistAsWritten(files, Plan(params, target, lib, df).value)).Success?
    ensures
      var o := Plan(params, target, lib, df).value;
      var split := PersistAsWritten(files, o);
      var served := LoadArtifacts(TrainOutput(split, TrainPlan(trainParams, lib, split).value));
      && served.Success?
      && served.value.features == FeatureColumns(df.columns, target)
      && served.value.model.trainX == o.split.xTrain
      && (o.scaler.Some? ==>
            && served.value.scaler == o.scaler
            && served.value.scaler.value.fittedOn == SplitFrame(params, target, lib, df).value.xTrain)
      && (o.scaler.None? ==>
            served.value.scaler == (if ScalerJoblib in files then Some(files[ScalerJoblib].scaler) else None))
  {
    var o := Plan(params, target, lib, df).value;
    var split := PersistAsWritten(files, o);
    var model := TrainPlan(trainParams, lib, split).value;
    var trained := TrainOutput(split, model);
    assert model.trainX == o.split.xTrain;
    assert ScalerJoblib in trained <==> ScalerJoblib in split;
    assert ScalerJoblib in trained ==> trained[ScalerJoblib] == split[ScalerJoblib];
  }

  /** The scaler file as the source leaves it: after a run that chose no
      scaler, an earlier run's `scaler.joblib` is still there, and the server
      loads it and applies it to requests for a model trained on unscaled
      columns. */
  lemma StaleScalerServed(files: map<Path, Artifact>, o: Outputs, model: FittedModel)
    requires ScalerJoblib in files && files[ScalerJoblib].ScalerFile?
    requires o.scaler.None?
    ensures
      var served := LoadArtifacts(TrainOutput(PersistAsWritten(files, o), model));
      && served.Success?
      && served.value.scaler == Some(files[ScalerJoblib].scaler)
      && served.value.scaler != o.scaler
  {
    var after := PersistAsWritten(files, o);
    assert after[ScalerJoblib] == files[ScalerJoblib];
    var trained := TrainOutput(after, model);
    assert trained[ScalerJoblib] == files[ScalerJoblib];
  }

  /** With the scaler file removed when no scaler is chosen, the server's
      scaler is always the one of the latest run. */
  lemma ScalerServedIsLatest(files: map<Path, Artifact>, o: Outputs, model: FittedModel)
    ensures
      var served := LoadArtifacts(TrainOutput(Persist(files, o), model));
      served.Success? && served.value.scaler == o.scaler
  {
    var after := Persist(files, o);
    var trained := TrainOutput(after, model);
    assert ScalerJoblib in trained <==> ScalerJoblib in after;
    if o.scaler.Some? {
      assert trained[ScalerJoblib] == after[ScalerJoblib];
    }
  }
}

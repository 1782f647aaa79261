/** The files the pipeline writes and the server reads, as a map from path to
    content. CSV files hold the frame that was written to them. */
module Artifacts {
  import opened Wrappers
  import opened PyValues
  import opened Tables
  import opened Estimators

  /** `paths.data_processed_dir` and `paths.model_dir` of the configuration. */
  datatype Dir = ProcessedDir | ModelDir

  datatype Path = Path(dir: Dir, name: string)

  const XTrainCsv := Path(ProcessedDir, "X_train.csv")
  const XTestCsv := Path(ProcessedDir, "X_test.csv")
  const YTrainCsv := Path(ProcessedDir, "y_train.csv")
  const YTestCsv := Path(ProcessedDir, "y_test.csv")
  const ScalerJoblib := Path(ProcessedDir, "scaler.joblib")
  const FeaturesJson := Path(ModelDir, "features.json")
  const ModelJoblib := Path(ModelDir, "model.joblib")

  datatype Artifact =
    | Csv(table: Table<Json>)
    | ScalerFile(scaler: FittedScaler)
    | FeatureList(names: seq<string>)
    | ModelFile(model: FittedModel)

  /** The file system under the two output directories. */
  class ArtifactStore {
    var files: map<Path, Artifact>

    constructor (initial: map<Path, Artifact>)
      ensures files == initial
    {
      files := initial;
    }

    /** Write (or overwrite) one file. */
    method Write(p: Path, a: Artifact)
      modifies this
      ensures files == old(files)[p := a]
    {
      files := files[p := a];
    }
  }

  /** `pd.read_csv(path)`: the frame that was written there. */
  function ReadCsv(files: map<Path, Artifact>, p: Path): (r: Result<Table<Json>, PyError>)
    ensures r.Success? <==> p in files && files[p].Csv?
    ensures r.Success? ==> r.value == files[p].table
    ensures p !in files ==> r == Failure(FileNotFound(p.name))
  {
    if p !in files then Failure(FileNotFound(p.name))
    else if files[p].Csv? then Success(files[p].table)
    else Failure(ValueError)
  }
}

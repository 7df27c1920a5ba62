/**
 * The backend's record types: the enumerations, the default training configuration and
 * the documents stored in its five collections. No behaviour lives here.
 */
module Models {
  import opened Wrappers
  import TrainingSimulator

  /** Record identifiers (generated uuid strings). */
  type Id = string

  datatype Modality = Ct | Mri | Pet

  datatype ModelArchitecture = Unet3D | Vit

  datatype TrainingStatus = Pending | Running | Completed | Failed | Paused

  datatype PretrainingMethod = Contrastive | Mae | CrossModality

  /** The fields a client supplies when creating a dataset. */
  datatype DatasetFields = DatasetFields(
    name: string,
    modality: Modality,
    description: Option<string>,
    numSamples: int,
    numLabeled: int,
    resolution: Option<string>)

  datatype Dataset = Dataset(id: Id, fields: DatasetFields)

  /** The fields a client supplies when creating a model configuration. */
  datatype ModelConfigFields = ModelConfigFields(
    name: string,
    architecture: ModelArchitecture,
    encoderDepth: int,
    numChannels: int,
    featureDim: int,
    projectionDim: int,
    usePretrained: bool)

  datatype ModelConfig = ModelConfig(id: Id, fields: ModelConfigFields, parametersCount: Option<int>)

  /**
   * An experiment's training configuration as stored. The epoch counts are optional
   * because the handlers read them with a default, as from a document that may lack them.
   */
  datatype TrainingConfig = TrainingConfig(
    learningRate: real,
    batchSize: int,
    numEpochs: Option<int>,
    warmupEpochs: Option<int>,
    temperature: real,
    lossType: string,
    optimizer: string,
    scheduler: string,
    augmentationStrength: real)

  const DefaultTrainingConfig :=
    TrainingConfig(0.0001, 4, Some(100), Some(10), 0.07, "nt_xent", "adamw", "cosine", 0.5)

  /** The fields a client supplies when creating an experiment. */
  datatype ExperimentFields = ExperimentFields(
    name: string,
    description: Option<string>,
    datasetId: Id,
    modelConfigId: Id,
    pretrainingMethod: PretrainingMethod,
    trainingConfig: TrainingConfig)

  datatype Experiment = Experiment(
    id: Id,
    fields: ExperimentFields,
    status: TrainingStatus,
    currentEpoch: int,
    bestLoss: Option<real>,
    metricsHistory: seq<TrainingSimulator.MetricsRecord>)

  /** The fields a client supplies when creating a fine-tuning configuration. */
  datatype FinetuneFields = FinetuneFields(
    experimentId: Id,
    labeledDatasetId: Id,
    learningRate: real,
    batchSize: int,
    numEpochs: Option<int>,
    freezeEncoder: bool,
    decoderType: string)

  datatype FinetuneConfig = FinetuneConfig(id: Id, fields: FinetuneFields, status: TrainingStatus, currentEpoch: int)

  /** A stored evaluation: the metric bundle and the experiment (and fine-tune run) it belongs to. */
  datatype EvaluationRecord = EvaluationRecord(
    id: Id,
    experimentId: Id,
    finetuneId: Option<Id>,
    metrics: TrainingSimulator.Evaluation)
}

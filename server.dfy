/**
 * The backend's request handlers over an in-memory store. The five document collections
 * become a class whose fields are maps keyed by record id (evaluations, which are only
 * ever appended and listed, are a sequence in insertion order). Each handler is a method
 * whose failure outcomes are `NotFound` (HTTP 404) or `InternalError` (an exception that
 * escapes the handler, HTTP 500). Generated ids, random draws and `math.exp`/`math.cos`
 * are parameters.
 */
module Server {
  import opened Wrappers
  import opened Builtins
  import opened Models
  import opened TrainingSimulator

  datatype ApiError =
    | NotFound(detail: string)
    | InternalError(cause: Exception)

  /** The body of a successful start: the epoch count run and the best loss reached. */
  datatype StartReply = StartReply(epochs: int, bestLoss: real)

  /** The body of a metrics request. */
  datatype MetricsReply = MetricsReply(
    experimentId: Id,
    status: TrainingStatus,
    currentEpoch: int,
    bestLoss: Option<real>,
    metricsHistory: seq<MetricsRecord>)

  /** The body of a seed request: how many records of each kind were created. */
  datatype SeedReply = SeedReply(datasets: int, models: int, experiments: int)

  function Find<K, V>(m: map<K, V>, k: K): (r: Option<V>)
    ensures r.Some? <==> k in m
    ensures r.Some? ==> r.value == m[k]
  {
    if k in m then Some(m[k]) else None
  }

  /** The approximate parameter count given to a new model configuration. */
  function ParametersCount(architecture: ModelArchitecture): (n: int)
    ensures n == 31_000_000 <==> architecture == Unet3D
    ensures n == 86_000_000 <==> architecture != Unet3D
  {
    if architecture == Unet3D then 31_000_000 else 86_000_000
  }

  /** The epoch count a start runs: the configured one, or 100 when the key is absent. */
  function ConfiguredEpochs(e: Experiment): int {
    e.fields.trainingConfig.numEpochs.GetOr(100)
  }

  /** The warmup length a start uses: the configured one, or 10 when the key is absent. */
  function ConfiguredWarmup(e: Experiment): int {
    e.fields.trainingConfig.warmupEpochs.GetOr(10)
  }

  /**
   * The labelled percentage a fine-tune run is evaluated at: `num_labeled / num_samples`
   * as a percentage when the labelled dataset exists and has samples, 10 otherwise.
   */
  function LabelPercent(dataset: Option<Dataset>): (pct: real)
    ensures dataset.None? ==> pct == 10.0
    ensures dataset.Some? && dataset.value.fields.numSamples <= 0 ==> pct == 10.0
    ensures dataset.Some? && dataset.value.fields.numSamples > 0 ==>
      pct * dataset.value.fields.numSamples as real == dataset.value.fields.numLabeled as real * 100.0
  {
    if dataset.Some? then
      var total := dataset.value.fields.numSamples;
      var labeled := dataset.value.fields.numLabeled;
      if total > 0 then labeled as real / total as real * 100.0 else 10.0
    else 10.0
  }

  /** A dataset whose labelled count lies between 0 and its sample count gives a percentage in [0, 100]. */
  lemma LabelPercentInRange(d: Dataset)
    requires 0 <= d.fields.numLabeled <= d.fields.numSamples && 0 < d.fields.numSamples
    ensures 0.0 <= LabelPercent(Some(d)) <= 100.0
  {
    var pct := LabelPercent(Some(d));
    var total := d.fields.numSamples as real;
    assert pct * total == d.fields.numLabeled as real * 100.0;
    assert pct * total <= total * 100.0;
    assert (pct - 100.0) * total <= 0.0;
  }

  /**
   * A fine-tune evaluation never raises when its labelled dataset is missing or has a
   * labelled count between 0 and its sample count: the percentage is then 10 or lies in
   * [0, 100], where evaluation always succeeds.
   */
  lemma FinetuneEvaluationSucceeds(dataset: Option<Dataset>, z: EvalNoise)
    requires dataset.Some? ==> 0 <= dataset.value.fields.numLabeled <= dataset.value.fields.numSamples
    ensures EvaluationMetrics(LabelPercent(dataset), true, z).Success?
  {
    if dataset.Some? && dataset.value.fields.numSamples > 0 {
      LabelPercentInRange(dataset.value);
    }
    EvaluationSucceedsOnPercentRange(LabelPercent(dataset), true, z);
  }

  /**
   * What every stored experiment satisfies: its history is a well-formed curve, the
   * current epoch lies between 0 and the history's length (equal to it once completed),
   * and the best loss is the minimum loss of the history, absent exactly when the
   * history is empty.
   */
  ghost predicate ExperimentConsistent(e: Experiment) {
    && WellFormedHistory(e.metricsHistory)
    && 0 <= e.currentEpoch <= |e.metricsHistory|
    && (e.status == Completed ==> e.currentEpoch == |e.metricsHistory|)
    && (|e.metricsHistory| == 0 ==> e.bestLoss == None)
    && (|e.metricsHistory| > 0 ==> e.bestLoss == Some(MinLoss(e.metricsHistory)))
  }

  /**
   * `after` is `before` once a start has run it to completion: completed, at its
   * configured epoch count, with the generated curve as history and its minimum loss
   * as best loss; nothing else about the record differs.
   */
  ghost predicate RanToCompletion(before: Experiment, after: Experiment, m: Transcendentals, noise: nat -> EpochNoise) {
    && IsTrainingCurve(after.metricsHistory, ConfiguredEpochs(before), ConfiguredWarmup(before), DefaultShape, m, noise)
    && |after.metricsHistory| > 0
    && after == before.(status := Completed,
                        currentEpoch := ConfiguredEpochs(before),
                        bestLoss := Some(MinLoss(after.metricsHistory)),
                        metricsHistory := after.metricsHistory)
  }

  /**
   * A completed run has one record per epoch numbered 1 to `current_epoch`, and its best
   * loss is attained in the history and undercuts no record.
   */
  lemma CompletedRunConsistent(before: Experiment, after: Experiment, m: Transcendentals, noise: nat -> EpochNoise)
    requires RanToCompletion(before, after, m, noise)
    ensures ExperimentConsistent(after)
    ensures after.status == Completed && after.currentEpoch == |after.metricsHistory| == ConfiguredEpochs(before)
    ensures forall k :: 0 <= k < |after.metricsHistory| ==> after.metricsHistory[k].epoch == k + 1
    ensures after.bestLoss.Some?
    ensures forall k :: 0 <= k < |after.metricsHistory| ==> after.bestLoss.value <= after.metricsHistory[k].loss
    ensures exists k :: 0 <= k < |after.metricsHistory| && after.metricsHistory[k].loss == after.bestLoss.value
  {
    TrainingCurveWellFormed(after.metricsHistory, ConfiguredEpochs(before), ConfiguredWarmup(before), DefaultShape, m, noise);
  }

  /**
   * The training run of a start: generates the curve for the experiment's configured
   * epoch counts and completes the record with it. Nothing results when the curve is
   * empty, the case in which `min` raises.
   */
  method RunToCompletion(experiment: Experiment, m: Transcendentals, noise: nat -> EpochNoise)
    returns (finished: Option<Experiment>)
    ensures finished.None? <==> ConfiguredEpochs(experiment) <= 0
    ensures finished.Some? ==>
      RanToCompletion(experiment, finished.value, m, noise) && ExperimentConsistent(finished.value)
  {
    var numEpochs := ConfiguredEpochs(experiment);
    var metrics := GenerateTrainingCurve(numEpochs, ConfiguredWarmup(experiment), DefaultShape, m, noise);
    if |metrics| == 0 {
      return None;
    }
    var after := experiment.(status := Completed, currentEpoch := numEpochs,
                             bestLoss := Some(MinLoss(metrics)), metricsHistory := metrics);
    assert RanToCompletion(experiment, after, m, noise);
    CompletedRunConsistent(experiment, after, m, noise);
    finished := Some(after);
  }

  /** Marking a consistent experiment as running keeps it consistent. */
  lemma RunningConsistent(e: Experiment)
    requires ExperimentConsistent(e)
    ensures ExperimentConsistent(e.(status := Running))
  {
  }

  /** Every dataset is stored under its own id. */
  ghost predicate DatasetsKeyed(datasets: map<Id, Dataset>) {
    forall id :: id in datasets ==> datasets[id].id == id
  }

  /** Every model configuration is stored under its own id. */
  ghost predicate ModelConfigsKeyed(modelConfigs: map<Id, ModelConfig>) {
    forall id :: id in modelConfigs ==> modelConfigs[id].id == id
  }

  /** Every fine-tuning configuration is stored under its own id. */
  ghost predicate FinetuneConfigsKeyed(finetuneConfigs: map<Id, FinetuneConfig>) {
    forall id :: id in finetuneConfigs ==> finetuneConfigs[id].id == id
  }

  /** Every experiment is stored under its own id and is consistent. */
  ghost predicate ExperimentsValid(experiments: map<Id, Experiment>) {
    forall id :: id in experiments ==> experiments[id].id == id && ExperimentConsistent(experiments[id])
  }

  lemma ExperimentsValidUpdate(experiments: map<Id, Experiment>, id: Id, e: Experiment)
    requires ExperimentsValid(experiments)
    requires e.id == id && ExperimentConsistent(e)
    ensures ExperimentsValid(experiments[id := e])
  {
  }

  // ---------------------------------------------------------------------------
  // The demo catalogue written by the seed handler
  // ---------------------------------------------------------------------------

  datatype DemoModel = DemoModel(fields: ModelConfigFields, parametersCount: int)

  datatype DemoExperiment = DemoExperiment(
    name: string,
    datasetIndex: nat,
    modelIndex: nat,
    pretrainingMethod: PretrainingMethod,
    status: TrainingStatus,
    epochs: int)

  const DemoDatasets: seq<DatasetFields> := [
    DatasetFields("BraTS 2023 - Brain Tumor", Mri, Some("Multi-institutional brain tumor MRI dataset"), 1500, 150, Some("240x240x155")),
    DatasetFields("NIH Chest CT", Ct, Some("Chest CT scans from NIH Clinical Center"), 2400, 240, Some("512x512x256")),
    DatasetFields("BTCV - Abdomen CT", Ct, Some("Beyond The Cranial Vault abdomen CT"), 800, 80, Some("512x512x128")),
    DatasetFields("PET-CT Lung", Pet, Some("PET-CT lung cancer imaging data"), 600, 60, Some("128x128x64"))
  ]

  const DemoModels: seq<DemoModel> := [
    DemoModel(ModelConfigFields("3D UNet Encoder", Unet3D, 5, 1, 512, 128, false), 31_000_000),
    DemoModel(ModelConfigFields("ViT-Base 3D", Vit, 12, 1, 768, 256, false), 86_000_000),
    DemoModel(ModelConfigFields("3D UNet Light", Unet3D, 4, 1, 256, 64, false), 12_000_000)
  ]

  const DemoExperiments: seq<DemoExperiment> := [
    DemoExperiment("Brain Tumor SSL - Contrastive", 0, 0, Contrastive, Completed, 100),
    DemoExperiment("Chest CT - MAE Pretraining", 1, 1, Mae, Completed, 80),
    DemoExperiment("Abdomen SSL - Cross-Modality", 2, 0, CrossModality, Running, 50)
  ]

  const DemoDescription := "Self-supervised pretraining experiment"

  predicate Distinct<T(==)>(s: seq<T>) {
    forall i, j :: 0 <= i < j < |s| ==> s[i] != s[j]
  }

  /** The generated ids the seed handler uses; uuid4 ids of one kind never collide. */
  datatype SeedIds = SeedIds(datasets: seq<Id>, models: seq<Id>, experiments: seq<Id>, evaluations: seq<Id>) {
    predicate Fresh() {
      && |datasets| == |DemoDatasets|
      && |models| == |DemoModels|
      && |experiments| == |DemoExperiments|
      && |evaluations| == 2
      && Distinct(datasets)
      && Distinct(models)
      && Distinct(experiments)
    }
  }

  /** The random draws of the seed handler: one curve per experiment, one evaluation per completed one. */
  datatype SeedDraws = SeedDraws(curves: nat -> (nat -> EpochNoise), evaluations: nat -> EvalNoise)

  /** What the seed handler knows of its own catalogue. */
  lemma DemoCatalogueFacts()
    ensures |DemoDatasets| == 4 && |DemoModels| == 3 && |DemoExperiments| == 3
    ensures forall j :: 0 <= j < |DemoExperiments| ==>
      && DemoExperiments[j].datasetIndex < |DemoDatasets|
      && DemoExperiments[j].modelIndex < |DemoModels|
      && DemoExperiments[j].epochs >= 1
      && DemoExperiments[j].datasetIndex == j
    ensures forall i :: 0 <= i < |DemoDatasets| ==>
      && DemoDatasets[i].numSamples > 0
      && DemoDatasets[i].numLabeled as real / DemoDatasets[i].numSamples as real * 100.0 == 10.0
  {
    forall j | 0 <= j < |DemoExperiments|
      ensures DemoExperiments[j].datasetIndex < |DemoDatasets|
      ensures DemoExperiments[j].modelIndex < |DemoModels|
      ensures DemoExperiments[j].epochs >= 1
      ensures DemoExperiments[j].datasetIndex == j
    {
      if j == 0 {} else if j == 1 {} else {}
    }
    forall i | 0 <= i < |DemoDatasets|
      ensures DemoDatasets[i].numSamples > 0
      ensures DemoDatasets[i].numLabeled as real / DemoDatasets[i].numSamples as real * 100.0 == 10.0
    {
      if i == 0 {} else if i == 1 {} else if i == 2 {} else {}
    }
  }

  /** The current epoch a seeded experiment gets: its epochs when completed, half of them otherwise. */
  function DemoCurrentEpoch(d: DemoExperiment): int {
    if d.status == Completed then d.epochs else d.epochs / 2
  }

  function DemoExperimentFields(j: nat, ids: SeedIds): ExperimentFields
    requires j < |DemoExperiments| && ids.Fresh()
  {
    DemoCatalogueFacts();
    var d := DemoExperiments[j];
    ExperimentFields(d.name, Some(DemoDescription), ids.datasets[d.datasetIndex], ids.models[d.modelIndex],
                     d.pretrainingMethod, DefaultTrainingConfig)
  }

  /** The experiment the seed handler writes for catalogue entry `j`, with its generated curve. */
  function DemoExperimentRecord(j: nat, ids: SeedIds, draws: SeedDraws, m: Transcendentals): Experiment
    requires j < |DemoExperiments| && ids.Fresh()
  {
    DemoCatalogueFacts();
    var d := DemoExperiments[j];
    var curve := CurvePrefix(RangeLength(d.epochs), d.epochs, DefaultWarmupEpochs, DefaultShape, m, draws.curves(j));
    Experiment(ids.experiments[j], DemoExperimentFields(j, ids), d.status, DemoCurrentEpoch(d),
               Some(MinLoss(curve)), curve)
  }

  /** The records the seed handler writes to the dataset collection, in catalogue order. */
  function DemoDatasetRecords(ids: SeedIds): (r: seq<Dataset>)
    requires ids.Fresh()
    ensures |r| == |DemoDatasets|
  {
    seq(|DemoDatasets|, k requires 0 <= k < |DemoDatasets| => Dataset(ids.datasets[k], DemoDatasets[k]))
  }

  /** The records the seed handler writes to the model collection, with the catalogue's parameter counts. */
  function DemoModelRecords(ids: SeedIds): (r: seq<ModelConfig>)
    requires ids.Fresh()
    ensures |r| == |DemoModels|
  {
    seq(|DemoModels|, k requires 0 <= k < |DemoModels| =>
      ModelConfig(ids.models[k], DemoModels[k].fields, Some(DemoModels[k].parametersCount)))
  }

  /** The records the seed handler writes to the experiment collection, in catalogue order. */
  function DemoExperimentRecords(ids: SeedIds, draws: SeedDraws, m: Transcendentals): (r: seq<Experiment>)
    requires ids.Fresh()
    ensures |r| == |DemoExperiments|
  {
    seq(|DemoExperiments|, k requires 0 <= k < |DemoExperiments| => DemoExperimentRecord(k, ids, draws, m))
  }

  /** The evaluation the seed handler writes for the `k`-th completed experiment, at 10% labels. */
  function SeededEvaluation(k: nat, ids: SeedIds, draws: SeedDraws): EvaluationRecord
    requires k < 2 && ids.Fresh()
  {
    EvaluationSucceedsOnPercentRange(10.0, true, draws.evaluations(k));
    EvaluationRecord(ids.evaluations[k], ids.experiments[k], None, EvaluationMetrics(10.0, true, draws.evaluations(k)).value)
  }

  /** The evaluations the seed handler writes: one per completed experiment, in catalogue order. */
  function DemoEvaluations(ids: SeedIds, draws: SeedDraws): seq<EvaluationRecord>
    requires ids.Fresh()
  {
    [SeededEvaluation(0, ids, draws), SeededEvaluation(1, ids, draws)]
  }

  /**
   * A seeded experiment carries its catalogue id and references, its history is the curve
   * generated for its epoch count, and it is consistent. The running one has a full
   * 50-epoch history but a current epoch of 25, so its history runs ahead of its progress.
   */
  lemma DemoExperimentRecordFacts(j: nat, ids: SeedIds, draws: SeedDraws, m: Transcendentals)
    requires j < |DemoExperiments| && ids.Fresh()
    ensures var e := DemoExperimentRecord(j, ids, draws, m);
      && e.id == ids.experiments[j]
      && e.fields.datasetId == ids.datasets[DemoExperiments[j].datasetIndex]
      && e.fields.modelConfigId == ids.models[DemoExperiments[j].modelIndex]
      && e.status == DemoExperiments[j].status
      && IsTrainingCurve(e.metricsHistory, DemoExperiments[j].epochs, DefaultWarmupEpochs, DefaultShape, m, draws.curves(j))
      && ExperimentConsistent(e)
      && (e.status == Running ==> e.currentEpoch < |e.metricsHistory|)
  {
    DemoCatalogueFacts();
    var d := DemoExperiments[j];
    var e := DemoExperimentRecord(j, ids, draws, m);
    TrainingCurveWellFormed(e.metricsHistory, d.epochs, DefaultWarmupEpochs, DefaultShape, m, draws.curves(j));
    assert |e.metricsHistory| == d.epochs;
  }

  /** The collection after inserting `records[0]`, ..., `records[n - 1]` under `keys[0]`, ..., in order. */
  function InsertAll<V>(keys: seq<Id>, records: seq<V>, n: nat): map<Id, V>
    requires n <= |keys| && n <= |records|
  {
    if n == 0 then map[] else InsertAll(keys, records, n - 1)[keys[n - 1] := records[n - 1]]
  }

  /** After `n` inserts the collection's keys are exactly the first `n` keys. */
  lemma {:induction false} InsertAllKeys<V>(keys: seq<Id>, records: seq<V>, n: nat)
    requires n <= |keys| && n <= |records|
    ensures InsertAll(keys, records, n).Keys == set k | 0 <= k < n :: keys[k]
  {
    if n > 0 {
      InsertAllKeys(keys, records, n - 1);
      assert (set k | 0 <= k < n :: keys[k]) == (set k | 0 <= k < n - 1 :: keys[k]) + {keys[n - 1]};
    }
  }

  /** With distinct keys, no insert overwrites another: key `k` holds record `k`. */
  lemma {:induction false} InsertAllEntries<V>(keys: seq<Id>, records: seq<V>, n: nat)
    requires n <= |keys| && n <= |records| && Distinct(keys)
    ensures forall k :: 0 <= k < n ==>
      keys[k] in InsertAll(keys, records, n) && InsertAll(keys, records, n)[keys[k]] == records[k]
  {
    if n > 0 {
      InsertAllEntries(keys, records, n - 1);
    }
  }

  /** With distinct keys, `n` inserts give a collection of `n` records. */
  lemma InsertAllSize<V>(keys: seq<Id>, records: seq<V>, n: nat)
    requires n <= |keys| && n <= |records| && Distinct(keys)
    ensures |InsertAll(keys, records, n)| == n
  {
    InsertAllKeys(keys, records, n);
    DistinctImageSize(keys, n);
  }

  /** The demo dataset collection holds exactly the 4 catalogue datasets, each under its own id. */
  lemma DemoDatasetsStored(ids: SeedIds)
    requires ids.Fresh()
    ensures var stored := InsertAll(ids.datasets, DemoDatasetRecords(ids), |DemoDatasets|);
      && stored.Keys == (set k | 0 <= k < |DemoDatasets| :: ids.datasets[k])
      && |stored| == 4
      && (forall k :: 0 <= k < |DemoDatasets| ==>
            ids.datasets[k] in stored && stored[ids.datasets[k]] == Dataset(ids.datasets[k], DemoDatasets[k]))
  {
    var records := DemoDatasetRecords(ids);
    InsertAllKeys(ids.datasets, records, |DemoDatasets|);
    InsertAllEntries(ids.datasets, records, |DemoDatasets|);
    InsertAllSize(ids.datasets, records, |DemoDatasets|);
  }

  lemma DemoDatasetsKeyedById(ids: SeedIds)
    requires ids.Fresh()
    ensures var stored := InsertAll(ids.datasets, DemoDatasetRecords(ids), |DemoDatasets|);
      DatasetsKeyed(stored)
  {
    DemoDatasetsStored(ids);
    var stored := InsertAll(ids.datasets, DemoDatasetRecords(ids), |DemoDatasets|);
    forall id | id in stored
      ensures stored[id].id == id
    {
      var k :| 0 <= k < |DemoDatasets| && ids.datasets[k] == id;
    }
  }

  /** The demo model collection holds exactly the 3 catalogue models, each under its own id. */
  lemma DemoModelsStored(ids: SeedIds)
    requires ids.Fresh()
    ensures var stored := InsertAll(ids.models, DemoModelRecords(ids), |DemoModels|);
      && stored.Keys == (set k | 0 <= k < |DemoModels| :: ids.models[k])
      && |stored| == 3
      && (forall k :: 0 <= k < |DemoModels| ==>
            && ids.models[k] in stored
            && stored[ids.models[k]] == ModelConfig(ids.models[k], DemoModels[k].fields, Some(DemoModels[k].parametersCount)))
  {
    var records := DemoModelRecords(ids);
    InsertAllKeys(ids.models, records, |DemoModels|);
    InsertAllEntries(ids.models, records, |DemoModels|);
    InsertAllSize(ids.models, records, |DemoModels|);
  }

  lemma DemoModelsKeyedById(ids: SeedIds)
    requires ids.Fresh()
    ensures var stored := InsertAll(ids.models, DemoModelRecords(ids), |DemoModels|);
      ModelConfigsKeyed(stored)
  {
    DemoModelsStored(ids);
    var stored := InsertAll(ids.models, DemoModelRecords(ids), |DemoModels|);
    forall id | id in stored
      ensures stored[id].id == id
    {
      var k :| 0 <= k < |DemoModels| && ids.models[k] == id;
    }
  }

  /** The demo experiment collection holds exactly the 3 catalogue experiments, each under its own id. */
  lemma DemoExperimentsStored(ids: SeedIds, draws: SeedDraws, m: Transcendentals)
    requires ids.Fresh()
    ensures var stored := InsertAll(ids.experiments, DemoExperimentRecords(ids, draws, m), |DemoExperiments|);
      && stored.Keys == (set k | 0 <= k < |DemoExperiments| :: ids.experiments[k])
      && |stored| == 3
      && (forall k :: 0 <= k < |DemoExperiments| ==>
            ids.experiments[k] in stored && stored[ids.experiments[k]] == DemoExperimentRecord(k, ids, draws, m))
  {
    var records := DemoExperimentRecords(ids, draws, m);
    InsertAllKeys(ids.experiments, records, |DemoExperiments|);
    InsertAllEntries(ids.experiments, records, |DemoExperiments|);
    InsertAllSize(ids.experiments, records, |DemoExperiments|);
  }

  lemma DemoExperimentsValid(ids: SeedIds, draws: SeedDraws, m: Transcendentals)
    requires ids.Fresh()
    ensures ExperimentsValid(InsertAll(ids.experiments, DemoExperimentRecords(ids, draws, m), |DemoExperiments|))
  {
    DemoExperimentsStored(ids, draws, m);
    var stored := InsertAll(ids.experiments, DemoExperimentRecords(ids, draws, m), |DemoExperiments|);
    forall id | id in stored
      ensures stored[id].id == id && ExperimentConsistent(stored[id])
    {
      var k :| 0 <= k < |DemoExperiments| && ids.experiments[k] == id;
      DemoExperimentRecordFacts(k, ids, draws, m);
    }
  }

  /** Every seeded experiment refers to a seeded dataset and a seeded model configuration. */
  lemma DemoReferencesResolve(ids: SeedIds, draws: SeedDraws, m: Transcendentals)
    requires ids.Fresh()
    ensures var experiments := InsertAll(ids.experiments, DemoExperimentRecords(ids, draws, m), |DemoExperiments|);
      forall id :: id in experiments ==>
        && experiments[id].fields.datasetId in InsertAll(ids.datasets, DemoDatasetRecords(ids), |DemoDatasets|)
        && experiments[id].fields.modelConfigId in InsertAll(ids.models, DemoModelRecords(ids), |DemoModels|)
  {
    DemoCatalogueFacts();
    DemoDatasetsStored(ids);
    DemoModelsStored(ids);
    DemoExperimentsStored(ids, draws, m);
    var experiments := InsertAll(ids.experiments, DemoExperimentRecords(ids, draws, m), |DemoExperiments|);
    forall id | id in experiments
      ensures experiments[id].fields.datasetId in InsertAll(ids.datasets, DemoDatasetRecords(ids), |DemoDatasets|)
      ensures experiments[id].fields.modelConfigId in InsertAll(ids.models, DemoModelRecords(ids), |DemoModels|)
    {
      var k :| 0 <= k < |DemoExperiments| && ids.experiments[k] == id;
      DemoExperimentRecordFacts(k, ids, draws, m);
    }
  }

  /** The completed demo experiments come first in the catalogue. */
  lemma DemoCompletedFirst()
    ensures |DemoExperiments| == 3
    ensures forall j :: 0 <= j < |DemoExperiments| ==> (DemoExperiments[j].status == Completed <==> j < 2)
  {
    forall j | 0 <= j < |DemoExperiments|
      ensures DemoExperiments[j].status == Completed <==> j < 2
    {
      if j == 0 {} else if j == 1 {} else {}
    }
  }

  /**
   * Evaluates completed catalogue experiment `j` at the labelled percentage of the demo
   * dataset it references, which is 10% for every demo dataset.
   */
  method EvaluateSeededExperiment(j: nat, ids: SeedIds, draws: SeedDraws) returns (evaluation: EvaluationRecord)
    requires j < |DemoExperiments| && ids.Fresh() && DemoExperiments[j].status == Completed
    ensures j < 2 && evaluation == SeededEvaluation(j, ids, draws)
  {
    DemoCatalogueFacts();
    DemoCompletedFirst();
    // The catalogue dataset whose id the experiment references.
    var dataset := DemoDatasets[DemoExperiments[j].datasetIndex];
    var labelPercent := dataset.numLabeled as real / dataset.numSamples as real * 100.0;
    EvaluationSucceedsOnPercentRange(labelPercent, true, draws.evaluations(j));
    var outcome := EvaluationMetrics(labelPercent, true, draws.evaluations(j));
    evaluation := EvaluationRecord(ids.evaluations[j], ids.experiments[j], None, outcome.value);
  }

  /** Builds the experiment record for catalogue entry `j`, generating its curve. */
  method SeededExperiment(j: nat, ids: SeedIds, draws: SeedDraws, m: Transcendentals) returns (e: Experiment)
    requires j < |DemoExperiments| && ids.Fresh()
    ensures e == DemoExperimentRecord(j, ids, draws, m)
  {
    DemoCatalogueFacts();
    var demo := DemoExperiments[j];
    var metrics := GenerateTrainingCurve(demo.epochs, DefaultWarmupEpochs, DefaultShape, m, draws.curves(j));
    TrainingCurveWellFormed(metrics, demo.epochs, DefaultWarmupEpochs, DefaultShape, m, draws.curves(j));
    e := Experiment(ids.experiments[j], DemoExperimentFields(j, ids), demo.status,
                    DemoCurrentEpoch(demo), Some(MinLoss(metrics)), metrics);
  }

  /** Distinct ids give as many keys as records. */
  lemma {:induction false} DistinctImageSize(s: seq<Id>, n: nat)
    requires n <= |s| && Distinct(s)
    ensures |set i | 0 <= i < n :: s[i]| == n
  {
    if n > 0 {
      DistinctImageSize(s, n - 1);
      var before := set i | 0 <= i < n - 1 :: s[i];
      assert (set i | 0 <= i < n :: s[i]) == before + {s[n - 1]};
      assert s[n - 1] !in before;
    }
  }

  // ---------------------------------------------------------------------------
  // The store and its handlers
  // ---------------------------------------------------------------------------

  class Store {
    var datasets: map<Id, Dataset>
    var modelConfigs: map<Id, ModelConfig>
    var experiments: map<Id, Experiment>
    var finetuneConfigs: map<Id, FinetuneConfig>
    var evaluations: seq<EvaluationRecord>

    /** Every record is stored under its own id, and every experiment is consistent. */
    ghost predicate Valid()
      reads this
    {
      && DatasetsKeyed(datasets)
      && ModelConfigsKeyed(modelConfigs)
      && ExperimentsValid(experiments)
      && FinetuneConfigsKeyed(finetuneConfigs)
    }

    constructor ()
      ensures Valid()
      ensures datasets == map[] && modelConfigs == map[] && experiments == map[]
      ensures finetuneConfigs == map[] && evaluations == []
    {
      datasets, modelConfigs, experiments, finetuneConfigs, evaluations := map[], map[], map[], map[], [];
    }

    // ----- datasets -----

    method GetDataset(id: Id) returns (r: Result<Dataset, ApiError>)
      ensures id in datasets ==> r == Success(datasets[id])
      ensures id !in datasets ==> r == Failure(NotFound("Dataset not found"))
    {
      if id !in datasets {
        return Failure(NotFound("Dataset not found"));
      }
      r := Success(datasets[id]);
    }

    /** Stores a new dataset under a fresh identifier (a new UUID in the service). */
    method CreateDataset(input: DatasetFields, newId: Id) returns (d: Dataset)
      requires Valid() && newId !in datasets
      modifies this`datasets
      ensures Valid()
      ensures d == Dataset(newId, input)
      ensures datasets == old(datasets)[newId := d]
    {
      d := Dataset(newId, input);
      datasets := datasets[newId := d];
    }

    method DeleteDataset(id: Id) returns (r: Result<(), ApiError>)
      requires Valid()
      modifies this`datasets
      ensures Valid()
      ensures r.Success? <==> id in old(datasets)
      ensures r.Failure? ==> r.error == NotFound("Dataset not found")
      ensures datasets == old(datasets) - {id}
    {
      if id !in datasets {
        return Failure(NotFound("Dataset not found"));
      }
      datasets := datasets - {id};
      r := Success(());
    }

    // ----- model configurations -----

    method GetModelConfig(id: Id) returns (r: Result<ModelConfig, ApiError>)
      ensures id in modelConfigs ==> r == Success(modelConfigs[id])
      ensures id !in modelConfigs ==> r == Failure(NotFound("Model configuration not found"))
    {
      if id !in modelConfigs {
        return Failure(NotFound("Model configuration not found"));
      }
      r := Success(modelConfigs[id]);
    }

    /**
     * Stores a new configuration under a fresh identifier, with its parameter count set
     * from the architecture.
     */
    method CreateModelConfig(input: ModelConfigFields, newId: Id) returns (mc: ModelConfig)
      requires Valid() && newId !in modelConfigs
      modifies this`modelConfigs
      ensures Valid()
      ensures mc == ModelConfig(newId, input, Some(ParametersCount(input.architecture)))
      ensures modelConfigs == old(modelConfigs)[newId := mc]
    {
      mc := ModelConfig(newId, input, None);
      if input.architecture == Unet3D {
        mc := mc.(parametersCount := Some(31_000_000));
      } else {
        mc := mc.(parametersCount := Some(86_000_000));
      }
      modelConfigs := modelConfigs[newId := mc];
    }

    method DeleteModelConfig(id: Id) returns (r: Result<(), ApiError>)
      requires Valid()
      modifies this`modelConfigs
      ensures Valid()
      ensures r.Success? <==> id in old(modelConfigs)
      ensures r.Failure? ==> r.error == NotFound("Model configuration not found")
      ensures modelConfigs == old(modelConfigs) - {id}
    {
      if id !in modelConfigs {
        return Failure(NotFound("Model configuration not found"));
      }
      modelConfigs := modelConfigs - {id};
      r := Success(());
    }

    // ----- experiments -----

    method GetExperiment(id: Id) returns (r: Result<Experiment, ApiError>)
      ensures id in experiments ==> r == Success(experiments[id])
      ensures id !in experiments ==> r == Failure(NotFound("Experiment not found"))
    {
      if id !in experiments {
        return Failure(NotFound("Experiment not found"));
      }
      r := Success(experiments[id]);
    }

    /**
     * Creates a pending experiment after checking that its dataset, then its model
     * configuration, exist; a missing reference inserts nothing. The new identifier is
     * fresh.
     */
    method CreateExperiment(input: ExperimentFields, newId: Id) returns (r: Result<Experiment, ApiError>)
      requires Valid() && newId !in experiments
      modifies this`experiments
      ensures Valid()
      ensures input.datasetId !in datasets ==>
        r == Failure(NotFound("Dataset not found")) && experiments == old(experiments)
      ensures input.datasetId in datasets && input.modelConfigId !in modelConfigs ==>
        r == Failure(NotFound("Model configuration not found")) && experiments == old(experiments)
      ensures r.Success? <==> input.datasetId in datasets && input.modelConfigId in modelConfigs
      ensures r.Success? ==>
        && r.value == Experiment(newId, input, Pending, 0, None, [])
        && experiments == old(experiments)[newId := r.value]
    {
      if input.datasetId !in datasets {
        return Failure(NotFound("Dataset not found"));
      }
      if input.modelConfigId !in modelConfigs {
        return Failure(NotFound("Model configuration not found"));
      }
      var e := Experiment(newId, input, Pending, 0, None, []);
      experiments := experiments[newId := e];
      r := Success(e);
    }

    /**
     * Runs an experiment to completion in one call. The record is first marked running;
     * then a curve of the configured length (100 epochs and 10 warmup epochs when the
     * configuration lacks them) is generated and stored with its minimum loss. When the
     * epoch count is not positive the curve is empty, `min` raises, and the record is left
     * running with its old history. No other experiment changes.
     */
    method StartExperiment(id: Id, m: Transcendentals, noise: nat -> EpochNoise) returns (r: Result<StartReply, ApiError>)
      requires Valid()
      modifies this`experiments
      ensures Valid()
      ensures id !in old(experiments) ==>
        r == Failure(NotFound("Experiment not found")) && experiments == old(experiments)
      ensures id in old(experiments) && ConfiguredEpochs(old(experiments)[id]) <= 0 ==>
        && r == Failure(InternalError(EmptySequence))
        && experiments == old(experiments)[id := old(experiments)[id].(status := Running)]
      ensures id in old(experiments) && ConfiguredEpochs(old(experiments)[id]) > 0 ==>
        && id in experiments
        && RanToCompletion(old(experiments)[id], experiments[id], m, noise)
        && experiments == old(experiments)[id := experiments[id]]
        && r == Success(StartReply(ConfiguredEpochs(old(experiments)[id]), experiments[id].bestLoss.value))
    {
      if id !in experiments {
        return Failure(NotFound("Experiment not found"));
      }
      var experiment := experiments[id];
      RunningConsistent(experiment);
      PutExperiment(experiment.(status := Running));

      var outcome := RunToCompletion(experiment, m, noise);
      if outcome.None? {
        return Failure(InternalError(EmptySequence));
      }
      PutExperiment(outcome.value);
      r := Success(StartReply(ConfiguredEpochs(experiment), outcome.value.bestLoss.value));
    }

    /** Writes a consistent experiment record under its id, replacing any stored one. */
    method PutExperiment(e: Experiment)
      requires Valid() && ExperimentConsistent(e)
      modifies this`experiments
      ensures Valid()
      ensures experiments == old(experiments)[e.id := e]
    {
      ExperimentsValidUpdate(experiments, e.id, e);
      experiments := experiments[e.id := e];
    }

    /**
     * The metrics view of an experiment. Because every stored experiment is consistent,
     * the reply's current epoch never exceeds its history's length, and its best loss is
     * the minimum of that history, absent exactly when the history is empty.
     */
    method GetExperimentMetrics(id: Id) returns (r: Result<MetricsReply, ApiError>)
      requires Valid()
      ensures id !in experiments ==> r == Failure(NotFound("Experiment not found"))
      ensures id in experiments ==>
        var e := experiments[id];
        r == Success(MetricsReply(id, e.status, e.currentEpoch, e.bestLoss, e.metricsHistory))
      ensures r.Success? ==>
        && 0 <= r.value.currentEpoch <= |r.value.metricsHistory|
        && (r.value.status == Completed ==> r.value.currentEpoch == |r.value.metricsHistory|)
        && (r.value.bestLoss.Some? <==> |r.value.metricsHistory| > 0)
        && (r.value.bestLoss.Some? ==>
              forall k :: 0 <= k < |r.value.metricsHistory| ==> r.value.bestLoss.value <= r.value.metricsHistory[k].loss)
    {
      if id !in experiments {
        return Failure(NotFound("Experiment not found"));
      }
      var e := experiments[id];
      r := Success(MetricsReply(id, e.status, e.currentEpoch, e.bestLoss, e.metricsHistory));
    }

    method DeleteExperiment(id: Id) returns (r: Result<(), ApiError>)
      requires Valid()
      modifies this`experiments
      ensures Valid()
      ensures r.Success? <==> id in old(experiments)
      ensures r.Failure? ==> r.error == NotFound("Experiment not found")
      ensures experiments == old(experiments) - {id}
    {
      if id !in experiments {
        return Failure(NotFound("Experiment not found"));
      }
      experiments := experiments - {id};
      r := Success(());
    }

    // ----- fine-tuning -----

    /**
     * Creates a pending fine-tune configuration under a fresh identifier after checking
     * that its experiment exists.
     */
    method CreateFinetuneConfig(input: FinetuneFields, newId: Id) returns (r: Result<FinetuneConfig, ApiError>)
      requires Valid() && newId !in finetuneConfigs
      modifies this`finetuneConfigs
      ensures Valid()
      ensures r.Success? <==> input.experimentId in experiments
      ensures r.Failure? ==> r.error == NotFound("Experiment not found") && finetuneConfigs == old(finetuneConfigs)
      ensures r.Success? ==>
        && r.value == FinetuneConfig(newId, input, Pending, 0)
        && finetuneConfigs == old(finetuneConfigs)[newId := r.value]
    {
      if input.experimentId !in experiments {
        return Failure(NotFound("Experiment not found"));
      }
      var c := FinetuneConfig(newId, input, Pending, 0);
      finetuneConfigs := finetuneConfigs[newId := c];
      r := Success(c);
    }

    /**
     * Evaluates a fine-tune run at the labelled percentage of its labelled dataset, appends
     * exactly one evaluation for it, and marks the configuration completed at its epoch
     * count (50 when absent). An evaluation that raises leaves both collections unchanged.
     */
    method StartFinetune(fid: Id, evaluationId: Id, z: EvalNoise) returns (r: Result<Evaluation, ApiError>)
      requires Valid()
      modifies this`finetuneConfigs, this`evaluations
      ensures Valid()
      ensures fid !in old(finetuneConfigs) ==>
        && r == Failure(NotFound("Fine-tune configuration not found"))
        && finetuneConfigs == old(finetuneConfigs) && evaluations == old(evaluations)
      ensures fid in old(finetuneConfigs) ==>
        var c := old(finetuneConfigs)[fid];
        var outcome := EvaluationMetrics(LabelPercent(Find(datasets, c.fields.labeledDatasetId)), true, z);
        if outcome.Failure? then
          && r == Failure(InternalError(outcome.error))
          && finetuneConfigs == old(finetuneConfigs) && evaluations == old(evaluations)
        else
          && r == Success(outcome.value)
          && evaluations == old(evaluations) + [EvaluationRecord(evaluationId, c.fields.experimentId, Some(fid), outcome.value)]
          && finetuneConfigs == old(finetuneConfigs)[fid := c.(status := Completed, currentEpoch := c.fields.numEpochs.GetOr(50))]
    {
      if fid !in finetuneConfigs {
        return Failure(NotFound("Fine-tune configuration not found"));
      }
      var config := finetuneConfigs[fid];
      var dataset := Find(datasets, config.fields.labeledDatasetId);
      var labelPercent := LabelPercent(dataset);
      var outcome := EvaluationMetrics(labelPercent, true, z);
      if outcome.Failure? {
        return Failure(InternalError(outcome.error));
      }
      evaluations := evaluations + [EvaluationRecord(evaluationId, config.fields.experimentId, Some(fid), outcome.value)];
      finetuneConfigs := finetuneConfigs[fid := config.(status := Completed, currentEpoch := config.fields.numEpochs.GetOr(50))];
      r := Success(outcome.value);
    }

    // ----- evaluations -----

    method GetEvaluations() returns (all: seq<EvaluationRecord>)
      ensures all == evaluations
    {
      all := evaluations;
    }

    // ----- seed -----

    /**
     * Empties all five collections, then inserts the demo catalogue: 4 datasets,
     * 3 model configurations and 3 experiments, each experiment with a freshly generated
     * curve and its minimum loss, and one evaluation per completed experiment (2 in all),
     * each at the 10% labelled fraction all demo datasets have.
     */
    method SeedDemoData(ids: SeedIds, draws: SeedDraws, m: Transcendentals) returns (reply: SeedReply)
      requires ids.Fresh()
      modifies this
      ensures Valid()
      ensures reply == SeedReply(4, 3, 3)
      ensures datasets == InsertAll(ids.datasets, DemoDatasetRecords(ids), |DemoDatasets|)
      ensures modelConfigs == InsertAll(ids.models, DemoModelRecords(ids), |DemoModels|)
      ensures experiments == InsertAll(ids.experiments, DemoExperimentRecords(ids, draws, m), |DemoExperiments|)
      ensures finetuneConfigs == map[]
      ensures evaluations == DemoEvaluations(ids, draws)
    {
      datasets, modelConfigs, experiments, finetuneConfigs, evaluations := map[], map[], map[], map[], [];
      InsertDemoDatasets(ids);
      InsertDemoModels(ids);
      InsertDemoExperiments(ids, draws, m);
      reply := SeedReply(|DemoDatasets|, |DemoModels|, |DemoExperiments|);
    }

    /** The dataset phase of the seed: one insert per catalogue entry, in order. */
    method InsertDemoDatasets(ids: SeedIds)
      requires ids.Fresh() && datasets == map[]
      modifies this`datasets
      ensures datasets == InsertAll(ids.datasets, DemoDatasetRecords(ids), |DemoDatasets|)
      ensures DatasetsKeyed(datasets)
    {
      var i := 0;
      while i < |DemoDatasets|
        invariant 0 <= i <= |DemoDatasets|
        invariant datasets == InsertAll(ids.datasets, DemoDatasetRecords(ids), i)
      {
        datasets := datasets[ids.datasets[i] := Dataset(ids.datasets[i], DemoDatasets[i])];
        i := i + 1;
      }
      DemoDatasetsKeyedById(ids);
    }

    /** The model phase of the seed, with the catalogue's own parameter counts. */
    method InsertDemoModels(ids: SeedIds)
      requires ids.Fresh() && modelConfigs == map[]
      modifies this`modelConfigs
      ensures modelConfigs == InsertAll(ids.models, DemoModelRecords(ids), |DemoModels|)
      ensures ModelConfigsKeyed(modelConfigs)
    {
      var i := 0;
      while i < |DemoModels|
        invariant 0 <= i <= |DemoModels|
        invariant modelConfigs == InsertAll(ids.models, DemoModelRecords(ids), i)
      {
        var demo := DemoModels[i];
        modelConfigs := modelConfigs[ids.models[i] := ModelConfig(ids.models[i], demo.fields, Some(demo.parametersCount))];
        i := i + 1;
      }
      DemoModelsKeyedById(ids);
    }

    /**
     * The experiment phase of the seed: each experiment with its own curve, and after each
     * completed one an evaluation at its dataset's labelled percentage.
     */
    method InsertDemoExperiments(ids: SeedIds, draws: SeedDraws, m: Transcendentals)
      requires ids.Fresh() && experiments == map[] && evaluations == []
      modifies this`experiments, this`evaluations
      ensures experiments == InsertAll(ids.experiments, DemoExperimentRecords(ids, draws, m), |DemoExperiments|)
      ensures evaluations == DemoEvaluations(ids, draws)
      ensures ExperimentsValid(experiments)
    {
      DemoCompletedFirst();
      var j := 0;
      while j < |DemoExperiments|
        invariant 0 <= j <= |DemoExperiments|
        invariant experiments == InsertAll(ids.experiments, DemoExperimentRecords(ids, draws, m), j)
        invariant evaluations == DemoEvaluations(ids, draws)[..if j < 2 then j else 2]
      {
        InsertDemoExperiment(j, ids, draws, m);
        if DemoExperiments[j].status == Completed {
          RecordDemoEvaluation(j, ids, draws);
        }
        j := j + 1;
      }
      DemoExperimentsValid(ids, draws, m);
    }

    /** Inserts catalogue experiment `j`, keyed by its id, with its generated curve. */
    method InsertDemoExperiment(j: nat, ids: SeedIds, draws: SeedDraws, m: Transcendentals)
      requires ids.Fresh() && j < |DemoExperiments|
      requires experiments == InsertAll(ids.experiments, DemoExperimentRecords(ids, draws, m), j)
      modifies this`experiments
      ensures experiments == InsertAll(ids.experiments, DemoExperimentRecords(ids, draws, m), j + 1)
    {
      var experiment := SeededExperiment(j, ids, draws, m);
      assert experiment == DemoExperimentRecords(ids, draws, m)[j];
      experiments := experiments[ids.experiments[j] := experiment];
    }

    /** Stores the evaluation of completed catalogue experiment `j`. */
    method RecordDemoEvaluation(j: nat, ids: SeedIds, draws: SeedDraws)
      requires ids.Fresh() && j < 2 && DemoExperiments[j].status == Completed
      requires evaluations == DemoEvaluations(ids, draws)[..j]
      modifies this`evaluations
      ensures evaluations == DemoEvaluations(ids, draws)[..j + 1]
    {
      var evaluation := EvaluateSeededExperiment(j, ids, draws);
      assert DemoEvaluations(ids, draws)[..j + 1] == evaluations + [evaluation];
      evaluations := evaluations + [evaluation];
    }
  }

  // ---------------------------------------------------------------------------
  // Handlers that only call a generator
  // ---------------------------------------------------------------------------

  /** The comparison view: the sweep over the default checkpoints, which never fails. */
  method CompareModels(sslNoise: nat -> EvalNoise, supervisedNoise: nat -> EvalNoise) returns (c: Comparison)
    ensures IsComparison(c, DefaultLabelPercentages, sslNoise, supervisedNoise)
    ensures |c.sslPretrained| == |c.supervised| == 6
  {
    assert forall i :: 0 <= i < |DefaultLabelPercentages| ==> 0.0 <= DefaultLabelPercentages[i] <= 100.0;
    SweepSucceedsOnPercentRange(DefaultLabelPercentages, sslNoise, supervisedNoise);
    var r := GenerateLabelEfficiencyCurve(DefaultLabelPercentages, sslNoise, supervisedNoise);
    c := r.value;
  }

  /**
   * The embeddings view: five clusters, so every request succeeds, with one point per
   * sample, cluster `i % 5` and that cluster's organ label.
   */
  method GetEmbeddings(numSamples: int, centres: nat -> Centre, noise: nat -> PointNoise) returns (points: seq<EmbeddingPoint>)
    ensures |points| == RangeLength(numSamples)
    ensures forall i :: 0 <= i < |points| ==>
      && points[i].id == i
      && points[i].cluster == i % 5
      && points[i].organLabel == OrganLabels[i % 5]
      && 0.7 <= points[i].confidence <= 1.0
  {
    var r := GenerateContrastiveEmbeddings(numSamples, 5, centres, noise);
    points := r.value;
  }

  /** The slice view: segmentation is always included, and the index is never range-checked. */
  function GetSliceData(sliceIdx: int, totalSlices: int, m: Transcendentals, z: SliceNoise): (d: SliceData)
    ensures d.segmentation.Some?
    ensures d.sliceIndex == sliceIdx && d.totalSlices == totalSlices
    ensures |d.histogram| == 32
  {
    GenerateSliceData(sliceIdx, totalSlices, true, m, z)
  }
}

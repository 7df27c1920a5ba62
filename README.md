# Self-supervised medical segmentation demo backend, modelled in Dafny

The backend is a demo API for a self-supervised pretraining workflow on medical
volumes (CT, MRI, PET). Nothing is ever trained. Its "training" and "evaluation"
results come from a small simulator of plausible metrics, and its handlers keep five
document collections: datasets, model configurations, experiments, fine-tuning
configurations and evaluations. This project models both parts.

- **The simulator** (`training_simulator.dfy`, module `TrainingSimulator`) models all
  five generators:
  - the per-epoch training curve: linear warmup, then cosine learning-rate annealing,
    with exponential loss decay and clamped noise;
  - evaluation metrics driven by the labelled percentage, with an SSL bonus;
  - the SSL-versus-supervised label-efficiency sweep;
  - round-robin 2-D cluster embeddings;
  - per-slice intensity and segmentation statistics.
- **The handlers** (`server.dfy`, module `Server`) are methods of a `Store` class.
  - The collections are map-valued fields keyed by record id. Evaluations, which are
    only appended and listed, are a sequence.
  - A missing record is a `NotFound` failure. An exception that escapes a handler is an
    `InternalError`.
  - `Store.Valid()` is the store invariant. Every record sits under its own id. Every
    experiment's history is a well-formed curve. Its current epoch lies within that
    history. Its best loss is the history's minimum, absent exactly when the history is
    empty. Every mutating handler preserves this invariant.
- **Supporting modules**:
  - `models.dfy` (`Models`) holds the record types and the default training
    configuration.
  - `builtins.dfy` (`Builtins`) holds the Python built-ins the arithmetic relies on:
    `max`, `min`, `int()` truncation, floored `%`, negative list indexing and
    `range` length.
  - `wrappers.dfy` holds `Option` and `Result`.

Randomness, generated ids and `math.exp`/`math.cos` are parameters:

- Every `random.gauss(0, s)` draw is `s * z` for a standard-normal input `z`, and is
  not bounded.
- `random.uniform`, `random.random` and `random.randint` draws carry their ranges as
  subset types.
- Draws that repeat per epoch, sample or checkpoint are streams `nat -> draw`.
- `math.exp` and `math.cos` are function values. `Transcendentals.Lawful()` states the
  only facts the proofs use about them:
  - `exp` is positive and monotone;
  - `exp(x) <= 1` for `x <= 0`;
  - `cos` lies in [-1, 1].
- Reals are exact. `round(x, n)` is the identity.

## Model

| member | source | states |
|---|---|---|
| TrainingSimulator.Progress | backend/training_simulator.py:23-30 | progress lies in (0, 1]; it is `epoch / warmup_epochs` during warmup and `(epoch - warmup_epochs) / (num_epochs - warmup_epochs)` after it, both divisors being positive for every visited epoch |
| TrainingSimulator.EpochRecord | backend/training_simulator.py:37-54 | whatever the noise, a record carries its epoch, a loss of at least 0.01, non-negative contrastive and reconstruction components, and the scheduled learning rate |
| TrainingSimulator.GenerateTrainingCurve | backend/training_simulator.py:11-56 | the loop appends the records of epochs 1..num_epochs in order, and the result is the curve specified by `CurvePrefix` |
| TrainingSimulator.CurvePrefixElements | backend/training_simulator.py:21-54 | record `k` of a curve is the record of epoch `k + 1`, built from the `k`-th draw |
| TrainingSimulator.TrainingCurveWellFormed | backend/training_simulator.py:21-54 | a curve has exactly `num_epochs` records (none when `num_epochs < 0`), numbered 1 upward, losses at least 0.01, components non-negative |
| TrainingSimulator.HistoryEpochsIncrease | backend/training_simulator.py:21-48 | epoch numbers in a well-formed history strictly increase |
| TrainingSimulator.WarmupEpochBounds | backend/training_simulator.py:23-27 | during warmup the learning rate lies in (0, 1e-4] for every shape; when `final <= initial`, the base loss also lies between `initial - 0.1 * (initial - final)` and `initial` |
| TrainingSimulator.PostWarmupEpochBounds | backend/training_simulator.py:28-35 | after warmup the learning rate lies in [0, 1e-4]; when `final <= 0.4 * initial` the base loss lies in [final, 0.4 * initial] |
| TrainingSimulator.ProgressGrows | backend/training_simulator.py:23-30 | within one phase, progress is non-decreasing in the epoch |
| TrainingSimulator.BaseLossNonIncreasing | backend/training_simulator.py:23-35 | within one phase, the noise-free loss never rises: during warmup when `final <= initial`, after warmup when `final <= 0.4 * initial` |
| TrainingSimulator.BaseLossFallsOverRun | backend/training_simulator.py:23-35 | over a whole run, across the warmup/annealing boundary too, the noise-free loss never rises when `0 <= final <= 0.4 * initial` (the defaults 2.5 and 0.15 qualify) |
| TrainingSimulator.MinLoss | backend/server.py:214 | `min(m['loss'] for m in metrics)` of a non-empty history is one of its losses and no loss is below it |
| TrainingSimulator.EvaluationMetrics | backend/training_simulator.py:59-95 | the call raises ZeroDivisionError exactly when the label factor is 0; otherwise Dice, precision and recall are at most 0.95, Hausdorff at least 1, IoU is 0.92 of Dice, and label efficiency is Dice per labelled fraction (0 when `pct <= 0`) |
| TrainingSimulator.EvaluationSucceedsOnPercentRange | backend/training_simulator.py:72-83 | for a percentage in [0, 100] the label factor is at least 0.4, so the evaluation never raises |
| TrainingSimulator.SslDominatesSupervised | backend/training_simulator.py:71-82 | for a percentage in [0, 100] and without noise, SSL's uncapped Dice exceeds supervised Dice by at least 0.08, and its capped Dice is never lower |
| TrainingSimulator.DiceMonotoneInLabels | backend/training_simulator.py:74-82 | for percentages in [0, 100] and without noise, Dice does not decrease as labels increase, and the SSL advantage shrinks as labels increase |
| TrainingSimulator.GenerateLabelEfficiencyCurve | backend/training_simulator.py:98-116 | the sweep succeeds exactly when every checkpoint's two evaluations do; it then returns both lists, each entry tagged with its percentage; the first failure propagates ZeroDivisionError |
| TrainingSimulator.SweepSucceedsOnPercentRange | backend/training_simulator.py:98-108 | a sweep over percentages in [0, 100] never fails |
| TrainingSimulator.QuietSweepOrdered | backend/training_simulator.py:98-116 | in a noise-free sweep over ascending percentages in [0, 100], SSL Dice is at least supervised Dice at every checkpoint, and both lists' Dice scores are non-decreasing |
| TrainingSimulator.GenerateContrastiveEmbeddings | backend/training_simulator.py:119-150 | succeeds exactly when no sample is drawn, or when the cluster count is positive and either labels every cluster or is never indexed past the fifth label; otherwise ZeroDivisionError (0 clusters) or IndexError; on success there is one point per sample, with id `i`, cluster `i % num_clusters`, that cluster's organ label, a jittered centre and confidence in [0.7, 1] |
| TrainingSimulator.BinCount | backend/training_simulator.py:161-164 | every histogram count lies in [0, 110] |
| TrainingSimulator.GenerateSliceData | backend/training_simulator.py:153-182 | 32 bins numbered 0, 8, ..., 248 with counts in [0, 110]; the slice index and count are echoed unchecked; segmentation is present exactly when requested, with regions in [1, 3], tumour volume in [0.5, 5] and coverage in [60, 85] |
| Server.ParametersCount | backend/server.py:126-130 | 31M exactly for 3D UNet, 86M for every other architecture |
| Server.LabelPercent | backend/server.py:290-295 | `num_labeled / num_samples * 100` when the labelled dataset exists and has samples, 10 otherwise |
| Server.LabelPercentInRange | backend/server.py:290-295 | a dataset with `0 <= num_labeled <= num_samples` gives a percentage in [0, 100] |
| Server.FinetuneEvaluationSucceeds | backend/server.py:289-301 | a fine-tune whose labelled dataset is missing or has `0 <= num_labeled <= num_samples` is evaluated without raising |
| Server.RunToCompletion | backend/server.py:203-225 | a start's training run yields nothing exactly when the configured epoch count (default 100) is not positive; otherwise it yields the record completed at that epoch count, with the generated curve as history and its minimum as best loss, and that record is consistent |
| Server.CompletedRunConsistent | backend/server.py:213-225 | a run to completion leaves the record consistent: completed, one record per epoch numbered 1 to `current_epoch`, best loss attained in the history and no greater than any loss |
| Server.RunningConsistent | backend/server.py:197-201 | marking a consistent experiment running keeps it consistent |
| Server.DemoCatalogueFacts | backend/server.py:438-540 | the catalogue has 4 datasets, 3 models and 3 experiments; experiment `j` references dataset `j`; every demo dataset has samples and a 10% labelled fraction |
| Server.DemoExperimentRecordFacts | backend/server.py:542-558 | a seeded experiment carries its ids and references, its history is the curve for its epoch count, and it is consistent; the running one's current epoch is below its history length |
| Server.InsertAllKeys | backend/server.py:473-476 | after `n` inserts the collection's keys are exactly the first `n` ids |
| Server.InsertAllEntries | backend/server.py:473-476 | with distinct ids, no insert overwrites another: id `k` holds record `k` |
| Server.InsertAllSize | backend/server.py:473-476 | with distinct ids, `n` inserts give `n` records |
| Server.DemoDatasetsStored | backend/server.py:438-476 | the seeded dataset collection holds exactly the 4 catalogue datasets under their ids |
| Server.DemoDatasetsKeyedById | backend/server.py:473-476 | every seeded dataset sits under its own id |
| Server.DemoModelsStored | backend/server.py:479-512 | the seeded model collection holds exactly the 3 catalogue models under their ids, with the catalogue's parameter counts |
| Server.DemoModelsKeyedById | backend/server.py:509-512 | every seeded model sits under its own id |
| Server.DemoExperimentsStored | backend/server.py:542-562 | the seeded experiment collection holds exactly the 3 catalogue experiments under their ids |
| Server.DemoExperimentsValid | backend/server.py:542-562 | every seeded experiment sits under its own id and is consistent |
| Server.DemoReferencesResolve | backend/server.py:515-540 | every seeded experiment's dataset and model ids are seeded records |
| Server.DemoCompletedFirst | backend/server.py:515-540 | exactly the first two catalogue experiments are completed |
| Server.EvaluateSeededExperiment | backend/server.py:564-581 | a completed catalogue experiment is evaluated at its own dataset's labelled percentage, which makes it the seeded evaluation at 10% |
| Server.SeededExperiment | backend/server.py:542-558 | builds catalogue experiment `j` with its generated curve and minimum loss; the current epoch is the epoch count when completed, otherwise half of it |
| Server.Store.GetDataset | backend/server.py:68-76 | the stored dataset, or NotFound "Dataset not found" |
| Server.Store.CreateDataset | backend/server.py:79-86 | stores the new dataset under its fresh id; nothing else changes |
| Server.Store.DeleteDataset | backend/server.py:89-95 | succeeds exactly when the id is stored, otherwise NotFound; afterwards the id is absent and nothing else changed |
| Server.Store.GetModelConfig | backend/server.py:110-118 | the stored configuration, or NotFound "Model configuration not found" |
| Server.Store.CreateModelConfig | backend/server.py:121-135 | stores the configuration under its fresh id with the parameter count its architecture dictates |
| Server.Store.DeleteModelConfig | backend/server.py:138-144 | succeeds exactly when the id is stored, otherwise NotFound; afterwards the id is absent and nothing else changed |
| Server.Store.GetExperiment | backend/server.py:159-167 | the stored experiment, or NotFound "Experiment not found" |
| Server.Store.CreateExperiment | backend/server.py:170-187 | checks the dataset first, then the model configuration; succeeds exactly when both exist, storing a pending experiment at epoch 0 with no history under its fresh id; a failure stores nothing |
| Server.Store.StartExperiment | backend/server.py:190-227 | an unknown id gives NotFound and no change; a non-positive epoch count leaves the record running and fails as `min` on an empty sequence does; otherwise the record runs to completion, no other experiment changes, and the reply carries the epoch count and best loss; the store stays valid |
| Server.Store.PutExperiment | backend/server.py:215-225 | writing a consistent record under its id keeps the store valid |
| Server.Store.GetExperimentMetrics | backend/server.py:230-243 | the stored status, epoch, best loss and history, or NotFound; by the invariant, the epoch is within the history, and the best loss is present exactly for a non-empty history and is no greater than any loss |
| Server.Store.DeleteExperiment | backend/server.py:246-252 | succeeds exactly when the id is stored, otherwise NotFound; afterwards the id is absent and nothing else changed |
| Server.Store.CreateFinetuneConfig | backend/server.py:267-279 | succeeds exactly when the experiment exists, storing a pending configuration at epoch 0 under its fresh id; otherwise NotFound and no change |
| Server.Store.StartFinetune | backend/server.py:282-325 | an unknown id gives NotFound and no change; otherwise the run is evaluated as SSL-pretrained at the labelled dataset's percentage; if that raises, nothing changes; otherwise exactly one evaluation is appended and the configuration becomes completed at its epoch count (default 50) |
| Server.Store.GetEvaluations | backend/server.py:330-337 | all stored evaluations, in insertion order |
| Server.Store.SeedDemoData | backend/server.py:426-588 | empties all five collections, then stores exactly the catalogue records under their ids and one evaluation per completed experiment; no fine-tune configurations remain; the reply counts 4, 3 and 3; the store is valid |
| Server.Store.InsertDemoDatasets | backend/server.py:473-476 | inserts the 4 catalogue datasets in order, each under its own id |
| Server.Store.InsertDemoModels | backend/server.py:509-512 | inserts the 3 catalogue models in order, each under its own id |
| Server.Store.InsertDemoExperiments | backend/server.py:542-581 | inserts the 3 catalogue experiments in order and, after each completed one, its evaluation; the experiment collection ends up valid |
| Server.Store.InsertDemoExperiment | backend/server.py:542-562 | one step of that loop: the next catalogue experiment is added under its id |
| Server.Store.RecordDemoEvaluation | backend/server.py:564-581 | one step of that loop: the next seeded evaluation is appended |
| Server.CompareModels | backend/server.py:340-344 | the sweep over the default checkpoints 1, 5, 10, 25, 50 and 100 never fails and yields 6 entries per list |
| Server.GetEmbeddings | backend/server.py:349-353 | with 5 clusters every request succeeds: one point per sample, cluster `i % 5`, that cluster's organ label, confidence in [0.7, 1] |
| Server.GetSliceData | backend/server.py:356-364 | segmentation is always included, and the slice index and count are echoed unchecked |

## Left out

- The list endpoints (`get_datasets`, `get_model_configs`, `get_experiments`,
  `get_finetune_configs`) and the dashboard statistics are not modelled. They only read
  the collections.
- The 1000-document cap of the list queries is not modelled.
- Timestamps (`created_at`, `evaluated_at`, each record's `timestamp`) and their ISO
  conversions are not modelled. They carry no behaviour.
- `round(x, n)` is taken as the identity. The bounds proved hold for the unrounded
  values.
- Floating point is not modelled. Reals are exact.
- The random number generator, uuid generation, `math.exp` and `math.cos` are not
  modelled. They are parameters, constrained only as stated above.
- MongoDB, FastAPI routing, CORS, async scheduling and concurrent requests are not
  modelled. The store is a single in-memory object, and each handler runs to completion
  on its own.
- Request validation (pydantic parsing and type coercion) is not modelled. A handler
  receives well-typed fields.
- The optional dataset fields beyond those listed in `Models.DatasetFields` (file path,
  metadata) are not modelled.
- The `.get('num_samples', 100)` and `.get('num_labeled', 10)` defaults in
  `start_finetune` are not modelled. Every stored dataset has both fields.
- Server.Store.StartExperiment: `training_config.get(...)` defaults are modelled by
  optional epoch counts. A stored document that lacks `training_config` altogether is
  not modelled.
- The code has none of the following, and neither does the model: rejection of invalid
  status transitions; range checks on slice indices; per-method training curves;
  seeded, reproducible noise.
- The create handlers' new ids are fresh UUIDs; the model takes the id as a parameter
  and requires it not to be stored yet. A colliding id is not modelled.
- Server.DemoExperimentRecordFacts: the running seeded experiment stores a 50-record
  history with `current_epoch` 25. The model proves its history is a full curve for 50
  epochs and that its current epoch is below the history length. It does not claim the
  two agree, because the code writes them this way.
- Server.DemoCatalogueFacts: the seeded "3D UNet Light" configuration has 12M
  parameters, while `create_model_config` would give a 3D UNet 31M. The model keeps the
  catalogue's own count.

/**
 * The synthetic-metrics generators of the demo backend: a warmup-then-cosine training
 * curve, evaluation metrics driven by the labelled percentage, an SSL-versus-supervised
 * label-efficiency sweep, a round-robin 2-D embedding and per-slice statistics.
 *
 * Every random draw is an input. A `random.gauss(0, s)` draw is `s * z` for a
 * standard-normal `z`, which is left unbounded; `uniform`, `random` and `randint` draws
 * carry their documented ranges as subset types. `round` is the identity here.
 */
module TrainingSimulator {
  import opened Wrappers
  import opened Builtins

  // ---------------------------------------------------------------------------
  // Training curve
  // ---------------------------------------------------------------------------

  /** One per-epoch record of a training curve. */
  datatype MetricsRecord = MetricsRecord(
    epoch: int,
    loss: real,
    contrastiveLoss: real,
    reconstructionLoss: real,
    learningRate: real)

  /** The standard-normal draws behind the three `random.gauss` calls of one epoch. */
  datatype EpochNoise = EpochNoise(lossZ: real, contrastiveZ: real, reconstructionZ: real)

  /** The curve's keyword parameters other than the epoch counts. */
  datatype CurveShape = CurveShape(initialLoss: real, finalLoss: real, noiseLevel: real)

  /** The defaults `initial_loss = 2.5`, `final_loss = 0.15`, `noise_level = 0.05`. */
  const DefaultShape := CurveShape(2.5, 0.15, 0.05)

  const DefaultWarmupEpochs := 10

  /** The peak learning rate `1e-4`. */
  const PeakLearningRate: real := 0.0001

  /**
   * How far through its phase an epoch is: `epoch / warmup_epochs` during warmup and
   * `(epoch - warmup_epochs) / (num_epochs - warmup_epochs)` after it. Both divisors
   * are positive for every epoch the loop visits, and the result lies in (0, 1].
   */
  function Progress(epoch: int, numEpochs: int, warmupEpochs: int): (p: real)
    requires 1 <= epoch <= numEpochs
    ensures 0.0 < p <= 1.0
    ensures epoch <= warmupEpochs ==> p * warmupEpochs as real == epoch as real
    ensures warmupEpochs < epoch ==> p * (numEpochs - warmupEpochs) as real == (epoch - warmupEpochs) as real
  {
    if epoch <= warmupEpochs then
      var q := epoch as real / warmupEpochs as real;
      assert q * warmupEpochs as real == epoch as real;
      q
    else
      var q := (epoch - warmupEpochs) as real / (numEpochs - warmupEpochs) as real;
      assert q * (numEpochs - warmupEpochs) as real == (epoch - warmupEpochs) as real;
      q
  }

  /** The scheduled learning rate: linear warmup, then cosine annealing. */
  function LearningRate(epoch: int, numEpochs: int, warmupEpochs: int, m: Transcendentals): real
    requires 1 <= epoch <= numEpochs
  {
    var p := Progress(epoch, numEpochs, warmupEpochs);
    if epoch <= warmupEpochs then PeakLearningRate * p
    else PeakLearningRate * (1.0 + m.cos(Pi * p)) / 2.0
  }

  /** The noise-free loss: a slow linear fall during warmup, exponential decay after it. */
  function BaseLoss(epoch: int, numEpochs: int, warmupEpochs: int, shape: CurveShape, m: Transcendentals): real
    requires 1 <= epoch <= numEpochs
  {
    var p := Progress(epoch, numEpochs, warmupEpochs);
    if epoch <= warmupEpochs then
      shape.initialLoss - (shape.initialLoss - shape.finalLoss) * 0.1 * p
    else
      shape.finalLoss + (shape.initialLoss * 0.4 - shape.finalLoss) * m.exp(-3.0 * p)
  }

  /**
   * The record the curve builder appends for `epoch`. Whatever the noise, the loss is
   * clamped at 0.01 and both loss components at 0.
   */
  function EpochRecord(epoch: int, numEpochs: int, warmupEpochs: int, shape: CurveShape,
                       m: Transcendentals, z: EpochNoise): (r: MetricsRecord)
    requires 1 <= epoch <= numEpochs
    ensures r.epoch == epoch
    ensures r.loss >= 0.01 && r.contrastiveLoss >= 0.0 && r.reconstructionLoss >= 0.0
    ensures r.learningRate == LearningRate(epoch, numEpochs, warmupEpochs, m)
  {
    var base := BaseLoss(epoch, numEpochs, warmupEpochs, shape, m);
    var loss := Max(0.01, base + z.lossZ * (shape.noiseLevel * base));
    var contrastive := loss * 0.7 + z.contrastiveZ * 0.02;
    var reconstruction := loss * 0.3 + z.reconstructionZ * 0.01;
    MetricsRecord(epoch, loss, Max(0.0, contrastive), Max(0.0, reconstruction),
                  LearningRate(epoch, numEpochs, warmupEpochs, m))
  }

  /** The first `count` records of the curve for these parameters, epoch by epoch. */
  function CurvePrefix(count: nat, numEpochs: int, warmupEpochs: int, shape: CurveShape,
                       m: Transcendentals, noise: nat -> EpochNoise): (h: seq<MetricsRecord>)
    requires count <= RangeLength(numEpochs)
    ensures |h| == count
  {
    if count == 0 then []
    else CurvePrefix(count - 1, numEpochs, warmupEpochs, shape, m, noise)
         + [EpochRecord(count, numEpochs, warmupEpochs, shape, m, noise(count - 1))]
  }

  /** `h` is the curve generated for these parameters from the epoch draws `noise(0)`, `noise(1)`, ... */
  ghost predicate IsTrainingCurve(h: seq<MetricsRecord>, numEpochs: int, warmupEpochs: int,
                                  shape: CurveShape, m: Transcendentals, noise: nat -> EpochNoise)
  {
    h == CurvePrefix(RangeLength(numEpochs), numEpochs, warmupEpochs, shape, m, noise)
  }

  /** The `k`-th record of a curve is the record of epoch `k + 1`, built from draw `noise(k)`. */
  lemma {:induction false} CurvePrefixElements(count: nat, numEpochs: int, warmupEpochs: int, shape: CurveShape,
                                               m: Transcendentals, noise: nat -> EpochNoise)
    requires count <= RangeLength(numEpochs)
    ensures forall k :: 0 <= k < count ==>
      CurvePrefix(count, numEpochs, warmupEpochs, shape, m, noise)[k]
        == EpochRecord(k + 1, numEpochs, warmupEpochs, shape, m, noise(k))
  {
    if count > 0 {
      CurvePrefixElements(count - 1, numEpochs, warmupEpochs, shape, m, noise);
    }
  }

  /**
   * A loss history of the shape every stored curve has: epochs numbered 1, 2, ... in
   * order, every loss at least 0.01 and every component non-negative.
   */
  ghost predicate WellFormedHistory(h: seq<MetricsRecord>) {
    forall k :: 0 <= k < |h| ==>
      && h[k].epoch == k + 1
      && h[k].loss >= 0.01
      && h[k].contrastiveLoss >= 0.0
      && h[k].reconstructionLoss >= 0.0
  }

  /** `generate_training_curve`: one record per epoch `1..num_epochs`, appended in order. */
  method GenerateTrainingCurve(numEpochs: int, warmupEpochs: int, shape: CurveShape,
                               m: Transcendentals, noise: nat -> EpochNoise)
    returns (metrics: seq<MetricsRecord>)
    ensures IsTrainingCurve(metrics, numEpochs, warmupEpochs, shape, m, noise)
  {
    metrics := [];
    var epoch := 1;
    while epoch <= numEpochs
      invariant 1 <= epoch <= RangeLength(numEpochs) + 1
      invariant metrics == CurvePrefix(epoch - 1, numEpochs, warmupEpochs, shape, m, noise)
    {
      metrics := metrics + [EpochRecord(epoch, numEpochs, warmupEpochs, shape, m, noise(epoch - 1))];
      epoch := epoch + 1;
    }
  }

  /** Every generated curve has exactly `max(num_epochs, 0)` records and is well formed. */
  lemma TrainingCurveWellFormed(h: seq<MetricsRecord>, numEpochs: int, warmupEpochs: int,
                                shape: CurveShape, m: Transcendentals, noise: nat -> EpochNoise)
    requires IsTrainingCurve(h, numEpochs, warmupEpochs, shape, m, noise)
    ensures numEpochs >= 0 ==> |h| == numEpochs
    ensures numEpochs < 0 ==> h == []
    ensures WellFormedHistory(h)
  {
    CurvePrefixElements(|h|, numEpochs, warmupEpochs, shape, m, noise);
    forall k | 0 <= k < |h|
      ensures h[k].epoch == k + 1 && h[k].loss >= 0.01
      ensures h[k].contrastiveLoss >= 0.0 && h[k].reconstructionLoss >= 0.0
    {
      var r := EpochRecord(k + 1, numEpochs, warmupEpochs, shape, m, noise(k));
      assert h[k] == r;
    }
  }

  /** Epoch numbers in a well-formed history strictly increase. */
  lemma {:induction false} HistoryEpochsIncrease(h: seq<MetricsRecord>, i: int, j: int)
    requires WellFormedHistory(h)
    requires 0 <= i < j < |h|
    ensures h[i].epoch < h[j].epoch
  {
    assert h[i].epoch == i + 1;
    assert h[j].epoch == j + 1;
  }

  /** A product of two factors in [0, c] and [0, 1] stays in [0, c]. */
  lemma ScaleByFraction(c: real, p: real)
    requires 0.0 <= c && 0.0 <= p <= 1.0
    ensures 0.0 <= c * p <= c
  {
    assert c * p <= c * 1.0 by {
      assert c * (1.0 - p) >= 0.0;
    }
  }

  /**
   * During warmup the learning rate lies in (0, 1e-4] and, when `final_loss` is at most
   * `initial_loss`, the base loss falls from `initial_loss` by at most a tenth of
   * `initial_loss - final_loss`.
   */
  lemma WarmupEpochBounds(epoch: int, numEpochs: int, warmupEpochs: int, shape: CurveShape, m: Transcendentals)
    requires 1 <= epoch <= numEpochs && epoch <= warmupEpochs
    ensures 0.0 < LearningRate(epoch, numEpochs, warmupEpochs, m) <= PeakLearningRate
    ensures shape.finalLoss <= shape.initialLoss ==>
      var base := BaseLoss(epoch, numEpochs, warmupEpochs, shape, m);
      shape.initialLoss - (shape.initialLoss - shape.finalLoss) * 0.1 <= base <= shape.initialLoss
  {
    var p := Progress(epoch, numEpochs, warmupEpochs);
    ScaleByFraction(PeakLearningRate, p);
    if shape.finalLoss <= shape.initialLoss {
      var span := (shape.initialLoss - shape.finalLoss) * 0.1;
      ScaleByFraction(span, p);
      assert (shape.initialLoss - shape.finalLoss) * 0.1 * p == span * p;
    }
  }

  /**
   * After warmup the learning rate lies in [0, 1e-4] and, when `0.4 * initial_loss`
   * is at least `final_loss`, the base loss lies in [final_loss, 0.4 * initial_loss].
   */
  lemma PostWarmupEpochBounds(epoch: int, numEpochs: int, warmupEpochs: int, shape: CurveShape, m: Transcendentals)
    requires m.Lawful()
    requires 1 <= epoch <= numEpochs && warmupEpochs < epoch
    ensures 0.0 <= LearningRate(epoch, numEpochs, warmupEpochs, m) <= PeakLearningRate
    ensures shape.finalLoss <= shape.initialLoss * 0.4 ==>
      shape.finalLoss <= BaseLoss(epoch, numEpochs, warmupEpochs, shape, m) <= shape.initialLoss * 0.4
  {
    var p := Progress(epoch, numEpochs, warmupEpochs);
    var c := m.cos(Pi * p);
    assert -1.0 <= c <= 1.0;
    assert LearningRate(epoch, numEpochs, warmupEpochs, m) == PeakLearningRate * (1.0 + c) / 2.0;
    var decay := m.exp(-3.0 * p);
    assert 0.0 < decay <= 1.0;
    var amp := shape.initialLoss * 0.4 - shape.finalLoss;
    assert BaseLoss(epoch, numEpochs, warmupEpochs, shape, m) == shape.finalLoss + amp * decay;
    if 0.0 <= amp {
      ScaleByFraction(amp, decay);
    }
  }

  /** A number whose product with a positive number is non-negative is itself non-negative. */
  lemma NonNegativeFactor(x: real, d: real)
    requires 0.0 < d && 0.0 <= x * d
    ensures 0.0 <= x
  {
  }

  /** Progress grows with the epoch inside each phase. */
  lemma ProgressGrows(e1: int, e2: int, numEpochs: int, warmupEpochs: int)
    requires 1 <= e1 <= e2 <= numEpochs
    requires e2 <= warmupEpochs || warmupEpochs < e1
    ensures Progress(e1, numEpochs, warmupEpochs) <= Progress(e2, numEpochs, warmupEpochs)
  {
    var p1 := Progress(e1, numEpochs, warmupEpochs);
    var p2 := Progress(e2, numEpochs, warmupEpochs);
    var d := if e2 <= warmupEpochs then warmupEpochs as real else (numEpochs - warmupEpochs) as real;
    assert (p2 - p1) * d == p2 * d - p1 * d;
    NonNegativeFactor(p2 - p1, d);
  }

  /**
   * The noise-free loss never rises within a phase: during warmup when
   * `final_loss <= initial_loss`, after warmup when `final_loss <= 0.4 * initial_loss`.
   */
  lemma BaseLossNonIncreasing(e1: int, e2: int, numEpochs: int, warmupEpochs: int, shape: CurveShape, m: Transcendentals)
    requires m.Lawful()
    requires 1 <= e1 <= e2 <= numEpochs
    requires (e2 <= warmupEpochs && shape.finalLoss <= shape.initialLoss)
          || (warmupEpochs < e1 && shape.finalLoss <= shape.initialLoss * 0.4)
    ensures BaseLoss(e2, numEpochs, warmupEpochs, shape, m) <= BaseLoss(e1, numEpochs, warmupEpochs, shape, m)
  {
    var p1 := Progress(e1, numEpochs, warmupEpochs);
    var p2 := Progress(e2, numEpochs, warmupEpochs);
    ProgressGrows(e1, e2, numEpochs, warmupEpochs);
    if e2 <= warmupEpochs {
      var span := (shape.initialLoss - shape.finalLoss) * 0.1;
      assert span * p2 - span * p1 == span * (p2 - p1);
      assert 0.0 <= span * (p2 - p1);
    } else {
      var d1 := m.exp(-3.0 * p1);
      var d2 := m.exp(-3.0 * p2);
      assert d2 <= d1;
      var amp := shape.initialLoss * 0.4 - shape.finalLoss;
      assert amp * d1 - amp * d2 == amp * (d1 - d2);
      assert 0.0 <= amp * (d1 - d2);
    }
  }

  /**
   * Over a whole run the noise-free loss never rises, across the warmup/annealing
   * boundary too, when `0 <= final_loss <= 0.4 * initial_loss` (the defaults 2.5 and
   * 0.15 qualify): warmup never takes the loss below `0.9 * initial_loss`, and annealing
   * never lifts it above `0.4 * initial_loss`.
   */
  lemma BaseLossFallsOverRun(e1: int, e2: int, numEpochs: int, warmupEpochs: int, shape: CurveShape, m: Transcendentals)
    requires m.Lawful()
    requires 1 <= e1 <= e2 <= numEpochs
    requires 0.0 <= shape.finalLoss <= shape.initialLoss * 0.4
    ensures BaseLoss(e2, numEpochs, warmupEpochs, shape, m) <= BaseLoss(e1, numEpochs, warmupEpochs, shape, m)
  {
    if e2 <= warmupEpochs || warmupEpochs < e1 {
      BaseLossNonIncreasing(e1, e2, numEpochs, warmupEpochs, shape, m);
    } else {
      WarmupEpochBounds(e1, numEpochs, warmupEpochs, shape, m);
      PostWarmupEpochBounds(e2, numEpochs, warmupEpochs, shape, m);
    }
  }

  /**
   * The smallest loss of a non-empty history: Python's `min(m['loss'] for m in metrics)`.
   * It is one of the losses and no loss is smaller.
   */
  function MinLoss(h: seq<MetricsRecord>): (r: real)
    requires |h| > 0
    ensures exists k :: 0 <= k < |h| && h[k].loss == r
    ensures forall k :: 0 <= k < |h| ==> r <= h[k].loss
  {
    if |h| == 1 then h[0].loss
    else
      var rest := MinLoss(h[1..]);
      assert forall k :: 1 <= k < |h| ==> h[k] == h[1..][k - 1];
      Min(h[0].loss, rest)
  }

  // ---------------------------------------------------------------------------
  // Evaluation metrics
  // ---------------------------------------------------------------------------

  /** The standard-normal draws behind the four `random.gauss` calls of one evaluation. */
  datatype EvalNoise = EvalNoise(diceZ: real, hausdorffZ: real, precisionZ: real, recallZ: real)

  /** All four draws zero: the noise-free formulas. */
  const Quiet := EvalNoise(0.0, 0.0, 0.0, 0.0)

  /** The metric bundle `generate_evaluation_metrics` returns. */
  datatype Evaluation = Evaluation(
    diceScore: real,
    hausdorffDistance: real,
    precision: real,
    recall: real,
    iou: real,
    labelEfficiency: real)

  /** How much of the full-label performance survives at `pct` percent labels. */
  function LabelFactor(pct: real, sslPretrained: bool): real {
    if sslPretrained then 0.7 + 0.3 * (pct / 100.0) else 0.4 + 0.6 * (pct / 100.0)
  }

  function SslBonus(sslPretrained: bool): real {
    if sslPretrained then 0.08 else 0.0
  }

  /** The noise-free Dice score before the 0.95 cap. */
  function MeanDice(pct: real, sslPretrained: bool): real {
    0.85 * LabelFactor(pct, sslPretrained) + SslBonus(sslPretrained)
  }

  /**
   * `generate_evaluation_metrics`. The Hausdorff term divides by the label factor, which
   * raises ZeroDivisionError exactly when that factor is 0; otherwise Dice, precision and
   * recall are capped at 0.95, the Hausdorff distance is at least 1, IoU is 0.92 of Dice,
   * and the label efficiency is Dice per labelled fraction (0 when `pct <= 0`).
   */
  function EvaluationMetrics(pct: real, sslPretrained: bool, z: EvalNoise): (r: Result<Evaluation, Exception>)
    ensures r.Failure? <==> LabelFactor(pct, sslPretrained) == 0.0
    ensures r.Failure? ==> r.error == ZeroDivision
    ensures r.Success? ==>
      && r.value.diceScore <= 0.95
      && r.value.precision <= 0.95
      && r.value.recall <= 0.95
      && r.value.hausdorffDistance >= 1.0
      && r.value.iou == 0.92 * r.value.diceScore
    ensures r.Success? && pct <= 0.0 ==> r.value.labelEfficiency == 0.0
    ensures r.Success? && pct > 0.0 ==> r.value.labelEfficiency * (pct / 100.0) == r.value.diceScore
  {
    var factor := LabelFactor(pct, sslPretrained);
    var bonus := SslBonus(sslPretrained);
    var dice := Min(0.95, MeanDice(pct, sslPretrained) + z.diceZ * 0.02);
    if factor == 0.0 then Failure(ZeroDivision)
    else
      var hausdorff := Max(1.0, 5.0 / factor + z.hausdorffZ * 0.5);
      var precision := Min(0.95, (0.88 * factor + bonus * 0.5) + z.precisionZ * 0.02);
      var recall := Min(0.95, (0.83 * factor + bonus * 0.5) + z.recallZ * 0.02);
      var efficiency := if pct > 0.0 then dice / (pct / 100.0) else 0.0;
      Success(Evaluation(dice, hausdorff, precision, recall, dice * 0.92, efficiency))
  }

  /** For a percentage in [0, 100] both label factors are positive, so no division fails. */
  lemma EvaluationSucceedsOnPercentRange(pct: real, sslPretrained: bool, z: EvalNoise)
    requires 0.0 <= pct <= 100.0
    ensures LabelFactor(pct, sslPretrained) >= 0.4
    ensures EvaluationMetrics(pct, sslPretrained, z).Success?
  {
  }

  /**
   * Without noise, for a percentage in [0, 100], SSL pretraining gives at least the
   * supervised Dice score, and the gap before the cap is at least 0.08.
   */
  lemma SslDominatesSupervised(pct: real)
    requires 0.0 <= pct <= 100.0
    ensures MeanDice(pct, true) >= MeanDice(pct, false) + 0.08
    ensures EvaluationMetrics(pct, true, Quiet).Success? && EvaluationMetrics(pct, false, Quiet).Success?
    ensures EvaluationMetrics(pct, true, Quiet).value.diceScore >= EvaluationMetrics(pct, false, Quiet).value.diceScore
  {
    EvaluationSucceedsOnPercentRange(pct, true, Quiet);
    EvaluationSucceedsOnPercentRange(pct, false, Quiet);
  }

  /**
   * Without noise both Dice scores are non-decreasing in the labelled percentage, and the
   * SSL advantage before the cap shrinks as the percentage grows.
   */
  lemma DiceMonotoneInLabels(p1: real, p2: real, sslPretrained: bool)
    requires 0.0 <= p1 <= p2 <= 100.0
    ensures MeanDice(p1, sslPretrained) <= MeanDice(p2, sslPretrained)
    ensures MeanDice(p2, true) - MeanDice(p2, false) <= MeanDice(p1, true) - MeanDice(p1, false)
    ensures EvaluationMetrics(p1, sslPretrained, Quiet).Success? && EvaluationMetrics(p2, sslPretrained, Quiet).Success?
    ensures EvaluationMetrics(p1, sslPretrained, Quiet).value.diceScore
         <= EvaluationMetrics(p2, sslPretrained, Quiet).value.diceScore
  {
    EvaluationSucceedsOnPercentRange(p1, sslPretrained, Quiet);
    EvaluationSucceedsOnPercentRange(p2, sslPretrained, Quiet);
  }

  // ---------------------------------------------------------------------------
  // Label-efficiency sweep
  // ---------------------------------------------------------------------------

  /** The default checkpoints `[1, 5, 10, 25, 50, 100]`. */
  const DefaultLabelPercentages: seq<real> := [1.0, 5.0, 10.0, 25.0, 50.0, 100.0]

  /** A metric bundle tagged with the labelled percentage it was generated for. */
  datatype LabelledEvaluation = LabelledEvaluation(labelPercent: real, metrics: Evaluation)

  /** The two lists keyed `ssl_pretrained` and `supervised`. */
  datatype Comparison = Comparison(sslPretrained: seq<LabelledEvaluation>, supervised: seq<LabelledEvaluation>)

  /** Both evaluations at checkpoint `i` of the sweep succeed. */
  predicate CheckpointSucceeds(pcts: seq<real>, i: nat, sslNoise: nat -> EvalNoise, supervisedNoise: nat -> EvalNoise)
    requires i < |pcts|
  {
    EvaluationMetrics(pcts[i], true, sslNoise(i)).Success? && EvaluationMetrics(pcts[i], false, supervisedNoise(i)).Success?
  }

  /**
   * `c` is the sweep over `pcts`: entry `i` of each list is tagged with `pcts[i]` and holds
   * the pretrained (resp. supervised) evaluation at that percentage.
   */
  ghost predicate IsComparison(c: Comparison, pcts: seq<real>, sslNoise: nat -> EvalNoise, supervisedNoise: nat -> EvalNoise) {
    && |c.sslPretrained| == |pcts|
    && |c.supervised| == |pcts|
    && forall i :: 0 <= i < |pcts| ==>
         && CheckpointSucceeds(pcts, i, sslNoise, supervisedNoise)
         && c.sslPretrained[i] == LabelledEvaluation(pcts[i], EvaluationMetrics(pcts[i], true, sslNoise(i)).value)
         && c.supervised[i] == LabelledEvaluation(pcts[i], EvaluationMetrics(pcts[i], false, supervisedNoise(i)).value)
  }

  /**
   * `generate_label_efficiency_curve`: the sweep succeeds exactly when every checkpoint's
   * two evaluations do; the first failure propagates its ZeroDivisionError.
   */
  method GenerateLabelEfficiencyCurve(pcts: seq<real>, sslNoise: nat -> EvalNoise, supervisedNoise: nat -> EvalNoise)
    returns (r: Result<Comparison, Exception>)
    ensures r.Success? <==> forall i :: 0 <= i < |pcts| ==> CheckpointSucceeds(pcts, i, sslNoise, supervisedNoise)
    ensures r.Failure? ==> r.error == ZeroDivision
    ensures r.Success? ==> IsComparison(r.value, pcts, sslNoise, supervisedNoise)
  {
    var ssl: seq<LabelledEvaluation> := [];
    var supervised: seq<LabelledEvaluation> := [];
    var i := 0;
    while i < |pcts|
      invariant 0 <= i <= |pcts|
      invariant |ssl| == i && |supervised| == i
      invariant forall k :: 0 <= k < i ==>
         && CheckpointSucceeds(pcts, k, sslNoise, supervisedNoise)
         && ssl[k] == LabelledEvaluation(pcts[k], EvaluationMetrics(pcts[k], true, sslNoise(k)).value)
         && supervised[k] == LabelledEvaluation(pcts[k], EvaluationMetrics(pcts[k], false, supervisedNoise(k)).value)
    {
      var s := EvaluationMetrics(pcts[i], true, sslNoise(i));
      if s.Failure? {
        assert !CheckpointSucceeds(pcts, i, sslNoise, supervisedNoise);
        return Failure(s.error);
      }
      var u := EvaluationMetrics(pcts[i], false, supervisedNoise(i));
      if u.Failure? {
        assert !CheckpointSucceeds(pcts, i, sslNoise, supervisedNoise);
        return Failure(u.error);
      }
      ssl := ssl + [LabelledEvaluation(pcts[i], s.value)];
      supervised := supervised + [LabelledEvaluation(pcts[i], u.value)];
      i := i + 1;
    }
    r := Success(Comparison(ssl, supervised));
  }

  /** A sweep over percentages all in [0, 100] never fails. */
  lemma {:induction false} SweepSucceedsOnPercentRange(pcts: seq<real>, sslNoise: nat -> EvalNoise, supervisedNoise: nat -> EvalNoise)
    requires forall i :: 0 <= i < |pcts| ==> 0.0 <= pcts[i] <= 100.0
    ensures forall i :: 0 <= i < |pcts| ==> CheckpointSucceeds(pcts, i, sslNoise, supervisedNoise)
  {
    forall i | 0 <= i < |pcts|
      ensures CheckpointSucceeds(pcts, i, sslNoise, supervisedNoise)
    {
      EvaluationSucceedsOnPercentRange(pcts[i], true, sslNoise(i));
      EvaluationSucceedsOnPercentRange(pcts[i], false, supervisedNoise(i));
    }
  }

  /**
   * A noise-free sweep over ascending percentages in [0, 100]: at every checkpoint the SSL
   * Dice score is at least the supervised one, and both lists' Dice scores are non-decreasing.
   */
  lemma {:induction false} QuietSweepOrdered(c: Comparison, pcts: seq<real>)
    requires forall i :: 0 <= i < |pcts| ==> 0.0 <= pcts[i] <= 100.0
    requires forall i, j :: 0 <= i < j < |pcts| ==> pcts[i] <= pcts[j]
    requires IsComparison(c, pcts, _ => Quiet, _ => Quiet)
    ensures forall i :: 0 <= i < |pcts| ==>
      c.sslPretrained[i].metrics.diceScore >= c.supervised[i].metrics.diceScore
    ensures forall i, j :: 0 <= i < j < |pcts| ==>
      && c.sslPretrained[i].metrics.diceScore <= c.sslPretrained[j].metrics.diceScore
      && c.supervised[i].metrics.diceScore <= c.supervised[j].metrics.diceScore
  {
    forall i | 0 <= i < |pcts|
      ensures c.sslPretrained[i].metrics.diceScore >= c.supervised[i].metrics.diceScore
    {
      SslDominatesSupervised(pcts[i]);
    }
    forall i, j | 0 <= i < j < |pcts|
      ensures c.sslPretrained[i].metrics.diceScore <= c.sslPretrained[j].metrics.diceScore
      ensures c.supervised[i].metrics.diceScore <= c.supervised[j].metrics.diceScore
    {
      DiceMonotoneInLabels(pcts[i], pcts[j], true);
      DiceMonotoneInLabels(pcts[i], pcts[j], false);
    }
  }

  // ---------------------------------------------------------------------------
  // Contrastive embeddings
  // ---------------------------------------------------------------------------

  const OrganLabels: seq<string> := ["liver", "kidney", "spleen", "lung", "heart"]

  /** A `random.uniform(-8, 8)` draw. */
  type CentreCoordinate = r: real | -8.0 <= r <= 8.0

  /** A `random.random()` draw. */
  type UnitDraw = r: real | 0.0 <= r < 1.0

  /** A cluster centre drawn by the list comprehension over `range(num_clusters)`. */
  datatype Centre = Centre(x: CentreCoordinate, y: CentreCoordinate)

  /** The draws of one sample: two standard-normal offsets and the confidence draw. */
  datatype PointNoise = PointNoise(xZ: real, yZ: real, u: UnitDraw)

  datatype EmbeddingPoint = EmbeddingPoint(id: int, x: real, y: real, cluster: int, organLabel: string, confidence: real)

  /**
   * Whether `generate_contrastive_embeddings` returns normally: it always does when no
   * sample is drawn, and otherwise needs a positive cluster count that either has a
   * label for every cluster or never reaches the sixth sample.
   */
  predicate EmbeddingSucceeds(numSamples: int, numClusters: int) {
    numSamples <= 0 || (1 <= numClusters && (numClusters <= |OrganLabels| || numSamples <= |OrganLabels|))
  }

  /** Point `i` of a successful run: round-robin cluster, jittered centre, organ label. */
  ghost predicate IsEmbeddingPoint(p: EmbeddingPoint, i: int, numClusters: int,
                                   centres: nat -> Centre, noise: nat -> PointNoise)
    requires 0 <= i && 1 <= numClusters
  {
    var c := i % numClusters;
    && p.id == i
    && p.cluster == c
    && c < |OrganLabels|
    && p.organLabel == OrganLabels[c]
    && p.x == centres(c).x + noise(i).xZ * 1.5
    && p.y == centres(c).y + noise(i).yZ * 1.5
    && p.confidence == 0.7 + noise(i).u * 0.3
  }

  lemma SmallRemainder(i: int, k: int)
    requires 0 <= i < k
    ensures i % k == i
  {
  }

  lemma RemainderAtMost(i: int, k: int)
    requires 0 <= i && 0 < k
    ensures i % k <= i
  {
    if i >= k {
      assert i % k < k;
    }
  }

  /** `generate_contrastive_embeddings`. */
  method GenerateContrastiveEmbeddings(numSamples: int, numClusters: int,
                                       centreDraws: nat -> Centre, noise: nat -> PointNoise)
    returns (r: Result<seq<EmbeddingPoint>, Exception>)
    ensures r.Success? <==> EmbeddingSucceeds(numSamples, numClusters)
    ensures r.Failure? ==> r.error == (if numClusters == 0 then ZeroDivision else IndexOutOfRange)
    ensures r.Success? ==> |r.value| == RangeLength(numSamples)
    ensures r.Success? && numSamples > 0 ==> 1 <= numClusters
    ensures r.Success? ==> forall i :: 0 <= i < |r.value| ==>
      && 1 <= numClusters
      && IsEmbeddingPoint(r.value[i], i, numClusters, centreDraws, noise)
      && 0.7 <= r.value[i].confidence <= 1.0
  {
    var centres := seq(RangeLength(numClusters), j requires 0 <= j => centreDraws(j));
    var points: seq<EmbeddingPoint> := [];
    var i := 0;
    while i < numSamples
      invariant 0 <= i <= RangeLength(numSamples) && |points| == i
      invariant i > 0 ==> 1 <= numClusters
      invariant numClusters > |OrganLabels| ==> i <= |OrganLabels|
      invariant forall k :: 0 <= k < i ==>
        IsEmbeddingPoint(points[k], k, numClusters, centreDraws, noise) && 0.7 <= points[k].confidence <= 1.0
    {
      if numClusters == 0 {
        return Failure(ZeroDivision);
      }
      var c := FloorMod(i, numClusters);
      if !IndexOk(c, |centres|) {
        return Failure(IndexOutOfRange);
      }
      var centre := Subscript(centres, c);
      var x := centre.x + noise(i).xZ * 1.5;
      var y := centre.y + noise(i).yZ * 1.5;
      if !IndexOk(c, |OrganLabels|) {
        RemainderAtMost(i, numClusters);
        return Failure(IndexOutOfRange);
      }
      var organLabel := Subscript(OrganLabels, c);
      if numClusters > |OrganLabels| && i == |OrganLabels| {
        SmallRemainder(i, numClusters);
        assert false;
      }
      points := points + [EmbeddingPoint(i, x, y, c, organLabel, 0.7 + noise(i).u * 0.3)];
      i := i + 1;
    }
    r := Success(points);
  }

  // ---------------------------------------------------------------------------
  // Slice statistics
  // ---------------------------------------------------------------------------

  /** A `random.randint(0, 10)` draw. */
  type BinJitter = n: int | 0 <= n <= 10

  /** A `random.randint(1, 3)` draw. */
  type RegionCount = n: int | 1 <= n <= 3 witness 1

  /** A `random.uniform(0.5, 5.0)` draw. */
  type TumourPercent = r: real | 0.5 <= r <= 5.0 witness 0.5

  /** A `random.uniform(60, 85)` draw. */
  type CoveragePercent = r: real | 60.0 <= r <= 85.0 witness 60.0

  /** Every draw of one slice request. */
  datatype SliceNoise = SliceNoise(
    binJitter: nat -> BinJitter,
    meanZ: real,
    stdZ: real,
    regions: RegionCount,
    tumour: TumourPercent,
    coverage: CoveragePercent)

  datatype HistogramBin = HistogramBin(bin: int, count: int)

  datatype Segmentation = Segmentation(numRegions: int, tumorVolumePercent: real, organCoveragePercent: real)

  datatype SliceData = SliceData(
    sliceIndex: int,
    totalSlices: int,
    width: int,
    height: int,
    histogram: seq<HistogramBin>,
    meanIntensity: real,
    stdIntensity: real,
    segmentation: Option<Segmentation>)

  /** Number of histogram bins: `range(0, 256, 8)`. */
  const BinCountTotal := 32

  /**
   * The count of the histogram bin starting at intensity `start`: a Gaussian bump of
   * height 100 centred on 128, plus the jitter, truncated to an integer. It lies in [0, 110].
   */
  function BinCount(start: int, jitter: BinJitter, m: Transcendentals): (n: int)
    ensures m.Lawful() ==> 0 <= n <= 110
  {
    var sq := (start - 128) * (start - 128);
    var e := m.exp(-(sq as real) / 2000.0);
    assert m.Lawful() ==> 0.0 < e <= 1.0 by {
      if m.Lawful() {
        assert sq >= 0;
        assert -(sq as real) / 2000.0 <= 0.0;
      }
    }
    Truncate(100.0 * e + jitter as real)
  }

  /**
   * `generate_slice_data`: 32 bins numbered 0, 8, ..., 248, the slice position echoed
   * back, and a segmentation summary exactly when one is requested. The slice index is
   * not checked against the slice count.
   */
  function GenerateSliceData(sliceIdx: int, totalSlices: int, includeSegmentation: bool,
                             m: Transcendentals, z: SliceNoise): (d: SliceData)
    ensures |d.histogram| == BinCountTotal
    ensures forall j :: 0 <= j < |d.histogram| ==> d.histogram[j].bin == 8 * j
    ensures m.Lawful() ==> forall j :: 0 <= j < |d.histogram| ==> 0 <= d.histogram[j].count <= 110
    ensures d.sliceIndex == sliceIdx && d.totalSlices == totalSlices
    ensures d.segmentation.Some? <==> includeSegmentation
    ensures d.segmentation.Some? ==>
      && 1 <= d.segmentation.value.numRegions <= 3
      && 0.5 <= d.segmentation.value.tumorVolumePercent <= 5.0
      && 60.0 <= d.segmentation.value.organCoveragePercent <= 85.0
  {
    var histogram := seq(BinCountTotal, j requires 0 <= j => HistogramBin(8 * j, BinCount(8 * j, z.binJitter(j), m)));
    assert forall j :: 0 <= j < BinCountTotal ==> histogram[j] == HistogramBin(8 * j, BinCount(8 * j, z.binJitter(j), m));
    var segmentation :=
      if includeSegmentation then Some(Segmentation(z.regions, z.tumour, z.coverage)) else None;
    SliceData(sliceIdx, totalSlices, 256, 256, histogram, 125.0 + z.meanZ * 10.0, 45.0 + z.stdZ * 5.0, segmentation)
  }
}

/**
 * ReliabilityMonitor (src/agentic_env_ai/agents.py): a fixed weighted sum of
 * the evaluation metrics and a three-way status band.
 */
module Reliability {
  import opened Results
  import opened Rounding
  import opened Models

  /** 0.3 retrieval accuracy + 0.35 reasoning consistency + 0.25 tool
      correctness + 0.1 calibration (one minus the error). The weights add
      up to one, so metrics in [0, 1] give a score in [0, 1]. */
  function Weighted(accuracy: real, consistency: real, correctness: real, ece: real): (w: real)
    ensures (&& 0.0 <= accuracy <= 1.0 && 0.0 <= consistency <= 1.0
             && 0.0 <= correctness <= 1.0 && 0.0 <= ece <= 1.0) ==> 0.0 <= w <= 1.0
    ensures accuracy == 1.0 && consistency == 1.0 && correctness == 1.0 && ece == 0.0 ==> w == 1.0
  {
    0.3 * accuracy + 0.35 * consistency + 0.25 * correctness + 0.1 * (1.0 - ece)
  }

  /** Better metrics never lower the weighted score. */
  lemma WeightedMonotone(
    accuracy: real, consistency: real, correctness: real, ece: real,
    accuracy': real, consistency': real, correctness': real, ece': real)
    requires accuracy <= accuracy' && consistency <= consistency' && correctness <= correctness'
    requires ece' <= ece
    ensures Weighted(accuracy, consistency, correctness, ece)
         <= Weighted(accuracy', consistency', correctness', ece')
  {
  }

  /** High from 0.85, moderate from 0.7, low below. */
  function BandOf(value: real): Band {
    if value >= 0.85 then High else if value >= 0.7 then Moderate else Low
  }

  /** The order of the bands, lowest first. */
  function Rank(b: Band): nat {
    match b
    case Low => 0
    case Moderate => 1
    case High => 2
  }

  /** A higher score never gets a lower band. */
  lemma BandMonotone(value: real, value': real)
    requires value <= value'
    ensures Rank(BandOf(value)) <= Rank(BandOf(value'))
  {
  }

  /** Rounding to 4 places keeps a score on the same side of the two band
      thresholds, which are themselves on the 4-place grid. */
  lemma RoundedSide(value: real)
    ensures value >= 0.85 ==> Round(value, 4) >= 0.85
    ensures value < 0.85 ==> Round(value, 4) <= 0.85
    ensures value >= 0.7 ==> Round(value, 4) >= 0.7
    ensures value < 0.7 ==> Round(value, 4) <= 0.7
  {
    RoundOnGrid(8500, 4);
    RoundOnGrid(7000, 4);
    if value >= 0.85 { RoundMonotone(0.85, value, 4); } else { RoundMonotone(value, 0.85, 4); }
    if value >= 0.7 { RoundMonotone(0.7, value, 4); } else { RoundMonotone(value, 0.7, 4); }
  }

  /** The reliability record: the weighted score rounded to 4 places, and a
      band taken from the unrounded score. A high status always shows a
      score of at least 0.85, and a shown score above 0.85 is always high;
      likewise for the 0.7 boundary of the low band. Only a shown score of
      exactly 0.85 or 0.7 can sit in the band below (see
      `BoundaryDisagreement`). */
  function Assess(e: EvaluationRecord): (r: ReliabilityRecord)
    ensures r.status == BandOf(Weighted(e.retrievalAccuracy, e.reasoningConsistency, e.toolCorrectness, e.ece))
    ensures r.endToEnd == Round(Weighted(e.retrievalAccuracy, e.reasoningConsistency, e.toolCorrectness, e.ece), 4)
    ensures r.status == High ==> r.endToEnd >= 0.85
    ensures r.endToEnd > 0.85 ==> r.status == High
    ensures r.status != Low ==> r.endToEnd >= 0.7
    ensures r.endToEnd > 0.7 ==> r.status != Low
  {
    var value := Weighted(e.retrievalAccuracy, e.reasoningConsistency, e.toolCorrectness, e.ece);
    RoundedSide(value);
    ReliabilityRecord(Round(value, 4), BandOf(value))
  }

  /** At the boundary the shown score and the status disagree: a weighted
      score of 0.84996 is shown as 0.85 but banded moderate. */
  lemma BoundaryDisagreement()
    ensures Assess(EvaluationRecord(0.6, 1.0, 1.0, 0.3004)) == ReliabilityRecord(0.85, Moderate)
  {
    assert Weighted(0.6, 1.0, 1.0, 0.3004) == 0.84996;
    assert RoundHalfEven(0.84996 * 10000.0) == 8500;
  }

  /** The rounded score follows the metrics the same way the unrounded one does. */
  lemma EndToEndMonotone(e: EvaluationRecord, e': EvaluationRecord)
    requires e.retrievalAccuracy <= e'.retrievalAccuracy
    requires e.reasoningConsistency <= e'.reasoningConsistency
    requires e.toolCorrectness <= e'.toolCorrectness
    requires e'.ece <= e.ece
    ensures Assess(e).endToEnd <= Assess(e').endToEnd
  {
    RoundMonotone(
      Weighted(e.retrievalAccuracy, e.reasoningConsistency, e.toolCorrectness, e.ece),
      Weighted(e'.retrievalAccuracy, e'.reasoningConsistency, e'.toolCorrectness, e'.ece), 4);
  }

  /** With consistent reasoning, correct tools and a calibration error of at
      most 0.3, the status is high whatever the retrieval accuracy (0.6 or 1). */
  lemma HighWhenCalibrated(e: EvaluationRecord)
    requires e.retrievalAccuracy == 1.0 || e.retrievalAccuracy == 0.6
    requires e.reasoningConsistency == 1.0 && e.toolCorrectness == 1.0
    requires e.ece <= 0.3
    ensures Assess(e).status == High
  {
  }

  /** The reliability stage: raises without an evaluation record; otherwise
      writes `reliability` only. */
  function Run(c: Context): (r: Result<Context, Failure>)
    ensures r.Err? <==> c.evaluation.None?
    ensures r.Err? ==> r.error == Aborted(ReliabilityStage)
    ensures r.Ok? ==> r.value.(reliability := c.reliability) == c
    ensures r.Ok? ==> r.value.reliability == Some(Assess(c.evaluation.value))
  {
    if c.evaluation.None? then Err(Aborted(ReliabilityStage))
    else Ok(c.(reliability := Some(Assess(c.evaluation.value))))
  }
}

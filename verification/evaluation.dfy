/**
 * EvaluationAgent (src/agentic_env_ai/agents.py): four fixed-rule proxy
 * metrics over what the earlier stages wrote.
 */
module Evaluation {
  import opened Results
  import opened Rounding
  import opened Models

  function Abs(x: real): real { if x < 0.0 then -x else x }

  /** Full marks when all three topics were retrieved, 0.6 otherwise. */
  function RetrievalAccuracy(chunks: seq<string>): real {
    if |chunks| >= 3 then 1.0 else 0.6
  }

  /** The calibration-error proxy: how far the score, as a fraction, is from
      the retrieval accuracy, scaled by 0.1 and rounded to 4 places. */
  function Ece(airQualityScore: real, accuracy: real): (e: real)
    ensures e >= 0.0
  {
    RoundMonotone(0.0, Abs(airQualityScore / 100.0 - accuracy) * 0.1, 4);
    Round(Abs(airQualityScore / 100.0 - accuracy) * 0.1, 4)
  }

  /** The metrics record; each metric is rounded as the agent rounds it,
      which leaves the constants 1.0, 0.6, 0.5 and 0.0 as they are. */
  function Assess(chunks: seq<string>, reasoning: ReasoningRecord, tool: ToolOutputs): (e: EvaluationRecord)
    ensures e.retrievalAccuracy == 1.0 <==> |chunks| >= 3
    ensures e.retrievalAccuracy == 0.6 <==> |chunks| < 3
    ensures e.reasoningConsistency == 1.0 <==> reasoning.explanation.Some?
    ensures e.reasoningConsistency == 0.5 <==> reasoning.explanation.None?
    ensures e.toolCorrectness == 1.0 <==> tool.maxSensorValue >= tool.meanSensorValue
    ensures e.toolCorrectness == 0.0 <==> tool.maxSensorValue < tool.meanSensorValue
    ensures e.ece == Ece(reasoning.airQualityScore, RetrievalAccuracy(chunks))
  {
    var accuracy := RetrievalAccuracy(chunks);
    var consistency := if reasoning.explanation.Some? then 1.0 else 0.5;
    var correctness := if tool.maxSensorValue >= tool.meanSensorValue then 1.0 else 0.0;
    EvaluationRecord(
      Round(accuracy, 3),
      Round(consistency, 3),
      Round(correctness, 3),
      Ece(reasoning.airQualityScore, accuracy))
  }

  /** A score inside 0..100 keeps the calibration error at most 0.1. */
  lemma EceAtMostTenth(airQualityScore: real, chunks: seq<string>)
    requires 0.0 <= airQualityScore <= 100.0
    ensures Ece(airQualityScore, RetrievalAccuracy(chunks)) <= 0.1
  {
    var gap := Abs(airQualityScore / 100.0 - RetrievalAccuracy(chunks)) * 0.1;
    assert gap <= 0.1;
    RoundMonotone(gap, 0.1, 4);
  }

  /** The evaluation stage: raises when the tool outputs or the reasoning
      record it looks up are missing; otherwise writes `evaluation` only. */
  function Run(c: Context): (r: Result<Context, Failure>)
    ensures r.Err? <==> c.toolOutputs.None? || c.reasoning.None?
    ensures r.Err? ==> r.error == Aborted(EvaluationStage)
    ensures r.Ok? ==> r.value.(evaluation := c.evaluation) == c
    ensures r.Ok? ==> r.value.evaluation == Some(Assess(c.retrievalChunks, c.reasoning.value, c.toolOutputs.value))
  {
    if c.toolOutputs.None? || c.reasoning.None? then Err(Aborted(EvaluationStage))
    else Ok(c.(evaluation := Some(Assess(c.retrievalChunks, c.reasoning.value, c.toolOutputs.value))))
  }
}

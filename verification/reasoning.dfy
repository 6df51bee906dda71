/**
 * ReasoningAgent (src/agentic_env_ai/agents.py): a linear pollution penalty
 * turned into a 0-100 air-quality score, and a pH band check.
 */
module Reasoning {
  import opened Results
  import opened Rounding
  import opened Models

  /** The readings the agent looks up. */
  const Inputs: set<string> := {"pm25", "no2", "ph"}

  const Explanation: string := "Combined particulate and NO2 loading with pH threshold checks."

  /** The particulate and NO2 loading: never negative for non-negative
      readings. */
  function Penalty(pm25: real, no2: real): (p: real)
    ensures pm25 >= 0.0 && no2 >= 0.0 ==> p >= 0.0
  {
    pm25 * 1.2 + no2 * 0.6
  }

  function Min(a: real, b: real): real { if a <= b then a else b }

  function Max(a: real, b: real): real { if a >= b then a else b }

  /** The score for a given penalty, before it is tied to the readings:
      100 minus the penalty capped at 100, floored at 0, to 2 places. */
  function ScoreFor(penalty: real): (s: real)
    ensures s >= 0.0
    ensures penalty >= 0.0 ==> s <= 100.0
    ensures penalty >= 100.0 ==> s == 0.0
    ensures penalty <= 0.0 ==> s >= 100.0
  {
    var v := Max(0.0, 100.0 - Min(100.0, penalty));
    RoundMonotone(0.0, v, 2);
    if penalty >= 0.0 then RoundMonotone(v, 100.0, 2); Round(v, 2)
    else RoundMonotone(100.0, v, 2); Round(v, 2)
  }

  /** The air-quality score of two readings: never negative, at most 100
      for non-negative readings, and exactly 100 for clean air. */
  function AirQualityScore(pm25: real, no2: real): (s: real)
    ensures s >= 0.0
    ensures pm25 >= 0.0 && no2 >= 0.0 ==> s <= 100.0
    ensures pm25 == 0.0 && no2 == 0.0 ==> s == 100.0
  {
    ScoreFor(Penalty(pm25, no2))
  }

  /** More pollution never raises the score. */
  lemma ScoreNonIncreasing(pm25: real, no2: real, pm25': real, no2': real)
    requires pm25 <= pm25' && no2 <= no2'
    ensures AirQualityScore(pm25', no2') <= AirQualityScore(pm25, no2)
  {
    var p, p' := Penalty(pm25, no2), Penalty(pm25', no2');
    assert p <= p';
    RoundMonotone(Max(0.0, 100.0 - Min(100.0, p')), Max(0.0, 100.0 - Min(100.0, p)), 2);
  }

  function WaterStatusOf(ph: real): WaterStatus {
    if 6.5 <= ph <= 8.5 then Normal else Attention
  }

  /** The reasoning record for normalized readings. */
  function Assess(data: map<string, real>): (r: ReasoningRecord)
    requires Inputs <= data.Keys
    ensures r.explanation.Some?
  {
    ReasoningRecord(
      AirQualityScore(data["pm25"], data["no2"]),
      WaterStatusOf(data["ph"]),
      Some(Explanation))
  }

  /** The reasoning stage: fails exactly when a reading it looks up is
      missing; otherwise writes `reasoning` and nothing else. */
  function Run(c: Context): (r: Result<Context, Failure>)
    ensures r.Err? <==> !(Inputs <= c.normalizedData.Keys)
    ensures r.Err? ==> r.error == Aborted(ReasoningStage)
    ensures r.Ok? ==> r.value.(reasoning := c.reasoning) == c
    ensures r.Ok? ==> r.value.reasoning == Some(Assess(c.normalizedData))
  {
    if Inputs <= c.normalizedData.Keys then Ok(c.(reasoning := Some(Assess(c.normalizedData))))
    else Err(Aborted(ReasoningStage))
  }
}

/**
 * GovernanceAgent (src/agentic_env_ai/agents.py): threshold alerts on the
 * PM2.5 and pH readings, and the publish gate.
 */
module Governance {
  import opened Results
  import opened Models

  /** The readings the agent looks up. */
  const Inputs: set<string> := {"pm25", "ph"}

  /** The alerts, PM2.5 first: PM2.5 above 55, pH below 6 or above 9. */
  function Alerts(pm25: real, ph: real): (alerts: seq<Alert>)
    ensures Pm25Exceeded in alerts <==> pm25 > 55.0
    ensures PhOutOfRange in alerts <==> ph < 6.0 || ph > 9.0
    ensures |alerts| <= 2
    ensures |alerts| == 2 ==> alerts == [Pm25Exceeded, PhOutOfRange]
    ensures forall i, j :: 0 <= i < j < |alerts| ==> alerts[i] != alerts[j]
  {
    (if pm25 > 55.0 then [Pm25Exceeded] else [])
    + (if ph < 6.0 || ph > 9.0 then [PhOutOfRange] else [])
  }

  /** The governance record: safe to publish exactly when nothing alerts. */
  function Assess(data: map<string, real>): (g: GovernanceRecord)
    requires Inputs <= data.Keys
    ensures g.alerts == Alerts(data["pm25"], data["ph"])
    ensures g.safeToPublish <==> data["pm25"] <= 55.0 && 6.0 <= data["ph"] <= 9.0
  {
    var alerts := Alerts(data["pm25"], data["ph"]);
    GovernanceRecord(alerts, |alerts| == 0)
  }

  /** The governance stage: raises when a reading it looks up is missing;
      otherwise writes `governance` only. */
  function Run(c: Context): (r: Result<Context, Failure>)
    ensures r.Err? <==> !(Inputs <= c.normalizedData.Keys)
    ensures r.Err? ==> r.error == Aborted(GovernanceStage)
    ensures r.Ok? ==> r.value.(governance := c.governance) == c
    ensures r.Ok? ==> r.value.governance == Some(Assess(c.normalizedData))
  {
    if Inputs <= c.normalizedData.Keys then Ok(c.(governance := Some(Assess(c.normalizedData))))
    else Err(Aborted(GovernanceStage))
  }
}

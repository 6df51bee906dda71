/**
 * DataIngestionAgent (src/agentic_env_ai/agents.py): checks that the five
 * required sensors are present, then keeps exactly those keys, each coerced
 * with `float`.
 */
module DataIngestion {
  import opened Results
  import opened Models

  const Required: set<string> := {"pm25", "pm10", "no2", "ph", "temperature_c"}

  /** Some required sensor is present with a value `float` rejects. */
  predicate HasUncoercible(payload: Payload) {
    exists k :: k in Required && k in payload && payload[k].NotNumeric?
  }

  /** The normalized readings, or the error the agent raises. The missing-key
      check comes first, so a missing sensor is reported even when another
      value is also not numeric; keys outside `Required` are never coerced. */
  function Normalize(payload: Payload): (r: Result<map<string, real>, Failure>)
    ensures r.Err? <==> !(Required <= payload.Keys) || HasUncoercible(payload)
    ensures (r.Err? && r.error.MissingSensors?) <==> !(Required <= payload.Keys)
    ensures r.Err? && r.error.MissingSensors? ==> r.error.missing == Required - payload.Keys
    ensures r.Err? ==> r.error.MissingSensors? || r.error == InvalidSensorValue
    ensures r.Ok? ==> r.value.Keys == Required
    ensures r.Ok? ==> forall k :: k in r.value ==> payload[k] == Numeric(r.value[k])
  {
    if !(Required <= payload.Keys) then Err(MissingSensors(Required - payload.Keys))
    else if HasUncoercible(payload) then Err(InvalidSensorValue)
    else Ok(map k | k in payload && k in Required :: payload[k].number)
  }

  /** Payloads that agree on the required sensors normalize alike: any other
      key, whatever its value, neither causes nor prevents a failure and
      never reaches the normalized data. */
  lemma NormalizeIgnoresExtraKeys(p: Payload, q: Payload)
    requires forall k :: k in Required ==> (k in p <==> k in q)
    requires forall k :: k in Required && k in p ==> p[k] == q[k]
    ensures Normalize(p) == Normalize(q)
  {
    assert Required - p.Keys == Required - q.Keys;
    if Required <= p.Keys {
      assert HasUncoercible(p) <==> HasUncoercible(q);
      if !HasUncoercible(p) {
        var mp := map k | k in p && k in Required :: p[k].number;
        var mq := map k | k in q && k in Required :: q[k].number;
        assert mp.Keys == mq.Keys;
        assert forall k :: k in mp ==> mp[k] == mq[k];
        assert mp == mq;
      }
    }
  }

  /** The ingestion stage: writes `normalizedData` and nothing else. */
  function Run(c: Context): (r: Result<Context, Failure>)
    ensures r.Ok? <==> Normalize(c.request.sensorData).Ok?
    ensures r.Err? ==> r.error == Normalize(c.request.sensorData).error
    ensures r.Ok? ==> r.value == c.(normalizedData := r.value.normalizedData)
    ensures r.Ok? ==> r.value.normalizedData.Keys == Required
  {
    match Normalize(c.request.sensorData)
    case Err(e) => Err(e)
    case Ok(data) => Ok(c.(normalizedData := data))
  }
}

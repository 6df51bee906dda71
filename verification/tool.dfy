/**
 * ToolAgent (src/agentic_env_ai/agents.py): the mean and the maximum of all
 * normalized readings, each rounded to 3 places.
 */
module Tool {
  import opened Results
  import opened Rounding
  import opened Stats
  import opened Models

  /** The tool outputs for non-empty readings: the mean and the maximum,
      each rounded to 3 places. The maximum dominates the mean even after
      rounding. */
  ghost function Compute(data: map<string, real>): (t: ToolOutputs)
    requires data != map[]
    ensures t.maxSensorValue >= t.meanSensorValue
  {
    var mean, top := MapSum(data) / |data| as real, MapMax(data);
    MeanAtMostMax(data);
    RoundMonotone(mean, top, 3);
    ToolOutputs(Round(mean, 3), Round(top, 3))
  }

  /** The reported maximum is the rounded value of some reading, and no
      rounded reading exceeds it. */
  lemma MaxIsTopReading(data: map<string, real>)
    requires data != map[]
    ensures exists k :: k in data && Compute(data).maxSensorValue == Round(data[k], 3)
    ensures forall k :: k in data ==> Round(data[k], 3) <= Compute(data).maxSensorValue
  {
    var top := MapMax(data);
    forall k | k in data ensures Round(data[k], 3) <= Round(top, 3) {
      RoundMonotone(data[k], top, 3);
    }
  }

  /** One pass over the readings, accumulating the sum and the running
      maximum; it computes exactly the tool outputs. */
  method Scan(data: map<string, real>) returns (t: ToolOutputs)
    requires data != map[]
    ensures t == Compute(data)
  {
    var sum, top := Accumulate(data);
    t := ToolOutputs(Round(sum / |data| as real, 3), Round(top, 3));
    ComputeUnfolds(data);
  }

  /** The loop of `Scan`: the sum and the maximum of the readings. */
  method Accumulate(data: map<string, real>) returns (sum: real, top: real)
    requires data != map[]
    ensures sum == MapSum(data) && top == MapMax(data)
  {
    var k0 :| k0 in data;
    sum, top := 0.0, data[k0];
    var rest := data;
    while rest != map[]
      invariant rest.Keys <= data.Keys
      invariant forall k :: k in rest ==> rest[k] == data[k]
      invariant sum + MapSum(rest) == MapSum(data)
      invariant exists k :: k in data && data[k] == top
      invariant forall k :: k in data && k !in rest ==> data[k] <= top
      decreases |rest|
    {
      var k :| k in rest;
      var x := rest[k];
      MapSumRemove(rest, k);
      MapRemoveSize(rest, k);
      sum := sum + x;
      if x > top {
        top := x;
      }
      rest := rest - {k};
    }
    MaxIsMapMax(data, top);
  }

  /** A value taken by some reading and at least every reading is the maximum. */
  lemma MaxIsMapMax(data: map<string, real>, top: real)
    requires exists k :: k in data && data[k] == top
    requires forall k :: k in data ==> data[k] <= top
    ensures data != map[] && top == MapMax(data)
  {
    var k :| k in data && data[k] == top;
    assert data[k] <= MapMax(data);
  }

  lemma ComputeUnfolds(data: map<string, real>)
    requires data != map[]
    ensures Compute(data) == ToolOutputs(Round(MapSum(data) / |data| as real, 3), Round(MapMax(data), 3))
  {
  }

  /** The tool stage: fails exactly on empty readings (Python's `mean` and
      `max` both raise there); otherwise writes `toolOutputs` and nothing else. */
  ghost function Run(c: Context): (r: Result<Context, Failure>)
    ensures r.Err? <==> c.normalizedData == map[]
    ensures r.Err? ==> r.error == Aborted(ToolStage)
    ensures r.Ok? ==> r.value.(toolOutputs := c.toolOutputs) == c
    ensures r.Ok? ==> r.value.toolOutputs.Some?
    ensures r.Ok? ==> r.value.toolOutputs.value.maxSensorValue >= r.value.toolOutputs.value.meanSensorValue
  {
    if c.normalizedData == map[] then Err(Aborted(ToolStage))
    else Ok(c.(toolOutputs := Some(Compute(c.normalizedData))))
  }
}

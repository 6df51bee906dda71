/**
 * Concrete runs: the demo request of src/agentic_env_ai/demo.py and the
 * second stress scenario of src/agentic_env_ai/evaluate.py, worked through
 * the model with exact decimal arithmetic.
 */
module Scenarios {
  import opened Results
  import opened Models
  import DataIngestion
  import Retrieval
  import Reasoning
  import Evaluation
  import Reliability
  import Governance
  import Orchestration
  import Rounding

  const PmGuideline: string := "WHO PM2.5 guideline: annual mean under 5 µg/m3 where feasible."
  const NoGuideline: string := "WHO NO2 guideline: annual average under 10 µg/m3."
  const PhGuideline: string := "Surface water pH is typically acceptable in range 6.5-8.5."

  /** The demo corpus: one guideline per topic. */
  const DemoCorpus: Retrieval.Corpus := map["pm25" := PmGuideline, "no2" := NoGuideline, "ph" := PhGuideline]

  const DemoRequest: Request := Request("SITE-001", map[
    "pm25" := Numeric(38.0), "pm10" := Numeric(62.0), "no2" := Numeric(17.0),
    "ph" := Numeric(7.3), "temperature_c" := Numeric(31.2)])

  /** The stress payload carries the site id as an extra, non-numeric key. */
  const StressRequest: Request := Request("SITE-002", map[
    "site_id" := NotNumeric, "pm25" := Numeric(58.0), "pm10" := Numeric(90.0),
    "no2" := Numeric(31.0), "ph" := Numeric(5.9), "temperature_c" := Numeric(32.0)])

  /** The readings a payload normalizes to, from the five values given. */
  lemma NormalizesTo(payload: Payload, pm25: real, pm10: real, no2: real, ph: real, temperature: real)
    requires "pm25" in payload && payload["pm25"] == Numeric(pm25)
    requires "pm10" in payload && payload["pm10"] == Numeric(pm10)
    requires "no2" in payload && payload["no2"] == Numeric(no2)
    requires "ph" in payload && payload["ph"] == Numeric(ph)
    requires "temperature_c" in payload && payload["temperature_c"] == Numeric(temperature)
    ensures DataIngestion.Normalize(payload).Ok?
    ensures var data := DataIngestion.Normalize(payload).value;
            data["pm25"] == pm25 && data["no2"] == no2 && data["ph"] == ph
  {
    assert DataIngestion.Required <= payload.Keys;
    assert !DataIngestion.HasUncoercible(payload);
  }

  /** The demo run: an air quality score of 44.2, normal water, all three
      guidelines cited in order, and safe to publish. */
  lemma DemoRun()
    ensures var r := Orchestration.Run(Orchestration.New(DemoCorpus), DemoRequest).1;
            && r.Ok? && r.value.report.Some?
            && r.value.report.value.summary.Some?
            && r.value.report.value.summary.value.airQualityScore == 44.2
            && r.value.report.value.summary.value.waterStatus == Normal
            && r.value.report.value.retrievalEvidence == [PmGuideline, NoGuideline, PhGuideline]
            && r.value.report.value.governance == Some(GovernanceRecord([], true))
  {
    var o := Orchestration.New(DemoCorpus);
    NormalizesTo(DemoRequest.sensorData, 38.0, 62.0, 17.0, 7.3, 31.2);
    Orchestration.ReportContents(o, DemoRequest);
    DemoEvidence();
    DemoScore();
    var data := DataIngestion.Normalize(DemoRequest.sensorData).value;
    assert Reasoning.Assess(data).waterStatus == Normal;
    assert Governance.Assess(data) == GovernanceRecord([], true);
  }

  /** The demo corpus covers all three topics, so all three guidelines are
      cited, in query order. */
  lemma DemoEvidence()
    ensures Retrieval.Lookup(Retrieval.QueryTerms, DemoCorpus) == [PmGuideline, NoGuideline, PhGuideline]
  {
    Retrieval.EvidenceOrder(DemoCorpus);
  }

  /** The demo run's reliability: 0.9944, high. */
  lemma DemoReliable()
    ensures var r := Orchestration.Run(Orchestration.New(DemoCorpus), DemoRequest).1;
            && r.Ok? && r.value.report.Some?
            && r.value.report.value.reliability == Some(ReliabilityRecord(0.9944, High))
  {
    var o := Orchestration.New(DemoCorpus);
    NormalizesTo(DemoRequest.sensorData, 38.0, 62.0, 17.0, 7.3, 31.2);
    Orchestration.RunOutcome(o, DemoRequest);
    var c := Orchestration.Run(o, DemoRequest).1.value;
    Retrieval.EvidenceOrder(DemoCorpus);
    assert |c.retrievalChunks| == 3;
    DemoScore();
    assert c.reasoning.value.airQualityScore == 44.2;
    FullMarksEvaluation(c.retrievalChunks, c.reasoning.value, c.toolOutputs.value);
    DemoEce();
    DemoReliability();
  }

  /** All three topics retrieved, an explanation given and correct tool
      outputs: only the calibration error is left to compute. */
  lemma FullMarksEvaluation(chunks: seq<string>, reasoning: ReasoningRecord, tool: ToolOutputs)
    requires |chunks| >= 3 && reasoning.explanation.Some?
    requires tool.maxSensorValue >= tool.meanSensorValue
    ensures Evaluation.Assess(chunks, reasoning, tool)
         == EvaluationRecord(1.0, 1.0, 1.0, Evaluation.Ece(reasoning.airQualityScore, 1.0))
  {
  }

  /** 38 and 17 give a penalty of 55.8 and so a score of 44.2. */
  lemma DemoScore()
    ensures Reasoning.AirQualityScore(38.0, 17.0) == 44.2
  {
    assert Reasoning.Penalty(38.0, 17.0) == 55.8;
    Rounding.RoundOnGrid(4420, 2);
  }

  /** A score of 44.2 against full retrieval marks is off by 0.0558. */
  lemma DemoEce()
    ensures Evaluation.Ece(44.2, 1.0) == 0.0558
  {
    Rounding.RoundOnGrid(558, 4);
  }

  /** Full marks but for a calibration error of 0.0558 give 0.9944, high. */
  lemma DemoReliability()
    ensures Reliability.Assess(EvaluationRecord(1.0, 1.0, 1.0, 0.0558)) == ReliabilityRecord(0.9944, High)
  {
    assert Reliability.Weighted(1.0, 1.0, 1.0, 0.0558) == 0.99442;
    assert Rounding.RoundHalfEven(0.99442 * 10000.0) == 9944;
  }

  /** The second stress run: both governance alerts, particulate first, so
      the report may not be published; the non-numeric `site_id` entry of
      the payload does not stop the run. */
  lemma StressRun()
    ensures var r := Orchestration.Run(Orchestration.New(DemoCorpus), StressRequest).1;
            && r.Ok? && r.value.report.Some?
            && r.value.report.value.governance
               == Some(GovernanceRecord([Pm25Exceeded, PhOutOfRange], false))
            && r.value.report.value.summary.Some?
            && r.value.report.value.summary.value.airQualityScore == 11.8
            && r.value.report.value.summary.value.waterStatus == Attention
  {
    var o := Orchestration.New(DemoCorpus);
    NormalizesTo(StressRequest.sensorData, 58.0, 90.0, 31.0, 5.9, 32.0);
    Orchestration.ReportContents(o, StressRequest);
    var data := DataIngestion.Normalize(StressRequest.sensorData).value;
    assert Reasoning.Assess(data).airQualityScore == 11.8 by {
      assert Reasoning.Penalty(58.0, 31.0) == 88.2;
      Rounding.RoundOnGrid(1180, 2);
    }
  }

  /** A corpus without the pH guideline. */
  const PartialCorpus: Retrieval.Corpus := map["pm25" := PmGuideline, "no2" := NoGuideline]

  /** Negative particulate readings pass ingestion: -217 and 0 give a score
      of 360.4. */
  const BoundaryRequest: Request := Request("SITE-003", map[
    "pm25" := Numeric(-217.0), "pm10" := Numeric(0.0), "no2" := Numeric(0.0),
    "ph" := Numeric(7.0), "temperature_c" := Numeric(20.0)])

  /** The boundary case of `Reliability.BoundaryDisagreement` is reached by
      a whole run: against a corpus missing one topic, the report shows an
      end-to-end score of 0.85 with a moderate status. */
  lemma BoundaryRun()
    ensures var r := Orchestration.Run(Orchestration.New(PartialCorpus), BoundaryRequest).1;
            && r.Ok? && r.value.report.Some?
            && r.value.report.value.reliability == Some(ReliabilityRecord(0.85, Moderate))
  {
    var o := Orchestration.New(PartialCorpus);
    NormalizesTo(BoundaryRequest.sensorData, -217.0, 0.0, 0.0, 7.0, 20.0);
    Orchestration.RunOutcome(o, BoundaryRequest);
    var c := Orchestration.Run(o, BoundaryRequest).1.value;
    Retrieval.EvidenceOrder(PartialCorpus);
    assert |c.retrievalChunks| == 2;
    BoundaryScore();
    assert c.reasoning.value.airQualityScore == 360.4;
    assert c.reasoning.value.explanation.Some?;
    assert c.toolOutputs.value.maxSensorValue >= c.toolOutputs.value.meanSensorValue;
    BoundaryEce();
    assert c.evaluation == Some(EvaluationRecord(0.6, 1.0, 1.0, 0.3004));
    Reliability.BoundaryDisagreement();
  }

  /** -217 and 0 give a penalty of -260.4 and so a score of 360.4. */
  lemma BoundaryScore()
    ensures Reasoning.AirQualityScore(-217.0, 0.0) == 360.4
  {
    assert Reasoning.Penalty(-217.0, 0.0) == -260.4;
    Rounding.RoundOnGrid(36040, 2);
  }

  /** A score of 360.4 against partial retrieval is off by 0.3004. */
  lemma BoundaryEce()
    ensures Evaluation.Ece(360.4, 0.6) == 0.3004
  {
    Rounding.RoundOnGrid(3004, 4);
  }

  /** The strings the stress report carries: the two alert messages of the
      governance agent, particulate first, and water status "attention". */
  lemma StressReportText()
    ensures var r := Orchestration.Run(Orchestration.New(DemoCorpus), StressRequest).1;
            && r.Ok? && r.value.report.Some?
            && r.value.report.value.governance.Some?
            && r.value.report.value.summary.Some?
            && var alerts := r.value.report.value.governance.value.alerts;
               && |alerts| == 2
               && alerts[0].Text() == "PM2.5 exceeds governance threshold"
               && alerts[1].Text() == "pH outside safe governance range"
               && r.value.report.value.summary.value.waterStatus.Label() == "attention"
  {
    StressRun();
  }
}

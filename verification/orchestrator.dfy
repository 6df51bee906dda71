/**
 * Orchestrator (src/agentic_env_ai/orchestrator.py): one fresh context per
 * request, threaded through the stages in a fixed order; the memory store
 * is the only state carried from one run to the next.
 */
module Orchestration {
  import opened Results
  import opened Models
  import DataIngestion
  import Retrieval
  import Reasoning
  import Tool
  import Memory
  import Evaluation
  import Reliability
  import Governance

  /** The orchestrator's state: the read-only corpus and the memory store. */
  datatype Orchestrator = Orchestrator(corpus: Retrieval.Corpus, store: Memory.Store)

  /** A new orchestrator starts with every site's history empty. */
  function New(corpus: Retrieval.Corpus): (o: Orchestrator)
    ensures o.corpus == corpus
    ensures forall site :: Memory.History(o.store, site) == []
  {
    Orchestrator(corpus, map[])
  }

  /** The fixed stage order. */
  const Order: seq<Stage> := [
    IngestionStage, RetrievalStage, ReasoningStage, ToolStage, MemoryStage,
    EvaluationStage, ReliabilityStage, GovernanceStage, ReportStage]

  /** The report: a projection of the context's fields. */
  function Assemble(c: Context): Report {
    Report(
      c.request.siteId,
      c.reasoning,
      c.ingestionMetadata,
      c.toolOutputs,
      c.evaluation,
      c.reliability,
      c.governance,
      c.retrievalChunks)
  }

  /** One stage on the current store and context. Only the memory stage
      touches the store, and no stage replaces the request. */
  ghost function Step(stage: Stage, corpus: Retrieval.Corpus, store: Memory.Store, c: Context)
    : (r: (Memory.Store, Result<Context, Failure>))
    ensures stage != MemoryStage ==> r.0 == store
    ensures r.1.Ok? ==> r.1.value.request == c.request
  {
    match stage
    case IngestionStage => (store, DataIngestion.Run(c))
    case RetrievalStage => (store, Ok(Retrieval.Run(corpus, c)))
    case ReasoningStage => (store, Reasoning.Run(c))
    case ToolStage => (store, Tool.Run(c))
    case MemoryStage => Memory.Run(store, c)
    case EvaluationStage => (store, Evaluation.Run(c))
    case ReliabilityStage => (store, Reliability.Run(c))
    case GovernanceStage => (store, Governance.Run(c))
    case ReportStage => (store, Ok(c.(report := Some(Assemble(c)))))
  }

  /** The stages from position `i` on; the first failure stops the run and
      is returned with the store as that stage left it. */
  ghost function RunFrom(stages: seq<Stage>, i: nat, corpus: Retrieval.Corpus, store: Memory.Store, c: Context)
    : (r: (Memory.Store, Result<Context, Failure>))
    requires i <= |stages|
    ensures r.1.Ok? ==> r.1.value.request == c.request
    ensures (forall j :: i <= j < |stages| ==> stages[j] != MemoryStage) ==> r.0 == store
    decreases |stages| - i
  {
    if i == |stages| then (store, Ok(c))
    else
      var next := Step(stages[i], corpus, store, c);
      if next.1.Err? then next
      else RunFrom(stages, i + 1, corpus, next.0, next.1.value)
  }

  /** `Orchestrator.run`: a fresh context through every stage in order. */
  ghost function Run(o: Orchestrator, request: Request): (r: (Orchestrator, Result<Context, Failure>))
    ensures r.0.corpus == o.corpus
    ensures r.1.Ok? ==> r.1.value.request == request
  {
    var out := RunFrom(Order, 0, o.corpus, o.store, NewContext(request));
    (o.(store := out.0), out.1)
  }

  /** What holds once the first `k` stages of `Order` have run without
      failing, from a fresh context for `request` and the store `store0`:
      each field written so far holds what its stage computes from the
      fields written before it, and the store has gained one score for the
      site once the memory stage has run. */
  ghost predicate Done(k: nat, corpus: Retrieval.Corpus, store0: Memory.Store, request: Request,
                       store: Memory.Store, c: Context)
  {
    var site := request.siteId;
    && c.request == request
    && c.ingestionMetadata == map[]
    && (k < 5 ==> store == store0)
    && (k < 9 ==> c.report == None)
    && (k >= 1 ==> DataIngestion.Normalize(request.sensorData) == Ok(c.normalizedData))
    && (k >= 2 ==> c.retrievalChunks == Retrieval.Lookup(Retrieval.QueryTerms, corpus))
    && (k >= 3 ==> c.reasoning == Some(Reasoning.Assess(c.normalizedData)))
    && (k >= 4 ==> c.toolOutputs == Some(Tool.Compute(c.normalizedData)))
    && (k >= 5 ==> store == Memory.Append(store0, site, c.reasoning.value.airQualityScore))
    && (k >= 5 ==> c.memory == Some(Memory.Summarize(Memory.History(store, site))))
    && (k >= 6 ==> c.evaluation == Some(Evaluation.Assess(c.retrievalChunks, c.reasoning.value, c.toolOutputs.value)))
    && (k >= 7 ==> c.reliability == Some(Reliability.Assess(c.evaluation.value)))
    && (k >= 8 ==> c.governance == Some(Governance.Assess(c.normalizedData)))
    && (k >= 9 ==> c.report == Some(Assemble(c)))
  }

  lemma AfterIngestion(corpus: Retrieval.Corpus, store0: Memory.Store, request: Request,
                store: Memory.Store, c: Context)
    requires Done(0, corpus, store0, request, store, c)
    requires DataIngestion.Normalize(request.sensorData).Ok?
    ensures Step(IngestionStage, corpus, store, c).1.Ok?
    ensures Done(1, corpus, store0, request, Step(IngestionStage, corpus, store, c).0,
                 Step(IngestionStage, corpus, store, c).1.value)
  {
    var data := DataIngestion.Normalize(request.sensorData).value;
    assert Step(IngestionStage, corpus, store, c) == (store, Ok(c.(normalizedData := data)));
  }

  lemma AfterRetrieval(corpus: Retrieval.Corpus, store0: Memory.Store, request: Request,
                store: Memory.Store, c: Context)
    requires Done(1, corpus, store0, request, store, c)
    requires DataIngestion.Normalize(request.sensorData).Ok?
    ensures Step(RetrievalStage, corpus, store, c).1.Ok?
    ensures Done(2, corpus, store0, request, Step(RetrievalStage, corpus, store, c).0,
                 Step(RetrievalStage, corpus, store, c).1.value)
  {
    assert Step(RetrievalStage, corpus, store, c)
        == (store, Ok(c.(retrievalChunks := Retrieval.Lookup(Retrieval.QueryTerms, corpus))));
  }

  lemma AfterReasoning(corpus: Retrieval.Corpus, store0: Memory.Store, request: Request,
                store: Memory.Store, c: Context)
    requires Done(2, corpus, store0, request, store, c)
    requires DataIngestion.Normalize(request.sensorData).Ok?
    ensures Step(ReasoningStage, corpus, store, c).1.Ok?
    ensures Done(3, corpus, store0, request, Step(ReasoningStage, corpus, store, c).0,
                 Step(ReasoningStage, corpus, store, c).1.value)
  {
    assert c.normalizedData.Keys == DataIngestion.Required;
    assert Step(ReasoningStage, corpus, store, c)
        == (store, Ok(c.(reasoning := Some(Reasoning.Assess(c.normalizedData)))));
  }

  lemma AfterTool(corpus: Retrieval.Corpus, store0: Memory.Store, request: Request,
                store: Memory.Store, c: Context)
    requires Done(3, corpus, store0, request, store, c)
    requires DataIngestion.Normalize(request.sensorData).Ok?
    ensures Step(ToolStage, corpus, store, c).1.Ok?
    ensures Done(4, corpus, store0, request, Step(ToolStage, corpus, store, c).0,
                 Step(ToolStage, corpus, store, c).1.value)
  {
    assert c.normalizedData.Keys == DataIngestion.Required;
    assert Step(ToolStage, corpus, store, c)
        == (store, Ok(c.(toolOutputs := Some(Tool.Compute(c.normalizedData)))));
  }

  lemma AfterMemory(corpus: Retrieval.Corpus, store0: Memory.Store, request: Request,
                store: Memory.Store, c: Context)
    requires Done(4, corpus, store0, request, store, c)
    requires DataIngestion.Normalize(request.sensorData).Ok?
    ensures Step(MemoryStage, corpus, store, c).1.Ok?
    ensures Done(5, corpus, store0, request, Step(MemoryStage, corpus, store, c).0,
                 Step(MemoryStage, corpus, store, c).1.value)
  {
    var site := c.request.siteId;
    var s := Memory.Append(store, site, c.reasoning.value.airQualityScore);
    assert Step(MemoryStage, corpus, store, c)
        == (s, Ok(c.(memory := Some(Memory.Summarize(Memory.History(s, site))))));
  }

  lemma AfterEvaluation(corpus: Retrieval.Corpus, store0: Memory.Store, request: Request,
                store: Memory.Store, c: Context)
    requires Done(5, corpus, store0, request, store, c)
    requires DataIngestion.Normalize(request.sensorData).Ok?
    ensures Step(EvaluationStage, corpus, store, c).1.Ok?
    ensures Done(6, corpus, store0, request, Step(EvaluationStage, corpus, store, c).0,
                 Step(EvaluationStage, corpus, store, c).1.value)
  {
    assert Step(EvaluationStage, corpus, store, c)
        == (store, Ok(c.(evaluation := Some(Evaluation.Assess(c.retrievalChunks, c.reasoning.value, c.toolOutputs.value)))));
  }

  lemma AfterReliability(corpus: Retrieval.Corpus, store0: Memory.Store, request: Request,
                store: Memory.Store, c: Context)
    requires Done(6, corpus, store0, request, store, c)
    requires DataIngestion.Normalize(request.sensorData).Ok?
    ensures Step(ReliabilityStage, corpus, store, c).1.Ok?
    ensures Done(7, corpus, store0, request, Step(ReliabilityStage, corpus, store, c).0,
                 Step(ReliabilityStage, corpus, store, c).1.value)
  {
    assert Step(ReliabilityStage, corpus, store, c)
        == (store, Ok(c.(reliability := Some(Reliability.Assess(c.evaluation.value)))));
  }

  lemma AfterGovernance(corpus: Retrieval.Corpus, store0: Memory.Store, request: Request,
                store: Memory.Store, c: Context)
    requires Done(7, corpus, store0, request, store, c)
    requires DataIngestion.Normalize(request.sensorData).Ok?
    ensures Step(GovernanceStage, corpus, store, c).1.Ok?
    ensures Done(8, corpus, store0, request, Step(GovernanceStage, corpus, store, c).0,
                 Step(GovernanceStage, corpus, store, c).1.value)
  {
    assert c.normalizedData.Keys == DataIngestion.Required;
    assert Step(GovernanceStage, corpus, store, c)
        == (store, Ok(c.(governance := Some(Governance.Assess(c.normalizedData)))));
  }

  lemma AfterReport(corpus: Retrieval.Corpus, store0: Memory.Store, request: Request,
                store: Memory.Store, c: Context)
    requires Done(8, corpus, store0, request, store, c)
    requires DataIngestion.Normalize(request.sensorData).Ok?
    ensures Step(ReportStage, corpus, store, c).1.Ok?
    ensures Done(9, corpus, store0, request, Step(ReportStage, corpus, store, c).0,
                 Step(ReportStage, corpus, store, c).1.value)
  {
    var c' := c.(report := Some(Assemble(c)));
    assert Step(ReportStage, corpus, store, c) == (store, Ok(c'));
    assert Assemble(c') == Assemble(c);
    assert c' == c.(report := c'.report);
  }

  /** Stage `k` of `Order` cannot fail once the stages before it have run
      (ingestion aside, which needs normalizable readings), and it extends
      what holds by its own field. */
  lemma Advance(k: nat, corpus: Retrieval.Corpus, store0: Memory.Store, request: Request,
                store: Memory.Store, c: Context)
    requires k < |Order| && Done(k, corpus, store0, request, store, c)
    requires DataIngestion.Normalize(request.sensorData).Ok?
    ensures Step(Order[k], corpus, store, c).1.Ok?
    ensures Done(k + 1, corpus, store0, request, Step(Order[k], corpus, store, c).0,
                 Step(Order[k], corpus, store, c).1.value)
  {
    match k
    case 0 => AfterIngestion(corpus, store0, request, store, c);
    case 1 => AfterRetrieval(corpus, store0, request, store, c);
    case 2 => AfterReasoning(corpus, store0, request, store, c);
    case 3 => AfterTool(corpus, store0, request, store, c);
    case 4 => AfterMemory(corpus, store0, request, store, c);
    case 5 => AfterEvaluation(corpus, store0, request, store, c);
    case 6 => AfterReliability(corpus, store0, request, store, c);
    case 7 => AfterGovernance(corpus, store0, request, store, c);
    case 8 => AfterReport(corpus, store0, request, store, c);
  }

  /** From position `k` on, a run that has got that far completes. */
  lemma {:induction false} Completes(k: nat, corpus: Retrieval.Corpus, store0: Memory.Store,
                                     request: Request, store: Memory.Store, c: Context)
    requires k <= |Order| && Done(k, corpus, store0, request, store, c)
    requires DataIngestion.Normalize(request.sensorData).Ok?
    ensures RunFrom(Order, k, corpus, store, c).1.Ok?
    ensures Done(9, corpus, store0, request, RunFrom(Order, k, corpus, store, c).0,
                 RunFrom(Order, k, corpus, store, c).1.value)
    decreases |Order| - k
  {
    if k < |Order| {
      Advance(k, corpus, store0, request, store, c);
      var next := Step(Order[k], corpus, store, c);
      Completes(k + 1, corpus, store0, request, next.0, next.1.value);
    }
  }

  /** The run fails exactly when ingestion does, with ingestion's error and
      the store untouched; otherwise every stage runs, in order, and all of
      `Done` holds of the result. No stage after ingestion ever fails. */
  lemma PipelineTrace(corpus: Retrieval.Corpus, store: Memory.Store, request: Request)
    ensures var out := RunFrom(Order, 0, corpus, store, NewContext(request));
            var n := DataIngestion.Normalize(request.sensorData);
            && (out.1.Err? <==> n.Err?)
            && (out.1.Err? ==> out.1.error == n.error && out.0 == store)
            && (out.1.Ok? ==> Done(9, corpus, store, request, out.0, out.1.value))
  {
    var n := DataIngestion.Normalize(request.sensorData);
    if n.Ok? {
      Completes(0, corpus, store, request, store, NewContext(request));
    }
  }

  /** `Orchestrator.run` raises exactly when ingestion does, with the
      orchestrator unchanged; otherwise the orchestrator keeps its corpus,
      its store gains the run's score for the site, and the context holds
      every stage's record. */
  lemma RunOutcome(o: Orchestrator, request: Request)
    ensures var (o', r) := Run(o, request);
            var n := DataIngestion.Normalize(request.sensorData);
            && o'.corpus == o.corpus
            && (r.Err? <==> n.Err?)
            && (r.Err? ==> r.error == n.error && o' == o)
            && (r.Ok? ==> Done(9, o.corpus, o.store, request, o'.store, r.value))
  {
    PipelineTrace(o.corpus, o.store, request);
  }

  /** The report of a successful run: the request's site, the reasoning
      record as summary, an always-empty ingestion map, the retrieved
      evidence in query order, and every stage record present. */
  lemma ReportContents(o: Orchestrator, request: Request)
    requires DataIngestion.Normalize(request.sensorData).Ok?
    ensures var r := Run(o, request).1;
            var data := DataIngestion.Normalize(request.sensorData).value;
            && r.Ok? && r.value.report.Some?
            && r.value.report.value.siteId == request.siteId
            && r.value.report.value.summary == Some(Reasoning.Assess(data))
            && r.value.report.value.ingestion == map[]
            && r.value.report.value.toolOutputs == Some(Tool.Compute(data))
            && r.value.report.value.evaluation == r.value.evaluation && r.value.evaluation.Some?
            && r.value.report.value.reliability == r.value.reliability && r.value.reliability.Some?
            && r.value.report.value.governance == Some(Governance.Assess(data))
            && r.value.report.value.retrievalEvidence == Retrieval.Lookup(Retrieval.QueryTerms, o.corpus)
  {
    RunOutcome(o, request);
  }

  /** The report's summary in terms of the request's own readings: water
      is normal exactly when the pH reading lies in 6.5..8.5, the score is
      never negative and at most 100 for non-negative pollutant readings,
      and an explanation is always given. */
  lemma SummaryFromReadings(o: Orchestrator, request: Request)
    requires DataIngestion.Normalize(request.sensorData).Ok?
    ensures var payload := request.sensorData;
            && "ph" in payload && payload["ph"].Numeric?
            && "pm25" in payload && payload["pm25"].Numeric?
            && "no2" in payload && payload["no2"].Numeric?
            && var r := Run(o, request).1;
               && r.Ok? && r.value.report.Some? && r.value.report.value.summary.Some?
               && var summary := r.value.report.value.summary.value;
                  var pm25, no2 := payload["pm25"].number, payload["no2"].number;
                  && (summary.waterStatus == Normal <==> 6.5 <= payload["ph"].number <= 8.5)
                  && summary.explanation.Some?
                  && summary.airQualityScore >= 0.0
                  && (pm25 >= 0.0 && no2 >= 0.0 ==> summary.airQualityScore <= 100.0)
  {
    ReportContents(o, request);
    var data := DataIngestion.Normalize(request.sensorData).value;
    assert "ph" in data && "pm25" in data && "no2" in data;
  }

  /** Scores between 0 and 100 are an invariant of a site's history: a run
      with non-negative pollutant readings keeps every stored score in that
      range and reports a historical mean in it too. */
  lemma HistoryStaysInRange(o: Orchestrator, request: Request)
    requires DataIngestion.Normalize(request.sensorData).Ok?
    requires var data := DataIngestion.Normalize(request.sensorData).value;
             data["pm25"] >= 0.0 && data["no2"] >= 0.0
    requires var h := Memory.History(o.store, request.siteId);
             forall i :: 0 <= i < |h| ==> 0.0 <= h[i] <= 100.0
    ensures var (o', r) := Run(o, request);
            var h := Memory.History(o'.store, request.siteId);
            && (forall i :: 0 <= i < |h| ==> 0.0 <= h[i] <= 100.0)
            && r.Ok? && r.value.memory.Some?
            && 0.0 <= r.value.memory.value.historicalMean <= 100.0
  {
    RunOutcome(o, request);
    var (o', r) := Run(o, request);
    var site := request.siteId;
    var data := r.value.normalizedData;
    var score := Reasoning.Assess(data).airQualityScore;
    assert r.value.reasoning == Some(Reasoning.Assess(data));
    var h := Memory.History(o'.store, site);
    assert h == Memory.History(o.store, site) + [score];
    assert 0.0 <= score <= 100.0;
    Memory.MeanWithinScores(h, 0, 100);
  }

  /** After a successful ingestion the tools are always judged correct and
      the reasoning always consistent; retrieval gets full marks exactly
      when the corpus covers all three topics. */
  lemma EvaluationMarks(o: Orchestrator, request: Request)
    requires DataIngestion.Normalize(request.sensorData).Ok?
    ensures var r := Run(o, request).1;
            && r.Ok? && r.value.evaluation.Some?
            && r.value.evaluation.value.toolCorrectness == 1.0
            && r.value.evaluation.value.reasoningConsistency == 1.0
            && (r.value.evaluation.value.retrievalAccuracy == 1.0
                <==> "pm25" in o.corpus && "no2" in o.corpus && "ph" in o.corpus)
  {
    RunOutcome(o, request);
    var c := Run(o, request).1.value;
    assert c.retrievalChunks == Retrieval.Run(o.corpus, c).retrievalChunks;
  }

  /** Readings whose penalty is not negative always give a high reliability
      status, whether or not the corpus covers every topic. */
  lemma ReliableWhenPenaltyNonNegative(o: Orchestrator, request: Request)
    requires DataIngestion.Normalize(request.sensorData).Ok?
    requires var data := DataIngestion.Normalize(request.sensorData).value;
             Reasoning.Penalty(data["pm25"], data["no2"]) >= 0.0
    ensures var r := Run(o, request).1;
            r.Ok? && r.value.reliability.Some? && r.value.reliability.value.status == High
  {
    RunOutcome(o, request);
    var c := Run(o, request).1.value;
    var data := c.normalizedData;
    assert data == DataIngestion.Normalize(request.sensorData).value;
    var reasoning := Reasoning.Assess(data);
    assert c.reasoning == Some(reasoning);
    assert reasoning.airQualityScore == Reasoning.ScoreFor(Reasoning.Penalty(data["pm25"], data["no2"]));
    var tool := Tool.Compute(data);
    assert c.toolOutputs == Some(tool);
    HighAfterEvaluation(c.retrievalChunks, reasoning, tool);
    assert c.reliability == Some(Reliability.Assess(Evaluation.Assess(c.retrievalChunks, reasoning, tool)));
  }

  /** A consistent reasoning record with a score in 0..100 and correct tool
      outputs are judged highly reliable, whatever was retrieved. */
  lemma HighAfterEvaluation(chunks: seq<string>, reasoning: ReasoningRecord, tool: ToolOutputs)
    requires reasoning.explanation.Some? && 0.0 <= reasoning.airQualityScore <= 100.0
    requires tool.maxSensorValue >= tool.meanSensorValue
    ensures Reliability.Assess(Evaluation.Assess(chunks, reasoning, tool)).status == High
  {
    var e := Evaluation.Assess(chunks, reasoning, tool);
    Evaluation.EceAtMostTenth(reasoning.airQualityScore, chunks);
    Reliability.HighWhenCalibrated(e);
  }

  /** A successful run adds exactly one score to its site's history and
      reports the new count; every other site's history is untouched. */
  lemma HistoryGrowsByOne(o: Orchestrator, request: Request)
    requires DataIngestion.Normalize(request.sensorData).Ok?
    ensures var (o', r) := Run(o, request);
            var site := request.siteId;
            && r.Ok? && r.value.memory.Some?
            && |Memory.History(o'.store, site)| == |Memory.History(o.store, site)| + 1
            && r.value.memory.value.historicalCount == |Memory.History(o'.store, site)|
            && (forall other :: other != site ==> Memory.History(o'.store, other) == Memory.History(o.store, other))
  {
    RunOutcome(o, request);
  }

  /** Two successful runs in a row for the same site: the second reports a
      historical count one higher than the first. */
  lemma TwoRunsSameSite(o: Orchestrator, first: Request, second: Request)
    requires first.siteId == second.siteId
    requires DataIngestion.Normalize(first.sensorData).Ok?
    requires DataIngestion.Normalize(second.sensorData).Ok?
    ensures var (o1, r1) := Run(o, first);
            var (_, r2) := Run(o1, second);
            && r1.Ok? && r2.Ok? && r1.value.memory.Some? && r2.value.memory.Some?
            && r2.value.memory.value.historicalCount == r1.value.memory.value.historicalCount + 1
  {
    HistoryGrowsByOne(o, first);
    HistoryGrowsByOne(Run(o, first).0, second);
  }

  /** The history kept between runs never reaches the report: with the same
      corpus and request, any two stores give the same report. */
  lemma ReportIgnoresHistory(o: Orchestrator, o': Orchestrator, request: Request)
    requires o.corpus == o'.corpus
    ensures Run(o, request).1.Ok? <==> Run(o', request).1.Ok?
    ensures Run(o, request).1.Ok? ==> Run(o, request).1.value.report == Run(o', request).1.value.report
  {
    RunOutcome(o, request);
    RunOutcome(o', request);
  }
}

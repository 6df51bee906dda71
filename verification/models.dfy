/**
 * The request and the assessment context threaded through the pipeline
 * (src/agentic_env_ai/models.py). A stage record that Python keeps as an
 * empty dict until its stage runs is an `Option` here: `None` means the
 * stage has not written it yet.
 */
module Models {
  import opened Results

  /** A raw payload value: either one `float(v)` accepts, carrying the number
      it yields, or one `float(v)` rejects. */
  datatype RawValue = Numeric(number: real) | NotNumeric

  type Payload = map<string, RawValue>

  /** An assessment request; the timestamp and task tag are never read. */
  datatype Request = Request(siteId: string, sensorData: Payload)

  datatype WaterStatus = Normal | Attention {
    function Label(): string {
      match this
      case Normal => "normal"
      case Attention => "attention"
    }
  }

  /** The reasoning record; `explanation` is a key the evaluation tests for. */
  datatype ReasoningRecord = ReasoningRecord(
    airQualityScore: real,
    waterStatus: WaterStatus,
    explanation: Option<string>)

  datatype ToolOutputs = ToolOutputs(meanSensorValue: real, maxSensorValue: real)

  datatype MemoryRecord = MemoryRecord(historicalCount: nat, historicalMean: real)

  datatype EvaluationRecord = EvaluationRecord(
    retrievalAccuracy: real,
    reasoningConsistency: real,
    toolCorrectness: real,
    ece: real)

  /** The reliability status band. */
  datatype Band = High | Moderate | Low {
    function Label(): string {
      match this
      case High => "high"
      case Moderate => "moderate"
      case Low => "low"
    }
  }

  datatype ReliabilityRecord = ReliabilityRecord(endToEnd: real, status: Band)

  datatype Alert = Pm25Exceeded | PhOutOfRange {
    function Text(): string {
      match this
      case Pm25Exceeded => "PM2.5 exceeds governance threshold"
      case PhOutOfRange => "pH outside safe governance range"
    }
  }

  /** The strings the report carries tell the values apart: no two water
      statuses, bands or alerts print the same. */
  lemma LabelsIdentify()
    ensures forall a: WaterStatus, b: WaterStatus :: a.Label() == b.Label() ==> a == b
    ensures forall a: Band, b: Band :: a.Label() == b.Label() ==> a == b
    ensures forall a: Alert, b: Alert :: a.Text() == b.Text() ==> a == b
  {
  }

  datatype GovernanceRecord = GovernanceRecord(alerts: seq<Alert>, safeToPublish: bool)

  /** Free-form metadata; no stage ever writes any. */
  type Metadata = map<string, string>

  /** The report: one field per top-level key `site_id`, `summary`,
      `ingestion`, `tool_outputs`, `evaluation`, `reliability`,
      `governance`, `retrieval_evidence`, in that order. */
  datatype Report = Report(
    siteId: string,
    summary: Option<ReasoningRecord>,
    ingestion: Metadata,
    toolOutputs: Option<ToolOutputs>,
    evaluation: Option<EvaluationRecord>,
    reliability: Option<ReliabilityRecord>,
    governance: Option<GovernanceRecord>,
    retrievalEvidence: seq<string>)

  datatype Context = Context(
    request: Request,
    normalizedData: map<string, real>,
    ingestionMetadata: Metadata,
    retrievalChunks: seq<string>,
    reasoning: Option<ReasoningRecord>,
    toolOutputs: Option<ToolOutputs>,
    memory: Option<MemoryRecord>,
    evaluation: Option<EvaluationRecord>,
    reliability: Option<ReliabilityRecord>,
    governance: Option<GovernanceRecord>,
    report: Option<Report>)

  /** A fresh context: the request, and every other field empty. */
  function NewContext(request: Request): Context {
    Context(request, map[], map[], [], None, None, None, None, None, None, None)
  }

  /** The pipeline stages, one per agent, plus the final report assembly. */
  datatype Stage =
    | IngestionStage
    | RetrievalStage
    | ReasoningStage
    | ToolStage
    | MemoryStage
    | EvaluationStage
    | ReliabilityStage
    | GovernanceStage
    | ReportStage

  /** What a stage can raise. `Aborted` stands for the `KeyError` (or, for the
      tool stage, the `StatisticsError`) a stage raises when a field it reads
      has not been written. */
  datatype Failure =
    | MissingSensors(missing: set<string>)
    | InvalidSensorValue
    | Aborted(stage: Stage)
}

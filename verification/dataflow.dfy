/**
 * The data flow between the stages of src/agentic_env_ai/orchestrator.py:
 * which context fields each stage looks at and which one it writes. Every
 * stage reads only the request and fields written by stages before it in
 * the fixed order, and every field is written by at most one stage.
 */
module Dataflow {
  import opened Results
  import opened Models
  import Retrieval
  import Memory
  import opened Orchestration

  /** The fields of the assessment context. */
  datatype Field =
    | RequestField
    | NormalizedDataField
    | IngestionMetadataField
    | RetrievalChunksField
    | ReasoningField
    | ToolOutputsField
    | MemoryField
    | EvaluationField
    | ReliabilityField
    | GovernanceField
    | ReportField

  /** The one field a stage writes. */
  function Writes(stage: Stage): Field {
    match stage
    case IngestionStage => NormalizedDataField
    case RetrievalStage => RetrievalChunksField
    case ReasoningStage => ReasoningField
    case ToolStage => ToolOutputsField
    case MemoryStage => MemoryField
    case EvaluationStage => EvaluationField
    case ReliabilityStage => ReliabilityField
    case GovernanceStage => GovernanceField
    case ReportStage => ReportField
  }

  /** The fields a stage looks at (the corpus and the store aside). */
  function Reads(stage: Stage): set<Field> {
    match stage
    case IngestionStage => {RequestField}
    case RetrievalStage => {}
    case ReasoningStage => {NormalizedDataField}
    case ToolStage => {NormalizedDataField}
    case MemoryStage => {RequestField, ReasoningField}
    case EvaluationStage => {RetrievalChunksField, ReasoningField, ToolOutputsField}
    case ReliabilityStage => {EvaluationField}
    case GovernanceStage => {NormalizedDataField}
    case ReportStage =>
      {RequestField, ReasoningField, IngestionMetadataField, ToolOutputsField,
       EvaluationField, ReliabilityField, GovernanceField, RetrievalChunksField}
  }

  /** `c` and `d` hold the same value in every field of `fields`. */
  predicate Agree(fields: set<Field>, c: Context, d: Context) {
    && (RequestField in fields ==> c.request == d.request)
    && (NormalizedDataField in fields ==> c.normalizedData == d.normalizedData)
    && (IngestionMetadataField in fields ==> c.ingestionMetadata == d.ingestionMetadata)
    && (RetrievalChunksField in fields ==> c.retrievalChunks == d.retrievalChunks)
    && (ReasoningField in fields ==> c.reasoning == d.reasoning)
    && (ToolOutputsField in fields ==> c.toolOutputs == d.toolOutputs)
    && (MemoryField in fields ==> c.memory == d.memory)
    && (EvaluationField in fields ==> c.evaluation == d.evaluation)
    && (ReliabilityField in fields ==> c.reliability == d.reliability)
    && (GovernanceField in fields ==> c.governance == d.governance)
    && (ReportField in fields ==> c.report == d.report)
  }

  /** Every field of the context. */
  const AllFields: set<Field> := {
    RequestField, NormalizedDataField, IngestionMetadataField, RetrievalChunksField,
    ReasoningField, ToolOutputsField, MemoryField, EvaluationField, ReliabilityField,
    GovernanceField, ReportField}

  /** Agreeing on every field is being the same context. */
  lemma AgreeAllIsEquality(c: Context, d: Context)
    requires Agree(AllFields, c, d)
    ensures c == d
  {
  }

  /** A stage that succeeds leaves every field but its own as it was. */
  lemma StepWritesOnlyOwnField(stage: Stage, corpus: Retrieval.Corpus, store: Memory.Store, c: Context)
    ensures var r := Step(stage, corpus, store, c).1;
            r.Ok? ==> Agree(AllFields - {Writes(stage)}, c, r.value)
  {
  }

  /** A stage that succeeds is the identity but for its own field: if that
      field already held the value it writes, the context comes back as it
      was. */
  lemma StepOnlyReplacesOwnField(stage: Stage, corpus: Retrieval.Corpus, store: Memory.Store, c: Context)
    requires Step(stage, corpus, store, c).1.Ok?
    requires Agree({Writes(stage)}, c, Step(stage, corpus, store, c).1.value)
    ensures Step(stage, corpus, store, c).1.value == c
  {
    var d := Step(stage, corpus, store, c).1.value;
    StepWritesOnlyOwnField(stage, corpus, store, c);
    AgreeAllIsEquality(c, d);
  }

  /** Two contexts that agree on what a stage reads get the same outcome
      from it: the same store, the same failure or success, and on success
      the same value in the field it writes. */
  lemma StepReadsOnlyDeclared(stage: Stage, corpus: Retrieval.Corpus, store: Memory.Store, c: Context, d: Context)
    requires Agree(Reads(stage), c, d)
    ensures var (s, r) := Step(stage, corpus, store, c);
            var (s', r') := Step(stage, corpus, store, d);
            && s == s'
            && (r.Err? <==> r'.Err?)
            && (r.Err? ==> r.error == r'.error)
            && (r.Ok? ==> Agree({Writes(stage)}, r.value, r'.value))
  {
    if stage == ReportStage {
      assert Assemble(c) == Assemble(d);
    }
  }

  /** The fields written by the stages before position `i` of `Order`. */
  function WrittenBefore(i: nat): (fields: set<Field>)
    requires i <= |Order|
    ensures forall j :: 0 <= j < i ==> Writes(Order[j]) in fields
  {
    if i == 0 then {} else WrittenBefore(i - 1) + {Writes(Order[i - 1])}
  }

  /** Each stage of `Order` reads only the request and fields written before
      it; the ingestion metadata, which no stage writes, keeps its empty
      starting value. */
  lemma OrderReadsEarlierWrites(i: nat)
    requires i < |Order|
    ensures Reads(Order[i]) - {IngestionMetadataField} <= {RequestField} + WrittenBefore(i)
    ensures forall j :: 0 <= j < |Order| ==> Writes(Order[j]) != IngestionMetadataField
  {
  }

  /** No field is written twice in one run. */
  lemma WriteOnce(i: nat, j: nat)
    requires i < j < |Order|
    ensures Writes(Order[i]) != Writes(Order[j])
  {
  }
}

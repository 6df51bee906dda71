# Environmental assessment pipeline, in Dafny

This project models the core of `agentic_env_ai`, a sequential pipeline that
turns one site's raw sensor readings into an assessment report. The core has
eight agents (`src/agentic_env_ai/agents.py`) and an `Orchestrator`
(`src/agentic_env_ai/orchestrator.py`). The orchestrator builds a fresh
`AssessmentContext` for each request. It threads the context through the
agents in a fixed order:

ingestion → retrieval → reasoning → tool → memory → evaluation → reliability → governance

It then projects the context into a report of fixed shape. The memory
agent's per-site history of air-quality scores is the only state kept
between runs.

How the model represents the program:

- The context and every stage record are immutable datatypes (`models.dfy`).
  A record the program has not written yet, i.e. an empty dict, is `None`.
- Each agent is a total function from context to context (one module per
  agent).
- A lookup that would raise `KeyError` in Python becomes an `Aborted(stage)`
  failure. So do `mean` or `max` over an empty collection.
- Ingestion fails with `MissingSensors(missing)` or `InvalidSensorValue`.
- The orchestrator (`orchestrator.dfy`) is a fold over the constant stage
  order. The first failure stops the run, as an uncaught exception does.
- Python's `round(x, n)` is modelled exactly on reals (`rounding.dfy`). The
  value is scaled by 10^n, rounded to the nearest integer with ties going to
  the even one, and scaled back.

The pipeline is proved correct as a whole by an inductive invariant,
`Orchestration.Done(k, …)`. It states what holds once the first `k` stages
have run:

- each field written so far equals what its agent computes from the fields
  written before it;
- the store has gained the run's score once the memory stage has run.

One lemma per stage extends the invariant by one stage. `Completes` walks it
to the end of the order.

`dataflow.dfy` states the read/write discipline of the stages. It shows which
fields each stage reads and writes, that it writes nothing else, and that it
reads only fields written earlier. `scenarios.dfy` works the demo request
and a stress request through the model. It also works through a request that shows
the reliability boundary: the report can show an end-to-end value of 0.85
with a moderate status, because the status is banded before rounding.

## Model

| member | source | states |
|---|---|---|
| Rounding.Round | src/agentic_env_ai/agents.py:102-105 | `round(x, n)` moves a value by at most half a unit in the n-th decimal place |
| Rounding.RoundHalfEven | src/agentic_env_ai/agents.py:56 | the integer `round` picks is within one half of the value, and on an exact tie it is even |
| Rounding.RoundMonotone | src/agentic_env_ai/agents.py:70-71 | rounding to a number of places never reverses the order of two values |
| Rounding.RoundOnGrid | src/agentic_env_ai/agents.py:102-105 | a value with no more places than kept is left unchanged by `round`; this is why the metric constants 1.0, 0.6, 0.5, 0.0 survive rounding |
| DataIngestion.Normalize | src/agentic_env_ai/agents.py:19-28 | fails exactly when a required sensor is absent or a required value is not numeric; a missing sensor is reported first, naming exactly the absent required keys; on success the keys are exactly the five required sensors, each mapped to its coerced payload value |
| DataIngestion.NormalizeIgnoresExtraKeys | src/agentic_env_ai/agents.py:23-27 | payloads that agree on the five required sensors normalize alike, so extra keys never cause or prevent a failure and never reach the normalized data |
| DataIngestion.Run | src/agentic_env_ai/agents.py:21-29 | the stage succeeds exactly when normalization does, fails with its error, and writes only `normalized_data` |
| Retrieval.Lookup | src/agentic_env_ai/agents.py:39-44 | at most one chunk per query term; one chunk for every term exactly when every term is in the corpus; every chunk is a corpus entry |
| Retrieval.LookupSnoc | src/agentic_env_ai/agents.py:41-43 | one more query term appends that term's hit, if any, after the earlier chunks |
| Retrieval.Scan | src/agentic_env_ai/agents.py:40-44 | the agent's loop computes exactly `Lookup` |
| Retrieval.EvidenceOrder | src/agentic_env_ai/agents.py:39-44 | the evidence is the pm25, no2 and ph entries in that order, each only when present |
| Retrieval.Run | src/agentic_env_ai/agents.py:38-45 | never fails; writes only the chunks; at most three, and three exactly when all three topics are in the corpus |
| Reasoning.ScoreFor | src/agentic_env_ai/agents.py:53-56 | the air-quality score is never negative, at most 100 when the penalty is not negative, 0 for a penalty of 100 or more, and at least 100 for a non-positive penalty |
| Reasoning.ScoreNonIncreasing | src/agentic_env_ai/agents.py:53-56 | higher pm25 and no2 readings never raise the score |
| Reasoning.Penalty | src/agentic_env_ai/agents.py:53 | the pollution penalty is never negative for non-negative readings |
| Reasoning.AirQualityScore | src/agentic_env_ai/agents.py:53-56 | the score of two readings is never negative, at most 100 for non-negative readings, and exactly 100 when both readings are zero |
| Reasoning.Run | src/agentic_env_ai/agents.py:51-61 | fails exactly when pm25, no2 or ph is missing from the normalized data; otherwise writes only the reasoning record |
| Stats.MapMax | src/agentic_env_ai/agents.py:71 | the maximum of a non-empty dict's values is one of them and at least every one |
| Stats.MapSumRemove | src/agentic_env_ai/agents.py:70 | the sum of a dict's values does not depend on the order the keys are visited |
| Stats.MeanAtMostMax | src/agentic_env_ai/agents.py:70-71 | the mean of a non-empty dict's values never exceeds their maximum |
| Tool.Compute | src/agentic_env_ai/agents.py:68-72 | the rounded maximum is at least the rounded mean |
| Tool.MaxIsTopReading | src/agentic_env_ai/agents.py:71 | the reported maximum is the rounded value of some reading and no rounded reading exceeds it |
| Tool.Accumulate | src/agentic_env_ai/agents.py:68-71 | one pass over the readings yields their sum and their maximum |
| Tool.Scan | src/agentic_env_ai/agents.py:68-72 | the one-pass computation gives exactly the tool outputs |
| Tool.Run | src/agentic_env_ai/agents.py:67-73 | fails exactly on empty normalized data; otherwise writes only the tool outputs, whose maximum is at least their mean |
| Memory.Append | src/agentic_env_ai/agents.py:84 | the site's history gains exactly the new score at its end; the key set gains the site; every other site's history is unchanged |
| Stats.SeqMeanWithin | src/agentic_env_ai/agents.py:88 | the mean of a non-empty list lies within any lower and upper bound on its entries |
| Memory.MeanWithinScores | src/agentic_env_ai/agents.py:85-89 | the reported historical mean, after rounding to 3 places, stays within whole-number bounds on the scores, e.g. scores in 0..100 give a mean in 0..100 |
| Memory.MeanAfterAppend | src/agentic_env_ai/agents.py:84-88 | after an append the mean is the old sum plus the new score over one more entry |
| Memory.RunningMean | src/agentic_env_ai/agents.py:84-88 | the same as a running mean: the old mean weighted by the old count, plus the score, over the new count |
| Memory.Run | src/agentic_env_ai/agents.py:82-90 | fails exactly without a reasoning record, and then leaves the site's history as `setdefault` made it; otherwise the store gains one score for the site, the count is the old length plus one, the mean is over the whole new history, and only the memory record is written |
| Evaluation.Ece | src/agentic_env_ai/agents.py:100-105 | the calibration error is never negative |
| Evaluation.Assess | src/agentic_env_ai/agents.py:96-106 | each metric takes its high value exactly when its condition holds and its low value exactly otherwise; the calibration error is taken against the unrounded accuracy |
| Evaluation.EceAtMostTenth | src/agentic_env_ai/agents.py:100-105 | a score within 0..100 keeps the calibration error at most 0.1 |
| Evaluation.Run | src/agentic_env_ai/agents.py:96-107 | fails exactly when the tool outputs or the reasoning record are missing; otherwise writes only the evaluation record |
| Reliability.Weighted | src/agentic_env_ai/agents.py:115-120 | the weights add up to one: metrics in [0, 1] give a score in [0, 1], and perfect metrics give exactly 1 |
| Reliability.WeightedMonotone | src/agentic_env_ai/agents.py:115-120 | the weighted score is non-decreasing in the three metrics and non-increasing in the calibration error |
| Reliability.BandMonotone | src/agentic_env_ai/agents.py:123 | a higher score never gets a lower band |
| Reliability.Assess | src/agentic_env_ai/agents.py:114-124 | the status is banded from the unrounded score, the shown value is rounded to 4 places, and the two agree except on the grid point: a high status always shows at least 0.85 and a shown value above 0.85 is always high; a status above low always shows at least 0.7 and a shown value above 0.7 is never low |
| Reliability.BoundaryDisagreement | src/agentic_env_ai/agents.py:121-123 | the exception the `Assess` contract leaves open happens: a weighted score of 0.84996 is shown as 0.85 with a moderate status |
| Reliability.EndToEndMonotone | src/agentic_env_ai/agents.py:115-122 | better metrics never lower the rounded end-to-end value |
| Reliability.HighWhenCalibrated | src/agentic_env_ai/agents.py:115-123 | with consistent reasoning, correct tools and a calibration error of at most 0.3, the status is high whichever retrieval accuracy was reached |
| Reliability.Run | src/agentic_env_ai/agents.py:113-125 | fails exactly without an evaluation record; otherwise writes only the reliability record |
| Models.LabelsIdentify | src/agentic_env_ai/agents.py:57-136 | the emitted strings tell the values apart: "normal"/"attention", "high"/"moderate"/"low" and the two alert messages are pairwise distinct |
| Governance.Alerts | src/agentic_env_ai/agents.py:132-136 | the PM2.5 alert is present exactly when pm25 > 55; the pH alert exactly when ph < 6 or ph > 9; at most two, never repeated, PM2.5 first when both |
| Governance.Assess | src/agentic_env_ai/agents.py:137-140 | safe to publish exactly when pm25 <= 55 and 6 <= ph <= 9, that is, when there is no alert |
| Governance.Run | src/agentic_env_ai/agents.py:131-141 | fails exactly when pm25 or ph is missing; otherwise writes only the governance record |
| Orchestration.New | src/agentic_env_ai/orchestrator.py:22-30 | a new orchestrator keeps the corpus it is given and every site starts with an empty history |
| Orchestration.Step | src/agentic_env_ai/orchestrator.py:36-49 | only the memory stage touches the store, and no stage replaces the request |
| Orchestration.RunFrom | src/agentic_env_ai/orchestrator.py:36-49 | a run of stages keeps the request, and leaves the store alone unless the memory stage is among them |
| Orchestration.Run | src/agentic_env_ai/orchestrator.py:32-61 | `run` keeps the corpus, and a successful run's context is for the request given |
| Orchestration.Advance | src/agentic_env_ai/orchestrator.py:36-60 | once the stages before it have run, each stage in the fixed order succeeds and extends the invariant by its own field |
| Orchestration.Completes | src/agentic_env_ai/orchestrator.py:35-61 | a run that has got past any position completes every remaining stage |
| Orchestration.PipelineTrace | src/agentic_env_ai/orchestrator.py:32-61 | the run fails exactly when ingestion does, with ingestion's error and an untouched store; otherwise every stage's record holds what that stage computes |
| Orchestration.RunOutcome | src/agentic_env_ai/orchestrator.py:32-61 | `run` raises exactly when ingestion does, leaving the orchestrator unchanged; otherwise the corpus is kept and the whole invariant holds of the returned context and the new store |
| Orchestration.ReportContents | src/agentic_env_ai/orchestrator.py:51-60 | the report carries the request's site id, the reasoning record as summary, an empty ingestion map, the tool, evaluation, reliability and governance records, and the retrieved evidence; summary, evaluation, reliability and governance are always present |
| Orchestration.SummaryFromReadings | src/agentic_env_ai/agents.py:53-58 | stated on the request's own readings: the report's water status is normal exactly when the pH reading lies in 6.5..8.5, its score is never negative and at most 100 for non-negative pollutant readings, and an explanation is always given |
| Orchestration.HistoryStaysInRange | src/agentic_env_ai/agents.py:83-89 | scores in 0..100 are an invariant of a site's history under runs with non-negative pollutant readings, and the reported historical mean stays in 0..100 |
| Orchestration.EvaluationMarks | src/agentic_env_ai/agents.py:97-99 | after a successful ingestion, tool correctness and reasoning consistency are always 1.0; retrieval accuracy is 1.0 exactly when the corpus covers pm25, no2 and ph |
| Orchestration.HighAfterEvaluation | src/agentic_env_ai/agents.py:97-123 | consistent reasoning with a score in 0..100 and correct tool outputs are judged highly reliable, whatever was retrieved |
| Orchestration.ReliableWhenPenaltyNonNegative | src/agentic_env_ai/agents.py:100-123 | readings whose penalty is not negative always end with a high reliability status |
| Orchestration.HistoryGrowsByOne | src/agentic_env_ai/agents.py:83-89 | a successful run adds one score to its site's history, reports the new length as the count, and leaves every other site's history alone |
| Orchestration.TwoRunsSameSite | src/agentic_env_ai/orchestrator.py:32-44 | two successful runs in a row for one site report counts that differ by exactly one |
| Orchestration.ReportIgnoresHistory | src/agentic_env_ai/orchestrator.py:51-60 | the history never reaches the report: with the same corpus and request, any two stores give the same report |
| Dataflow.StepWritesOnlyOwnField | src/agentic_env_ai/orchestrator.py:36-60 | a stage that succeeds changes no context field but its own |
| Dataflow.StepOnlyReplacesOwnField | src/agentic_env_ai/orchestrator.py:36-49 | a stage that succeeds is the identity apart from its own field, given that the field list covers the whole context |
| Dataflow.StepReadsOnlyDeclared | src/agentic_env_ai/orchestrator.py:36-60 | two contexts that agree on the fields a stage reads get the same store, the same failure or success, and the same value in the field it writes |
| Dataflow.OrderReadsEarlierWrites | src/agentic_env_ai/orchestrator.py:33-60 | every stage reads only the request and fields written by earlier stages; the ingestion metadata is written by no stage |
| Dataflow.WriteOnce | src/agentic_env_ai/orchestrator.py:36-51 | no field is written by two stages |
| Scenarios.DemoRun | src/agentic_env_ai/demo.py:10-31 | the demo request scores 44.2 with normal water, cites the three guidelines in order, and is safe to publish |
| Scenarios.DemoReliable | src/agentic_env_ai/demo.py:17-31 | the demo request reaches an end-to-end reliability of 0.9944, status high |
| Scenarios.StressReportText | src/agentic_env_ai/agents.py:132-136 | the stress report carries the alert messages "PM2.5 exceeds governance threshold" then "pH outside safe governance range", and water status "attention" |
| Scenarios.BoundaryRun | src/agentic_env_ai/agents.py:97-123 | a whole run reaches the boundary case: pm25 = -217 and no2 = 0 against a corpus without the pH guideline report an end-to-end value of 0.85 with a moderate status |
| Scenarios.StressRun | src/agentic_env_ai/evaluate.py:14-22 | the SITE-002 stress payload, which carries a non-numeric `site_id` entry, still runs; it scores 11.8, needs attention for water, and raises both alerts, PM2.5 first, so it may not be published |

## Left out

- Floating point. The model computes on exact reals. IEEE-754 representation effects are not modelled, for example `round(2.675, 2) == 2.67`.
- Rounding.Round: the number of places is limited to 0..4. The program only rounds to 2, 3 or 4 places.
- `float(v)` coercion is abstracted. A payload value is either a finite number (`Numeric`) or something `float` rejects (`NotNumeric`).
- Non-finite readings are not modelled. `float` also accepts `"nan"`, `"inf"` and `"1e999"`, which give NaN or an infinity, and every comparison with NaN is false. So a NaN pH passes governance as safe to publish, and a NaN reading can make tool correctness 0.0. `Governance.Assess`, `Orchestration.EvaluationMarks`, `Orchestration.ReliableWhenPenaltyNonNegative` and the other lemmas hold for finite readings only.
- Failures carry a kind, not text. Ingestion errors are `MissingSensors(missing)` and `InvalidSensorValue`. The exception message text is not modelled.
- Other Python exceptions are not distinguished. A `KeyError` or an empty `mean`/`max` is `Aborted(stage)`, without the exception class.
- The request's `timestamp` and `task` fields are not modelled. No stage reads them.
- `Orchestrator.to_dict` is left out. It is `dataclasses.asdict` reflection.
- The `demo.py` and `evaluate.py` drivers are left out. They write JSON files and read the clock. Their corpus and payloads appear only as concrete inputs in `Scenarios`.
- Ghost members. The mean and maximum over the normalized dict are defined by choosing keys in any order, so `Tool.Compute`, `Tool.Run`, `Orchestration.Step` and `Orchestration.Run` are ghost. `Tool.Scan` is the compiled one-pass counterpart.
- The memory record is computed but never reported. It is modelled as part of the context and the store.
- Concurrency is not modelled. The program is single-threaded and creates no threads.
- `ingestion_metadata` is never written, so the report's `ingestion` entry is always empty.

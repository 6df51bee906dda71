/**
 * MemoryAgent (src/agentic_env_ai/agents.py): the per-site, append-only
 * history of air-quality scores, the only state kept between runs.
 */
module Memory {
  import opened Results
  import opened Rounding
  import opened Stats
  import opened Models

  /** The agent's store: site id to the scores recorded for it, oldest first. */
  type Store = map<string, seq<real>>

  /** The history of a site; a site never seen has an empty one. */
  function History(store: Store, site: string): seq<real> {
    if site in store then store[site] else []
  }

  /** `setdefault(site, []).append(score)`: one score more for `site`,
      every other site untouched. */
  function Append(store: Store, site: string, score: real): (s: Store)
    ensures s.Keys == store.Keys + {site}
    ensures History(s, site) == History(store, site) + [score]
    ensures forall other :: other != site ==> History(s, other) == History(store, other)
  {
    store[site := History(store, site) + [score]]
  }

  /** The count and the mean (to 3 places) of a non-empty history. */
  function Summarize(history: seq<real>): MemoryRecord
    requires |history| > 0
  {
    MemoryRecord(|history|, Round(SeqMean(history), 3))
  }

  /** The reported mean stays within whole-number bounds on the scores:
      scores between 0 and 100 give a historical mean between 0 and 100. */
  lemma MeanWithinScores(history: seq<real>, lo: int, hi: int)
    requires |history| > 0
    requires forall i :: 0 <= i < |history| ==> lo as real <= history[i] <= hi as real
    ensures lo as real <= Summarize(history).historicalMean <= hi as real
  {
    var mean := SeqMean(history);
    SeqMeanWithin(history, lo as real, hi as real);
    RoundMonotone(lo as real, mean, 3);
    RoundMonotone(mean, hi as real, 3);
    RoundOnGrid(lo * 1000, 3);
    RoundOnGrid(hi * 1000, 3);
    assert (lo * 1000) as real / 1000.0 == lo as real;
    assert (hi * 1000) as real / 1000.0 == hi as real;
  }

  /** The new mean after one more score: the old sum plus the new score,
      over one more entry. */
  lemma {:induction false} MeanAfterAppend(history: seq<real>, score: real)
    ensures SeqMean(history + [score]) == (SeqSum(history) + score) / (|history| + 1) as real
  {
    var longer := history + [score];
    SeqSumSnoc(history, score);
    SameQuotient(SeqSum(longer), |longer| as real, SeqSum(history) + score, (|history| + 1) as real);
  }

  lemma SameQuotient(a: real, b: real, a': real, b': real)
    requires a == a' && b == b' && b != 0.0
    ensures a / b == a' / b'
  {
  }

  /** The same, as a running mean: the old mean weighted by the old count. */
  lemma {:induction false} RunningMean(history: seq<real>, score: real)
    requires |history| > 0
    ensures SeqMean(history + [score])
         == (|history| as real * SeqMean(history) + score) / (|history| + 1) as real
  {
    MeanAfterAppend(history, score);
    ScaleMean(SeqSum(history), |history| as real);
  }

  lemma ScaleMean(sum: real, n: real)
    requires n > 0.0
    ensures n * (sum / n) == sum
  {
  }

  /** The memory stage. Python evaluates `setdefault` before it looks the
      score up, so a run without a reasoning record leaves an empty history
      for the site behind before it raises. */
  function Run(store: Store, c: Context): (r: (Store, Result<Context, Failure>))
    ensures r.1.Err? <==> c.reasoning.None?
    ensures r.1.Err? ==> r.1.error == Aborted(MemoryStage)
    ensures r.1.Err? ==> r.0 == store[c.request.siteId := History(store, c.request.siteId)]
    ensures r.1.Ok? ==> r.0 == Append(store, c.request.siteId, c.reasoning.value.airQualityScore)
    ensures r.1.Ok? ==> r.1.value.(memory := c.memory) == c
    ensures r.1.Ok? ==> r.1.value.memory.Some?
    ensures r.1.Ok? ==> r.1.value.memory.value.historicalCount == |History(store, c.request.siteId)| + 1
    ensures r.1.Ok? ==> r.1.value.memory.value.historicalMean == Round(SeqMean(History(r.0, c.request.siteId)), 3)
  {
    var site := c.request.siteId;
    match c.reasoning
    case None => (store[site := History(store, site)], Err(Aborted(MemoryStage)))
    case Some(reasoning) =>
      var s := Append(store, site, reasoning.airQualityScore);
      (s, Ok(c.(memory := Some(Summarize(History(s, site))))))
  }
}

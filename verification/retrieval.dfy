/**
 * RetrievalAgent (src/agentic_env_ai/agents.py): looks the fixed topics up,
 * in order, in a read-only corpus and keeps the texts of those present.
 */
module Retrieval {
  import opened Models

  type Corpus = map<string, string>

  const QueryTerms: seq<string> := ["pm25", "no2", "ph"]

  /** The corpus text for `term`, if there is one. */
  function Hit(corpus: Corpus, term: string): seq<string> {
    if term in corpus then [corpus[term]] else []
  }

  /** The texts of the `terms` found in the corpus, in the order of `terms`. */
  function Lookup(terms: seq<string>, corpus: Corpus): (chunks: seq<string>)
    ensures |chunks| <= |terms|
    ensures |chunks| == |terms| <==> forall i :: 0 <= i < |terms| ==> terms[i] in corpus
    ensures forall i :: 0 <= i < |chunks| ==> chunks[i] in corpus.Values
  {
    if terms == [] then []
    else
      var rest := Lookup(terms[1..], corpus);
      assert forall i :: 1 <= i < |terms| ==> terms[i] == terms[1..][i - 1];
      Hit(corpus, terms[0]) + rest
  }

  lemma {:induction false} LookupSnoc(terms: seq<string>, t: string, corpus: Corpus)
    ensures Lookup(terms + [t], corpus) == Lookup(terms, corpus) + Hit(corpus, t)
  {
    if terms != [] {
      assert (terms + [t])[1..] == terms[1..] + [t];
      LookupSnoc(terms[1..], t, corpus);
    } else {
      assert [t][1..] == [];
    }
  }

  /** The agent's loop: scan the terms, appending each hit. */
  method Scan(terms: seq<string>, corpus: Corpus) returns (chunks: seq<string>)
    ensures chunks == Lookup(terms, corpus)
  {
    chunks := [];
    var i := 0;
    while i < |terms|
      invariant 0 <= i <= |terms|
      invariant chunks == Lookup(terms[..i], corpus)
    {
      if terms[i] in corpus {
        chunks := chunks + [corpus[terms[i]]];
      }
      LookupSnoc(terms[..i], terms[i], corpus);
      assert terms[..i + 1] == terms[..i] + [terms[i]];
      i := i + 1;
    }
    assert terms[..i] == terms;
  }

  /** The evidence is the corpus texts for pm25, no2 and ph, in that order,
      each one skipped when its topic is absent. */
  lemma EvidenceOrder(corpus: Corpus)
    ensures Lookup(QueryTerms, corpus)
         == Hit(corpus, "pm25") + Hit(corpus, "no2") + Hit(corpus, "ph")
  {
    assert QueryTerms[1..] == ["no2", "ph"];
    assert ["no2", "ph"][1..] == ["ph"];
    assert ["ph"][1..] == [];
    assert Lookup(["ph"], corpus) == Hit(corpus, "ph") + Lookup([], corpus);
    assert Lookup(["no2", "ph"], corpus) == Hit(corpus, "no2") + Lookup(["ph"], corpus);
  }

  /** The retrieval stage: never fails, writes `retrievalChunks` only. */
  function Run(corpus: Corpus, c: Context): (r: Context)
    ensures r.(retrievalChunks := c.retrievalChunks) == c
    ensures |r.retrievalChunks| <= 3
    ensures |r.retrievalChunks| == 3 <==> "pm25" in corpus && "no2" in corpus && "ph" in corpus
  {
    EvidenceOrder(corpus);
    c.(retrievalChunks := Lookup(QueryTerms, corpus))
  }
}

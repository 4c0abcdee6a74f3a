/**
 * contextual-rag/src/search.ts: run the vector and full-text searches, fuse
 * them, let the reranker score the fused candidates, keep the confident ones,
 * and fill in each kept chunk's text. The reranker, the sigmoid and the
 * query-rewriting model are oracles passed in as functions.
 */
module Search {

  import opened Wrappers
  import opened Js
  import opened Grouping
  import opened Sequences
  import opened Db
  import opened Utils
  import opened Vectorize

  /** What the reranker is shown for one candidate. */
  datatype Context = Context(id: string, text: string)

  /** One reranker answer: the candidate's position in the contexts, and a raw score. */
  datatype Ranked = Ranked(id: int, score: real)

  /** A kept candidate: its position and its confidence `sigmoid(score)`. */
  datatype Confidence = Confidence(id: int, score: real)

  /** A chunk handed back to the caller. */
  datatype Chunk = Chunk(text: string, id: string, docId: string, score: real)

  /** `mergedResults.map(r => ({ id: r.id, text: r.text }))`. */
  function Contexts(merged: seq<Fused>): (cs: seq<Context>)
    ensures |cs| == |merged|
    ensures forall i :: 0 <= i < |merged| ==> cs[i].id == merged[i].id && cs[i].text == merged[i].text
  {
    seq(|merged|, i requires 0 <= i < |merged| => Context(merged[i].id, merged[i].text))
  }

  /** `response.map((i, index) => ({ id: i.id, score: sigmoid(scores[index]) }))`. */
  function Confidences(response: seq<Ranked>, sigmoid: real -> real): (cs: seq<Confidence>)
    ensures |cs| == |response|
    ensures forall i :: 0 <= i < |response| ==> cs[i].id == response[i].id && cs[i].score == sigmoid(response[i].score)
  {
    seq(|response|, i requires 0 <= i < |response| => Confidence(response[i].id, sigmoid(response[i].score)))
  }

  /** `scoreThreshold && scoreThreshold > 0`: absent, NaN and non-positive thresholds are off. */
  predicate ThresholdOn(threshold: Option<real>) {
    threshold.Some? && threshold.value > 0.0
  }

  /** `topK && topK > 0`. */
  predicate TopKOn(topK: Option<int>) {
    topK.Some? && topK.value > 0
  }

  /** `i => i.score >= scoreThreshold` */
  function Reaches(threshold: real): Confidence -> bool {
    (c: Confidence) => c.score >= threshold
  }

  /** The confidences that reach the threshold, in their order; all of them when the threshold is off. */
  function ApplyThreshold(cs: seq<Confidence>, threshold: Option<real>): (r: seq<Confidence>)
    ensures !ThresholdOn(threshold) ==> r == cs
    ensures ThresholdOn(threshold) ==> r == Filter(cs, Reaches(threshold.value))
    ensures ThresholdOn(threshold) ==>
      (forall i :: 0 <= i < |r| ==> r[i] in cs && r[i].score >= threshold.value) &&
      (forall i :: 0 <= i < |cs| && cs[i].score >= threshold.value ==> cs[i] in r)
  {
    if ThresholdOn(threshold) then Filter(cs, Reaches(threshold.value)) else cs
  }

  /** The thresholded list keeps its order. */
  lemma ApplyThresholdOrder(cs: seq<Confidence>, threshold: Option<real>)
    ensures IsSubsequence(ApplyThreshold(cs, threshold), cs)
  {
    if ThresholdOn(threshold) {
      FilterSubsequence(cs, Reaches(threshold.value));
    } else {
      FilterSubsequence(cs, (c: Confidence) => true);
      FilterAll(cs, (c: Confidence) => true);
    }
  }

  /** `indices.slice(0, topK)` when `topK` is on: the first `min(topK, n)` entries; otherwise everything. */
  function ApplyTopK(cs: seq<Confidence>, topK: Option<int>): (r: seq<Confidence>)
    ensures |r| <= |cs| && r == cs[..|r|]
    ensures TopKOn(topK) ==> |r| == Min(topK.value, |cs|)
    ensures !TopKOn(topK) ==> |r| == |cs|
  {
    if TopKOn(topK) && topK.value < |cs| then cs[..topK.value] else cs
  }

  /** The confidences that survive the threshold and the top-K cut. */
  function Kept(response: seq<Ranked>, sigmoid: real -> real, threshold: Option<real>, topK: Option<int>): seq<Confidence> {
    ApplyTopK(ApplyThreshold(Confidences(response, sigmoid), threshold), topK)
  }

  /** Every kept confidence reaches an active threshold, and at most `topK` are kept. */
  lemma KeptBounds(response: seq<Ranked>, sigmoid: real -> real, threshold: Option<real>, topK: Option<int>)
    ensures var kept := Kept(response, sigmoid, threshold, topK);
      (ThresholdOn(threshold) ==> forall i :: 0 <= i < |kept| ==> kept[i].score >= threshold.value) &&
      (TopKOn(topK) ==> |kept| <= topK.value) &&
      |kept| <= |response|
  {
    var th := ApplyThreshold(Confidences(response, sigmoid), threshold);
    var kept := Kept(response, sigmoid, threshold, topK);
    forall i | 0 <= i < |kept| ensures kept[i] == th[i] {
    }
  }

  /** The confidences 0.9, 0.6, 0.5, 0.3 with threshold 0.501 and top 2 leave 0.9 and 0.6. */
  lemma KeptExample(response: seq<Ranked>, sigmoid: real -> real)
    requires |response| == 4
    requires sigmoid(response[0].score) == 0.9 && sigmoid(response[1].score) == 0.6
    requires sigmoid(response[2].score) == 0.5 && sigmoid(response[3].score) == 0.3
    ensures var kept := Kept(response, sigmoid, Some(0.501), Some(2));
      |kept| == 2 && kept[0] == Confidence(response[0].id, 0.9) && kept[1] == Confidence(response[1].id, 0.6)
  {
    var cs := Confidences(response, sigmoid);
    var p := Reaches(0.501);
    assert cs == [cs[0], cs[1], cs[2], cs[3]];
    assert [cs[0], cs[1], cs[2], cs[3]][..3] == [cs[0], cs[1], cs[2]];
    assert [cs[0], cs[1], cs[2]][..2] == [cs[0], cs[1]];
    assert [cs[0], cs[1]][..1] == [cs[0]];
    assert [cs[0]][..0] == [];
    assert Filter([cs[0]], p) == [cs[0]];
    assert Filter([cs[0], cs[1]], p) == [cs[0], cs[1]];
    assert Filter([cs[0], cs[1], cs[2]], p) == [cs[0], cs[1]];
    assert Filter(cs, p) == [cs[0], cs[1]];
  }

  /** `result.text || (await getChunk(...))?.text || ""`. */
  function TextFallback(inline: string, stored: Option<ChunkRow>): (text: string)
    ensures inline != "" ==> text == inline
    ensures inline == "" && stored.Some? ==> text == stored.value.text
    ensures text != "" <==> inline != "" || (stored.Some? && stored.value.text != "")
  {
    if inline != "" then inline
    else if stored.Some? && stored.value.text != "" then stored.value.text
    else ""
  }

  /** The chunk built for the `i`-th kept confidence: the candidate it points at, with that confidence as its score. */
  function Answer(merged: seq<Fused>, c: Confidence, stored: map<string, ChunkRow>): Chunk
    requires 0 <= c.id < |merged|
  {
    var f := merged[c.id];
    Chunk(TextFallback(f.text, GetChunk(stored, f.docId, f.id)), f.id, f.docId, c.score)
  }

  predicate AllInRange(kept: seq<Confidence>, n: nat) {
    forall i :: 0 <= i < |kept| ==> 0 <= kept[i].id < n
  }

  /** The chunks built for the kept confidences, in kept order. */
  function Answers(merged: seq<Fused>, kept: seq<Confidence>, stored: map<string, ChunkRow>): (r: seq<Chunk>)
    requires AllInRange(kept, |merged|)
    ensures |r| == |kept|
    ensures forall i :: 0 <= i < |kept| ==>
      r[i].score == kept[i].score && r[i].id == merged[kept[i].id].id && r[i].docId == merged[kept[i].id].docId
  {
    seq(|kept|, i requires 0 <= i < |kept| => Answer(merged, kept[i], stored))
  }

  /** `arrival` lists, in completion order, which of the `n` lookups reached `chunks.push`. */
  predicate IsArrivalOrder(arrival: seq<nat>, n: nat) {
    |arrival| == n && (forall k :: 0 <= k < n ==> arrival[k] < n) && (forall i :: 0 <= i < n ==> i in arrival)
  }

  /**
   * `processSearchResults`. An empty candidate list returns at once and the
   * reranker is never asked (`request` is `None`). Otherwise the reranker
   * sees every candidate, its scores go through `sigmoid`, the threshold and
   * top-K cuts apply, each kept position is looked up, and each lookup pushes
   * its chunk when it completes, in `arrival` order.
   */
  method ProcessSearchResults(merged: seq<Fused>, query: string, threshold: Option<real>, topK: Option<int>,
                              rerank: (string, seq<Context>) -> seq<Ranked>, sigmoid: real -> real,
                              stored: map<string, ChunkRow>, arrival: seq<nat>)
    returns (request: Option<seq<Context>>, chunks: seq<Chunk>)
    requires merged != [] ==> AllInRange(Kept(rerank(query, Contexts(merged)), sigmoid, threshold, topK), |merged|)
    requires merged != [] ==> IsArrivalOrder(arrival, |Kept(rerank(query, Contexts(merged)), sigmoid, threshold, topK)|)
    ensures merged == [] ==> request == None && chunks == []
    ensures merged != [] ==> request == Some(Contexts(merged))
    ensures merged != [] ==>
      var answers := Answers(merged, Kept(rerank(query, Contexts(merged)), sigmoid, threshold, topK), stored);
      |chunks| == |answers| &&
      (forall k :: 0 <= k < |chunks| ==> chunks[k] == answers[arrival[k]]) &&
      (forall i :: 0 <= i < |answers| ==> answers[i] in chunks)
  {
    if |merged| == 0 {
      return None, [];
    }
    var contexts := Contexts(merged);
    request := Some(contexts);
    var response := rerank(query, contexts);
    var indices := KeepConfident(response, sigmoid, threshold, topK);
    var answers := Collect(merged, indices, stored);
    chunks := PushOnArrival(answers, arrival);
  }

  /** `indices`, reassigned by the threshold and top-K steps when they are on. */
  method KeepConfident(response: seq<Ranked>, sigmoid: real -> real, threshold: Option<real>, topK: Option<int>)
    returns (indices: seq<Confidence>)
    ensures indices == Kept(response, sigmoid, threshold, topK)
  {
    indices := Confidences(response, sigmoid);
    if ThresholdOn(threshold) {
      indices := Filter(indices, Reaches(threshold.value));
    }
    if TopKOn(topK) {
      indices := indices[..Min(topK.value, |indices|)];
    }
  }

  /** `reorderArray(mergedResults, ids)` with each kept confidence as the score, then the text lookup. */
  method Collect(merged: seq<Fused>, indices: seq<Confidence>, stored: map<string, ChunkRow>) returns (answers: seq<Chunk>)
    requires AllInRange(indices, |merged|)
    ensures answers == Answers(merged, indices, stored)
  {
    var positions := seq(|indices|, i requires 0 <= i < |indices| => indices[i].id);
    var picked := ReorderRerankedArray(merged, positions);
    answers := [];
    for i := 0 to |picked|
      invariant |answers| == i
      invariant forall j :: 0 <= j < i ==> answers[j] == Answer(merged, indices[j], stored)
    {
      var f := picked[i].value;
      answers := answers + [Chunk(TextFallback(f.text, GetChunk(stored, f.docId, f.id)), f.id, f.docId, indices[i].score)];
    }
  }

  /** Each lookup pushes its chunk as it completes. */
  method PushOnArrival(answers: seq<Chunk>, arrival: seq<nat>) returns (chunks: seq<Chunk>)
    requires IsArrivalOrder(arrival, |answers|)
    ensures |chunks| == |answers|
    ensures forall k :: 0 <= k < |chunks| ==> chunks[k] == answers[arrival[k]]
    ensures forall i :: 0 <= i < |answers| ==> answers[i] in chunks
  {
    chunks := [];
    for k := 0 to |arrival|
      invariant |chunks| == k
      invariant forall j :: 0 <= j < k ==> chunks[j] == answers[arrival[j]]
    {
      chunks := chunks + [answers[arrival[k]]];
    }
    forall i | 0 <= i < |answers| ensures answers[i] in chunks {
      assert i in arrival;
      var k :| 0 <= k < |arrival| && arrival[k] == i;
      assert chunks[k] == answers[i];
    }
  }

  /** What the query rewriter hands back. */
  datatype Rewrite = Rewrite(keywords: seq<string>, queries: seq<string>)

  /** `rewriteToQueries`: the model's object, or on failure (`None`) the prompt itself as the only query and no keywords. */
  function RewriteToQueries(prompt: string, generated: Option<Rewrite>): (r: Rewrite)
    ensures generated.None? ==> r.queries == [prompt] && r.keywords == []
    ensures generated.Some? ==> r == generated.value
  {
    if generated.Some? then generated.value else Rewrite([], [prompt])
  }

  /** `DocSearchParams`. */
  datatype DocSearchParams = DocSearchParams(query: string, questions: seq<string>, keywords: seq<string>,
                                             scoreThreshold: Option<real>, topK: Option<int>, timeframe: Option<Timeframe>)

  /** The outside services a search consults. */
  datatype Services = Services(
    embedQuery: string -> seq<real>,
    vectorSearch: (seq<real>, QueryOptions) -> seq<VectorMatch>,
    lexical: LexQuery -> seq<ChunkSearch>,
    rerank: (string, seq<Context>) -> seq<Ranked>,
    sigmoid: real -> real)

  /** `sql.map(item => ({ id, text, docId: item.doc_id, rank }))`. */
  function SqlMatches(rows: seq<ChunkSearch>): (ms: seq<DocMatch>)
    ensures |ms| == |rows|
    ensures forall i :: 0 <= i < |rows| ==>
      ms[i].id == rows[i].id && ms[i].docId == rows[i].doc_id && ms[i].text == rows[i].text && ms[i].rank == rows[i].rank
  {
    seq(|rows|, i requires 0 <= i < |rows| => DocMatch(rows[i].id, rows[i].doc_id, rows[i].text, rows[i].rank))
  }

  /** The vector index's answers, one list per question. */
  function VectorResults(params: DocSearchParams, services: Services): seq<seq<VectorMatch>> {
    var options := QueryOptions(VectorTopK, false, "all", TimestampFilter(params.timeframe));
    seq(|params.questions|, i requires 0 <= i < |params.questions| =>
      services.vectorSearch(services.embedQuery(params.questions[i]), options))
  }

  /** The fused candidates a search reranks. */
  function Merged(params: DocSearchParams, services: Services): seq<Fused> {
    Fusion(SqlMatches(SearchChunks(params.keywords, params.timeframe, DefaultLimit, services.lexical)),
           VectorResults(params, services))
  }

  /** The confidences a search keeps. */
  function SearchKept(params: DocSearchParams, services: Services): seq<Confidence> {
    var merged := Merged(params, services);
    Kept(services.rerank(params.query, Contexts(merged)), services.sigmoid, params.scoreThreshold, params.topK)
  }

  /** What the services must satisfy for a search: the reranker's ids are in range, and `arrival` orders the kept chunks. */
  ghost predicate SearchReady(params: DocSearchParams, services: Services, arrival: seq<nat>) {
    Merged(params, services) != [] ==>
      AllInRange(SearchKept(params, services), |Merged(params, services)|) &&
      IsArrivalOrder(arrival, |SearchKept(params, services)|)
  }

  /**
   * What a search returns: nothing when neither search matched; otherwise the
   * chunk of every kept confidence, each once, in the order the chunks arrived.
   */
  ghost predicate SearchReturns(params: DocSearchParams, services: Services, stored: map<string, ChunkRow>,
                                arrival: seq<nat>, chunks: seq<Chunk>) {
    if Merged(params, services) == [] then chunks == []
    else
      AllInRange(SearchKept(params, services), |Merged(params, services)|) &&
      var answers := Answers(Merged(params, services), SearchKept(params, services), stored);
      IsArrivalOrder(arrival, |answers|) &&
      |chunks| == |answers| &&
      (forall k :: 0 <= k < |chunks| ==> chunks[k] == answers[arrival[k]]) &&
      (forall i :: 0 <= i < |answers| ==> answers[i] in chunks)
  }

  /** `searchDocs`: both searches, the fusion, then `processSearchResults`. */
  method SearchDocs(params: DocSearchParams, services: Services, stored: map<string, ChunkRow>, arrival: seq<nat>)
    returns (chunks: seq<Chunk>)
    requires SearchReady(params, services, arrival)
    ensures Merged(params, services) == [] ==> chunks == []
    ensures Merged(params, services) != [] ==>
      var answers := Answers(Merged(params, services), SearchKept(params, services), stored);
      |chunks| == |answers| &&
      (forall k :: 0 <= k < |chunks| ==> chunks[k] == answers[arrival[k]]) &&
      (forall i :: 0 <= i < |answers| ==> answers[i] in chunks)
  {
    var filter, vectors := QueryChunkVectors(params.questions, params.timeframe, services.embedQuery, services.vectorSearch);
    assert vectors == VectorResults(params, services);
    var sql := SearchChunks(params.keywords, params.timeframe, DefaultLimit, services.lexical);
    var merged := PerformReciprocalRankFusion(SqlMatches(sql), vectors);
    var request;
    request, chunks := ProcessSearchResults(merged, params.query, params.scoreThreshold, params.topK,
                                            services.rerank, services.sigmoid, stored, arrival);
  }

  /** Every chunk a search returns carries a kept confidence: at least an active threshold, and at most `topK` of them. */
  lemma SearchDocsBounds(params: DocSearchParams, services: Services, stored: map<string, ChunkRow>)
    requires AllInRange(SearchKept(params, services), |Merged(params, services)|)
    ensures var answers := Answers(Merged(params, services), SearchKept(params, services), stored);
      (ThresholdOn(params.scoreThreshold) ==> forall i :: 0 <= i < |answers| ==> answers[i].score >= params.scoreThreshold.value) &&
      (TopKOn(params.topK) ==> |answers| <= params.topK.value)
  {
    var merged := Merged(params, services);
    KeptBounds(services.rerank(params.query, Contexts(merged)), services.sigmoid, params.scoreThreshold, params.topK);
  }
}

/**
 * The two routes of contextual-rag/src/index.ts. `POST /` stores a document,
 * splits and situates its chunks and indexes them; `POST /query` rewrites the
 * prompt, searches, reduces the chunks to one best score per document and
 * returns the documents best first. The text splitter and the answering
 * model are oracles passed in as functions.
 */
module Handlers {

  import opened Wrappers
  import opened Js
  import opened Grouping
  import opened Sequences
  import opened Sorting
  import opened Schemas
  import opened Db
  import opened Vectorize
  import opened Search

  // ------------------------------------------------------- getUniqueListBy

  /** `s.find(p)`: the first element that passes, or undefined. */
  function Find<T>(s: seq<T>, p: T -> bool): (r: Option<T>)
    ensures r.Some? <==> exists i :: 0 <= i < |s| && p(s[i])
    ensures r.Some? ==> p(r.value) && exists i :: 0 <= i < |s| && s[i] == r.value && forall j :: 0 <= j < i ==> !p(s[j])
  {
    if s == [] then None
    else if p(s[0]) then Some(s[0])
    else
      var r := Find(s[1..], p);
      assert forall i :: 1 <= i < |s| ==> s[i] == s[1..][i - 1];
      if r.Some? then
        assert exists i :: 0 <= i < |s| && s[i] == r.value && forall j :: 0 <= j < i ==> !p(s[j]) by {
          var i :| 0 <= i < |s[1..]| && s[1..][i] == r.value && forall j :: 0 <= j < i ==> !p(s[1..][j]);
          assert s[i + 1] == r.value;
          assert forall j :: 0 <= j < i + 1 ==> !p(s[j]) by {
            forall j | 0 <= j < i + 1 ensures !p(s[j]) {
              if j > 0 { assert s[j] == s[1..][j - 1]; }
            }
          }
        }
        r
      else r
  }

  /** The first element of each key, in the order the keys first appear. */
  function UniqueBy<T>(s: seq<T>, key: T -> string): (r: seq<T>)
    ensures |r| <= |s|
    ensures forall k :: HasKey(r, key, k) <==> HasKey(s, key, k)
    ensures DistinctBy(r, key)
    ensures forall i :: 0 <= i < |r| ==> r[i] in s
  {
    if s == [] then []
    else
      var init := s[..|s| - 1];
      var x := s[|s| - 1];
      var p := UniqueBy(init, key);
      assert s == init + [x];
      forall k ensures HasKey(s, key, k) <==> HasKey(init, key, k) || key(x) == k {
        AppendKeys(init, x, key, k);
      }
      if HasKey(p, key, key(x)) then p
      else
        forall k ensures HasKey(p + [x], key, k) <==> HasKey(p, key, k) || key(x) == k {
          AppendKeys(p, x, key, k);
        }
        assert forall i :: 0 <= i < |p| ==> key(p[i]) != key(x);
        p + [x]
  }

  /** `getUniqueListBy(arr, key)`: push each element whose key is not yet in the result. */
  method GetUniqueListBy<T>(arr: seq<T>, key: T -> string) returns (result: seq<T>)
    ensures result == UniqueBy(arr, key)
  {
    result := [];
    for i := 0 to |arr|
      invariant result == UniqueBy(arr[..i], key)
    {
      var elt := arr[i];
      var found := Find(result, t => key(t) == key(elt));
      assert found.Some? <==> HasKey(result, key, key(elt));
      if found.None? {
        result := result + [elt];
      }
      assert arr[..i + 1] == arr[..i] + [elt];
    }
    assert arr[..|arr|] == arr;
  }

  /** Each element kept is the first of its key in the input. */
  lemma {:induction false} UniqueByFirst<T>(s: seq<T>, key: T -> string)
    ensures forall i :: 0 <= i < |UniqueBy(s, key)| ==>
      HasKey(s, key, key(UniqueBy(s, key)[i])) && UniqueBy(s, key)[i] == FirstWith(s, key, key(UniqueBy(s, key)[i]))
  {
    if s != [] {
      var init := s[..|s| - 1];
      var x := s[|s| - 1];
      var p := UniqueBy(init, key);
      var r := UniqueBy(s, key);
      UniqueByFirst(init, key);
      assert s == init + [x];
      forall i | 0 <= i < |r| ensures HasKey(s, key, key(r[i])) && r[i] == FirstWith(s, key, key(r[i])) {
        var k := key(r[i]);
        AppendFirstLast(init, x, key, k);
        if i < |p| {
          assert r[i] == p[i];
        } else {
          // the one new element: its key was not in the prefix
          assert r[i] == x && !HasKey(p, key, k);
        }
      }
    }
  }

  /** The kept elements appear in their input order. */
  lemma {:induction false} UniqueByOrder<T>(s: seq<T>, key: T -> string)
    ensures IsSubsequence(UniqueBy(s, key), s)
  {
    if s != [] {
      var init := s[..|s| - 1];
      var x := s[|s| - 1];
      var p := UniqueBy(init, key);
      UniqueByOrder(init, key);
      assert init + [x] == s;
      if HasKey(p, key, key(x)) {
        SubsequenceExtend(p, init, x);
      } else {
        assert (p + [x])[..|p|] == p;
      }
    }
  }

  // --------------------------------------------------------------- uniques

  /** One document and the best score among its chunks. */
  datatype Unique = Unique(id: string, score: real)

  function ChunkDoc(c: Chunk): string {
    c.docId
  }

  function UniqueId(u: Unique): string {
    u.id
  }

  /** `Math.max(...xs)` over a non-empty list. */
  function MaxOf(xs: seq<real>): (m: real)
    requires xs != []
    ensures m in xs
    ensures forall i :: 0 <= i < |xs| ==> xs[i] <= m
  {
    if |xs| == 1 then xs[0]
    else
      var m := MaxOf(xs[..|xs| - 1]);
      assert forall i :: 0 <= i < |xs| - 1 ==> xs[i] == xs[..|xs| - 1][i];
      if xs[|xs| - 1] > m then xs[|xs| - 1] else m
  }

  /** `f => f.docId === docId` */
  function OfDoc(docId: string): Chunk -> bool {
    (c: Chunk) => c.docId == docId
  }

  /** `chunks.filter(f => f.docId === docId).map(v => v.score)`. */
  function ScoresOf(chunks: seq<Chunk>, docId: string): (xs: seq<real>)
    ensures |xs| == |Filter(chunks, OfDoc(docId))|
  {
    var mine := Filter(chunks, OfDoc(docId));
    seq(|mine|, i requires 0 <= i < |mine| => mine[i].score)
  }

  /** The `uniques` entry for the document of chunk `r`: `Math.max` over that document's chunk scores. */
  function UniqueFor(chunks: seq<Chunk>, r: Chunk): Unique
    requires r in chunks
  {
    FilterKeeps(chunks, OfDoc(r.docId), r);
    Unique(r.docId, MaxOf(ScoresOf(chunks, r.docId)))
  }

  /** `uniques`: for each document among the chunks, in first-occurrence order, the highest chunk score. */
  function Uniques(chunks: seq<Chunk>): (us: seq<Unique>)
  {
    var firsts := UniqueBy(chunks, ChunkDoc);
    seq(|firsts|, i requires 0 <= i < |firsts| => UniqueFor(chunks, firsts[i]))
  }

  /** What `uniques[i]` is made of: the first chunk of its document, and that document's best score. */
  lemma UniquesEntry(chunks: seq<Chunk>, i: nat)
    requires i < |Uniques(chunks)|
    ensures var firsts := UniqueBy(chunks, ChunkDoc);
      i < |firsts| && firsts[i] in chunks &&
      Uniques(chunks)[i] == Unique(firsts[i].docId, MaxOf(ScoresOf(chunks, firsts[i].docId)))
  {
  }

  /** Each document among the chunks appears exactly once in `uniques`, and nothing else does. */
  lemma UniquesKeys(chunks: seq<Chunk>)
    ensures var us := Uniques(chunks);
      DistinctBy(us, UniqueId) && forall d :: HasKey(us, UniqueId, d) <==> HasKey(chunks, ChunkDoc, d)
  {
    var firsts := UniqueBy(chunks, ChunkDoc);
    var us := Uniques(chunks);
    assert forall i :: 0 <= i < |us| ==> UniqueId(us[i]) == ChunkDoc(firsts[i]);
    forall d ensures HasKey(us, UniqueId, d) <==> HasKey(firsts, ChunkDoc, d) {
      if HasKey(us, UniqueId, d) {
        var i :| 0 <= i < |us| && UniqueId(us[i]) == d;
        assert ChunkDoc(firsts[i]) == d;
      }
      if HasKey(firsts, ChunkDoc, d) {
        var i :| 0 <= i < |firsts| && ChunkDoc(firsts[i]) == d;
        assert UniqueId(us[i]) == d;
      }
    }
  }

  /** No chunk of a document scores above its `uniques` entry, and some chunk of it scores exactly that. */
  lemma UniquesMax(chunks: seq<Chunk>, i: nat)
    requires i < |Uniques(chunks)|
    ensures var u := Uniques(chunks)[i];
      (forall j :: 0 <= j < |chunks| && chunks[j].docId == u.id ==> chunks[j].score <= u.score) &&
      (exists j :: 0 <= j < |chunks| && chunks[j].docId == u.id && chunks[j].score == u.score)
  {
    UniquesEntry(chunks, i);
    var u := Uniques(chunks)[i];
    var d := u.id;
    var mine := Filter(chunks, OfDoc(d));
    var xs := ScoresOf(chunks, d);
    forall j | 0 <= j < |chunks| && chunks[j].docId == d ensures chunks[j].score <= u.score {
      assert OfDoc(d)(chunks[j]);
      assert chunks[j] in mine;
      var t :| 0 <= t < |mine| && mine[t] == chunks[j];
      assert xs[t] == chunks[j].score;
    }
    var t :| 0 <= t < |xs| && xs[t] == u.score;
    assert mine[t] in chunks && OfDoc(d)(mine[t]);
    var j :| 0 <= j < |chunks| && chunks[j] == mine[t];
    assert chunks[j].docId == d && chunks[j].score == u.score;
  }

  /** Two chunks of one document scoring 0.7 and 0.9 give that document 0.9. */
  lemma UniquesExample(a: Chunk, b: Chunk)
    requires a.docId == b.docId && a.score == 0.7 && b.score == 0.9
    ensures Uniques([a, b]) == [Unique(a.docId, 0.9)]
  {
    var chunks := [a, b];
    var p := OfDoc(a.docId);
    assert chunks == [a] + [b];
    assert [a] == [] + [a];
    FilterAppend([], a, p);
    FilterAppend([a], b, p);
    assert Filter(chunks, p) == [a, b];
    var xs := ScoresOf(chunks, a.docId);
    assert xs == [0.7, 0.9];
    assert MaxOf(xs) == 0.9 by { assert xs[..1] == [0.7]; }
    assert [a][..0] == [];
    assert HasKey([a], ChunkDoc, ChunkDoc(b)) by { assert ChunkDoc([a][0]) == ChunkDoc(b); }
    assert UniqueBy(chunks, ChunkDoc) == [a];
  }

  // ------------------------------------------------------------ final docs

  /** A stored document with the score `uniques` gives it. */
  datatype ScoredDoc = ScoredDoc(doc: DocRow, score: real)

  function ScoreOfDoc(d: ScoredDoc): real {
    d.score
  }

  /** `uniques.find(u => u.id === doc.id)?.score || 0`. */
  function DocScore(uniques: seq<Unique>, id: string): (score: real)
    ensures (exists i :: 0 <= i < |uniques| && uniques[i].id == id) ==> exists i :: 0 <= i < |uniques| && uniques[i].id == id && score == uniques[i].score
    ensures (forall i :: 0 <= i < |uniques| ==> uniques[i].id != id) ==> score == 0.0
  {
    var u := Find(uniques, (u: Unique) => u.id == id);
    if u.Some? then u.value.score else 0.0
  }

  /** The comparator `(a, b) => b.score - a.score`. */
  function ByScoreDesc(a: ScoredDoc, b: ScoredDoc): Number {
    Num(b.score - a.score)
  }

  /** `res.map(doc => ({ ...doc, score })).sort(...)`. */
  function ScoreDocs(rows: seq<DocRow>, uniques: seq<Unique>): seq<ScoredDoc> {
    Sort(seq(|rows|, i requires 0 <= i < |rows| => ScoredDoc(rows[i], DocScore(uniques, rows[i].id))), ByScoreDesc)
  }

  /** The returned documents are ordered best first, and are exactly the listed rows, each once, with its score. */
  lemma ScoreDocsSorted(rows: seq<DocRow>, uniques: seq<Unique>)
    ensures NonIncreasing(ScoreDocs(rows, uniques), ScoreOfDoc)
    ensures multiset(ScoreDocs(rows, uniques)) ==
      multiset(seq(|rows|, i requires 0 <= i < |rows| => ScoredDoc(rows[i], DocScore(uniques, rows[i].id))))
  {
    assert Descending(ByScoreDesc, ScoreOfDoc);
    SortNonIncreasing(seq(|rows|, i requires 0 <= i < |rows| => ScoredDoc(rows[i], DocScore(uniques, rows[i].id))),
                      ByScoreDesc, ScoreOfDoc);
  }

  function UniqueIds(us: seq<Unique>): seq<string> {
    seq(|us|, i requires 0 <= i < |us| => us[i].id)
  }

  /** Over a scan of the whole table, the stored row of every asked-for id is scored. */
  lemma ScoreDocsHas(table: map<string, DocRow>, ids: seq<string>, scan: seq<string>, uniques: seq<Unique>, k: string)
    requires forall k :: k in scan ==> k in table
    requires forall k :: k in table ==> k in scan
    requires Distinct(scan)
    requires k in ids && k in table
    ensures exists d :: d in ScoreDocs(ListDocsByIds(table, ids, scan), uniques) && d.doc == table[k]
  {
    var rows := ListDocsByIds(table, ids, scan);
    var scored := seq(|rows|, i requires 0 <= i < |rows| => ScoredDoc(rows[i], DocScore(uniques, rows[i].id)));
    ScoreDocsSorted(rows, uniques);
    ListDocsByIdsMembers(table, ids, scan, k);
    var i :| 0 <= i < |rows| && rows[i] == table[k];
    assert scored[i] in multiset(scored);
    assert scored[i] in ScoreDocs(rows, uniques);
  }

  /** Every scored document is the stored row of an asked-for id. */
  lemma ScoreDocsOnly(table: map<string, DocRow>, ids: seq<string>, scan: seq<string>, uniques: seq<Unique>, d: ScoredDoc)
    requires forall k :: k in scan ==> k in table
    requires forall k :: k in table ==> k in scan
    requires Distinct(scan)
    requires d in ScoreDocs(ListDocsByIds(table, ids, scan), uniques)
    ensures exists k :: k in ids && k in table && table[k] == d.doc
  {
    var rows := ListDocsByIds(table, ids, scan);
    var scored := seq(|rows|, i requires 0 <= i < |rows| => ScoredDoc(rows[i], DocScore(uniques, rows[i].id)));
    ScoreDocsSorted(rows, uniques);
    assert d in multiset(ScoreDocs(rows, uniques));
    var i :| 0 <= i < |scored| && scored[i] == d;
    assert rows[i] in rows;
    ListDocsByIdsMembers(table, ids, scan, "");
  }

  // ---------------------------------------------------------------- routes

  datatype IngestReply = IngestBadRequest | Ingested(doc: DocRow)

  /**
   * `POST /`: a missing, falsy or non-string `contents` is answered with 400
   * and nothing is stored; otherwise the document row is created, its text
   * split (`split`) and each piece situated (`situate`), and the pieces are
   * stored as chunk rows and vector records stamped with the document's id
   * and creation time.
   */
  method Ingest(contents: Value, docs: map<string, DocRow>, chunkTable: map<string, ChunkRow>, now: int,
                docDraws: seq<Draw>, split: string -> seq<string>, situate: (string, string) -> string,
                embed: seq<string> -> seq<seq<real>>, chunkDraws: seq<seq<Draw>>)
    returns (reply: IngestReply, docs': map<string, DocRow>, chunkTable': map<string, ChunkRow>,
             rows: seq<ChunkRow>, records: seq<VectorRecord>)
    requires |docDraws| >= DefaultLength
    requires forall b :: |embed(b)| == |b|
    requires contents.Text? ==> |chunkDraws| == |split(contents.s)|
    requires forall j :: 0 <= j < |chunkDraws| ==> |chunkDraws[j]| >= DefaultLength
    ensures !(Truthy(contents) && contents.Text?) ==>
      reply == IngestBadRequest && docs' == docs && chunkTable' == chunkTable && rows == [] && records == []
    ensures Truthy(contents) && contents.Text? ==>
      var created := CreateDoc(docs, InsertDoc(None, Some(contents.s), None, None), now, docDraws);
      var pieces := ContextualizeChunks(contents.s, split(contents.s), situate);
      reply == Ingested(created.row) && docs' == created.table &&
      created.row.contents == Some(contents.s) &&
      RowsFor(rows, created.row.id, pieces, chunkDraws) &&
      StoredRows(chunkTable, chunkTable', rows, created.row.id) &&
      |records| == |pieces| &&
      forall j :: 0 <= j < |records| ==>
        records[j].id == rows[j].id &&
        records[j].metadata.docId == created.row.id && records[j].metadata.timestamp == created.row.created &&
        records[j].metadata.text == pieces[j] && records[j].id == records[j].metadata.chunkId &&
        records[j].id in chunkTable'
  {
    if !Truthy(contents) || !contents.Text? {
      return IngestBadRequest, docs, chunkTable, [], [];
    }
    var text := contents.s;
    var created := CreateDoc(docs, InsertDoc(None, Some(text), None, None), now, docDraws);
    docs' := created.table;
    var raw := split(text);
    var chunks := ContextualizeChunks(text, raw, situate);
    var batches;
    batches, chunkTable', rows, records := InsertChunkVectors(chunkTable, created.row.id, created.row.created, chunks, embed, now, chunkDraws);
    reply := Ingested(created.row);
  }

  datatype QueryReply =
    | QueryBadRequest
    | Answered(keywords: seq<string>, queries: seq<string>, chunks: seq<Chunk>, answer: string, docs: seq<ScoredDoc>)

  /** How many chunks a query keeps, and the confidence they need. */
  const QueryTopK: int := 8
  const QueryThreshold: real := 0.501

  /** The search a query runs: the rewritten questions and keywords, the prompt for the reranker, top 8 above 0.501. */
  function QueryParams(promptText: string, rewrite: Rewrite, timeframe: Option<Timeframe>): (params: DocSearchParams)
    ensures params.topK == Some(8) && params.scoreThreshold == Some(0.501)
  {
    DocSearchParams(promptText, rewrite.queries, rewrite.keywords, Some(QueryThreshold), Some(QueryTopK), timeframe)
  }

  /**
   * `POST /query`: a falsy `prompt` is answered with 400 before anything
   * runs; otherwise the prompt (as text, `promptText`) is rewritten, searched
   * with top 8 and threshold 0.501, the chunks are reduced to one best score
   * per document, those documents are listed and returned best first.
   * `generated` is the rewriter's object, `None` when generation fails;
   * `timeframe` is `None` when the request has none or a falsy one.
   */
  method Query(prompt: Value, promptText: string, timeframe: Option<Timeframe>, generated: Option<Rewrite>,
               services: Services, answerModel: (string, seq<Chunk>) -> string,
               chunkTable: map<string, ChunkRow>, docTable: map<string, DocRow>, scan: seq<string>, arrival: seq<nat>)
    returns (reply: QueryReply)
    requires prompt.Text? ==> promptText == prompt.s
    requires forall k :: k in scan ==> k in docTable
    requires forall k :: k in docTable ==> k in scan
    requires Distinct(scan)
    requires Truthy(prompt) ==>
      SearchReady(QueryParams(promptText, RewriteToQueries(promptText, generated), timeframe), services, arrival)
    ensures !Truthy(prompt) ==> reply == QueryBadRequest
    ensures Truthy(prompt) ==>
      var rewrite := RewriteToQueries(promptText, generated);
      reply.Answered? &&
      var uniques := Uniques(reply.chunks);
      reply.queries == rewrite.queries && reply.keywords == rewrite.keywords &&
      SearchReturns(QueryParams(promptText, rewrite, timeframe), services, chunkTable, arrival, reply.chunks) &&
      |reply.chunks| <= 8 &&
      (forall k :: 0 <= k < |reply.chunks| ==> reply.chunks[k].score >= 0.501) &&
      reply.docs == ScoreDocs(ListDocsByIds(docTable, UniqueIds(uniques), scan), uniques) &&
      (forall k :: k in UniqueIds(uniques) && k in docTable ==> exists d :: d in reply.docs && d.doc == docTable[k]) &&
      (forall d :: d in reply.docs ==> exists k :: k in UniqueIds(uniques) && k in docTable && docTable[k] == d.doc) &&
      NonIncreasing(reply.docs, ScoreOfDoc)
  {
    if !Truthy(prompt) {
      return QueryBadRequest;
    }
    var rewrite := RewriteToQueries(promptText, generated);
    var params := QueryParams(promptText, rewrite, timeframe);
    var chunks := BoundedSearch(params, services, chunkTable, arrival);
    var docs := RankDocs(chunks, docTable, scan);
    var answer := answerModel(promptText, chunks);
    reply := Answered(rewrite.keywords, rewrite.queries, chunks, answer, docs);
  }

  /** `searchDocs`: the chunks it returns, with the bounds its options guarantee. */
  method BoundedSearch(params: DocSearchParams, services: Services, stored: map<string, ChunkRow>, arrival: seq<nat>)
    returns (chunks: seq<Chunk>)
    requires SearchReady(params, services, arrival)
    ensures SearchReturns(params, services, stored, arrival, chunks)
    ensures ThresholdOn(params.scoreThreshold) ==> forall k :: 0 <= k < |chunks| ==> chunks[k].score >= params.scoreThreshold.value
    ensures TopKOn(params.topK) ==> |chunks| <= params.topK.value
  {
    chunks := SearchDocs(params, services, stored, arrival);
    SearchBounds(params, services, stored, arrival, chunks);
  }

  /** `uniques`, the listed documents, their scores and the sort, best first. */
  method RankDocs(chunks: seq<Chunk>, docTable: map<string, DocRow>, scan: seq<string>) returns (docs: seq<ScoredDoc>)
    requires forall k :: k in scan ==> k in docTable
    requires forall k :: k in docTable ==> k in scan
    requires Distinct(scan)
    ensures docs == ScoreDocs(ListDocsByIds(docTable, UniqueIds(Uniques(chunks)), scan), Uniques(chunks))
    ensures NonIncreasing(docs, ScoreOfDoc)
    ensures forall k :: k in UniqueIds(Uniques(chunks)) && k in docTable ==> exists d :: d in docs && d.doc == docTable[k]
    ensures forall d :: d in docs ==> exists k :: k in UniqueIds(Uniques(chunks)) && k in docTable && docTable[k] == d.doc
  {
    var firsts := GetUniqueListBy(chunks, ChunkDoc);
    var uniques := seq(|firsts|, i requires 0 <= i < |firsts| => UniqueFor(chunks, firsts[i]));
    assert uniques == Uniques(chunks);
    var res := ListDocsByIds(docTable, UniqueIds(uniques), scan);
    docs := ScoreDocs(res, uniques);
    ScoreDocsSorted(res, uniques);
    forall k | k in UniqueIds(uniques) && k in docTable ensures exists d :: d in docs && d.doc == docTable[k] {
      ScoreDocsHas(docTable, UniqueIds(uniques), scan, uniques, k);
    }
    forall d | d in docs ensures exists k :: k in UniqueIds(uniques) && k in docTable && docTable[k] == d.doc {
      ScoreDocsOnly(docTable, UniqueIds(uniques), scan, uniques, d);
    }
  }

  /** The chunks a query's search returns all reach the threshold, and there are at most `topK` of them. */
  lemma SearchBounds(params: DocSearchParams, services: Services, stored: map<string, ChunkRow>, arrival: seq<nat>, chunks: seq<Chunk>)
    requires SearchReturns(params, services, stored, arrival, chunks)
    ensures ThresholdOn(params.scoreThreshold) ==> forall k :: 0 <= k < |chunks| ==> chunks[k].score >= params.scoreThreshold.value
    ensures TopKOn(params.topK) ==> |chunks| <= params.topK.value
  {
    if Merged(params, services) != [] {
      SearchDocsBounds(params, services, stored);
    }
  }
}

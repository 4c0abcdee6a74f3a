# Contextual RAG worker in Dafny

A model of the retrieval core of the contextual-RAG Cloudflare worker, together
with the default-id rule of the per-user notes database. Both are written in
TypeScript.

The worker has two request paths.

- **Ingestion (`POST /`).** It stores a document and splits its text into
  chunks. Each chunk is "situated" by a language model: the model's short
  context goes in front, as `context; chunk`. The chunks are then stored ten
  at a time. Each chunk becomes a row in the `chunks` table and a vector
  record whose id is that row's id.
- **Query (`POST /query`).** The prompt is rewritten into questions and
  keywords. Two searches then run:
  - a lexical search, with one sanitised full-text query per keyword;
  - a vector search, with one top-20 query per question.

  Both result lists are de-duplicated and fused by reciprocal rank
  (`1 / (60 + position)`), and the best 150 candidates are kept. A reranker
  scores them, and `sigmoid` turns each score into a confidence. The
  candidates reaching 0.501 are kept, top 8. Each kept chunk gets its text,
  inline or from storage. Each document is scored by its best chunk, and the
  documents are returned best first.

Every model, index and store outside the worker is an oracle passed in as a
function:

- the situating model, the embedder, the vector index's search, the SQL
  full-text engine, the reranker, `sigmoid`, the query-rewriting model, the
  answering model and the text splitter;
- `Math.random`, whose draws are given as a sequence of letter indices below 26.

The tables are `map`s from primary key to row.

The modules follow the source files. Four helper modules model JavaScript
itself:

- `Js`: numbers with NaN, and the truthiness of JSON values;
- `Grouping`: a `Map`'s first-insertion key order, counts, sums, and the last
  write to a key;
- `Sorting`: `Array.prototype.sort`, modelled as a stable insertion sort. A
  NaN comparator result counts as 0;
- `Sequences`: `filter` and `flat`.

Imperative source code stays imperative in the model. The grouping loops, the
score-map loops, the batch loop, `getUniqueListBy`, `reorderRerankedArray` and
`randomString` are methods with loop invariants. Each is proved equal to a
specification function, and the properties are proved about that function as
lemmas.

In three places the code does something other than what it evidently means
to do. The model follows the code as written:

- **`uniqueDocMatches` never initialises `rankSum`**
  (contextual-rag/src/utils.ts:87-92). The averaged rank is therefore NaN, the
  comparator at line 102 answers NaN, and that sorts as 0. The comparator
  `Math.abs(b.rank) - Math.abs(a.rank)` shows that a sort by absolute average
  rank was meant. As written, the full-text list keeps first-occurrence order
  (`Utils.UniqueDocsFirstOccurrence`).
- **The vector metadata filter keeps one bound.** The `$gte` bound for `from`
  and the `$lt` bound for `to` are evidently meant to form a range, but each
  replaces the whole `timestamp` filter. A truthy `to` therefore overwrites a
  truthy `from` (contextual-rag/src/vectorize.ts:77-84), so the filter is never
  a range (`Vectorize.TimestampFilter`). The lexical search applies both bounds
  (contextual-rag/src/db/index.ts:71-72).
- **Reranker indices are not checked.** The code indexes the candidates with
  them unchecked, and does not validate or reject out-of-range indices. See
  "Left out".

## Model

| member | source | states |
|---|---|---|
| Utils.UniqueVectorMatches | contextual-rag/src/utils.ts:52-76 | The grouping loop over a `Map`, then averaging and sorting, returns exactly `UniqueVectors(items)`. |
| Utils.UniqueVectorsKeys | contextual-rag/src/utils.ts:52-67 | One entry per distinct `namespace_id` key of the input: keys are pairwise distinct, a key is in the output iff it is in the input, and the output is no longer than the input. |
| Utils.UniqueVectorsMean | contextual-rag/src/utils.ts:58-72 | Each entry's `count` is the number of matches with its key, its score is their arithmetic mean, and its other fields come from the first such match. |
| Utils.UniqueVectorsSorted | contextual-rag/src/utils.ts:74 | The output is ordered by score, largest first. |
| Utils.UniqueVectorsMeanExample | contextual-rag/src/utils.ts:58-72 | Three matches of one key scoring 0.2, 0.4 and 0.6 give one entry with score 0.4 and count 3. |
| Utils.UniqueDocMatches | contextual-rag/src/utils.ts:79-103 | The grouping loop (with `rankSum` never initialised), averaging and sort return exactly `UniqueDocs(items)`. |
| Utils.UniqueDocsFirstOccurrence | contextual-rag/src/utils.ts:79-102 | One entry per distinct `docId_id` key in first-occurrence order, with the first match's fields, the occurrence count as `count`, and a NaN rank, because the NaN comparator never reorders. |
| Utils.UniqueDocsKeys | contextual-rag/src/utils.ts:84-100 | Output keys are pairwise distinct, and a `docId_id` key is in the output iff it is in the input. |
| Utils.PerformReciprocalRankFusion | contextual-rag/src/utils.ts:9-50 | De-duplicating both lists, fusing and truncating returns exactly `Fusion(fullText, vectorResults)`. |
| Utils.FuseRanked | contextual-rag/src/utils.ts:17-49 | The two score loops, `Object.entries`, the sort and `slice(0, 150)` return exactly `FuseHits` of the de-duplicated lists. |
| Utils.WriteSqlScores | contextual-rag/src/utils.ts:22-31 | After the full-text loop, the score object holds, for every id read, the entry the writes leave behind. Its key order is first-insertion order. |
| Utils.WriteVectorScores | contextual-rag/src/utils.ts:34-43 | The vector loop, run after the full-text writes, extends that invariant to both lists. |
| Utils.FusedEntriesFacts | contextual-rag/src/utils.ts:45 | `Object.entries(scores)` has one entry per distinct id of either list, ids distinct, each entry carrying the id's fused score and the fields of its last write. |
| Utils.FuseHitsShape | contextual-rag/src/utils.ts:22-49 | The fused list has `min(#distinct ids, 150)` entries with distinct ids, ordered by score largest first. Every entry's id occurs in an input list, and its score is the sum of `1 / (60 + i)` over that id's positions. |
| Utils.FuseHitsKeepsBest | contextual-rag/src/utils.ts:45-49 | An id cut by the 150 limit scores no more than any id that is kept. |
| Utils.FusedOverlapWins | contextual-rag/src/utils.ts:22-43 | An id first in both lists outscores any other id that occurs once overall. |
| Utils.FusedHeadBound | contextual-rag/src/utils.ts:22-43 | An id first in both lists scores at least `2 / 60`. |
| Utils.FusedOnceBound | contextual-rag/src/utils.ts:22-43 | An id occurring once overall, and not first, scores at most `1 / 61`. |
| Utils.FusedScorePositional | contextual-rag/src/utils.ts:22-43 | Fused scores depend only on positions. Lists with the same ids at the same positions give every id the same score, whatever the matches' own scores. |
| Utils.At | contextual-rag/src/utils.ts:110-111 | `source[index]` is defined exactly when the index is in range. |
| Utils.ReorderRerankedArray | contextual-rag/src/utils.ts:106-115 | The output has one element per index, and element `i` is `source[indices[i]]`, or undefined out of range. |
| Sorting.SortNonIncreasing | contextual-rag/src/utils.ts:74 | Sorting with a comparator computing `score(b) - score(a)` orders by score, largest first. |
| Sorting.SortNeverAfter | contextual-rag/src/utils.ts:102 | A comparator that only answers 0 or NaN leaves the list unchanged. |
| Sorting.SortSameElements | contextual-rag/src/utils.ts:47 | Sorting keeps exactly the elements it is given. |
| Search.Contexts | contextual-rag/src/search.ts:62 | The reranker is shown one `{id, text}` per candidate, aligned with the candidates. |
| Search.Confidences | contextual-rag/src/search.ts:67-68 | Each reranker answer keeps its index and gets `sigmoid(score)` as its confidence. |
| Search.ApplyThreshold | contextual-rag/src/search.ts:69-71 | With a positive threshold, the list is the input filtered by the threshold: exactly the confidences reaching it are kept. Otherwise nothing is dropped. |
| Search.ApplyThresholdOrder | contextual-rag/src/search.ts:69-71 | The thresholded list keeps the input order. |
| Search.ApplyTopK | contextual-rag/src/search.ts:72-74 | With positive `topK`, the list is the first `min(topK, n)` entries. Otherwise it is unchanged. |
| Search.KeptBounds | contextual-rag/src/search.ts:69-74 | Every kept confidence reaches an active threshold, at most `topK` are kept, and no more than the reranker answered. |
| Search.KeptExample | contextual-rag/src/search.ts:69-74 | Confidences 0.9, 0.6, 0.5 and 0.3, with threshold 0.501 and top 2, leave 0.9 and 0.6. |
| Search.TextFallback | contextual-rag/src/search.ts:81 | The text is the inline text if non-empty, else the stored chunk's text, else `""`. |
| Search.Answers | contextual-rag/src/search.ts:76-85 | Chunk `i` is the candidate at the `i`-th kept index, carrying the `i`-th kept confidence as its score. |
| Search.ProcessSearchResults | contextual-rag/src/search.ts:52-91 | No candidates: the reranker is not asked and no chunks are returned. Otherwise the reranker sees every candidate, and the chunks are the kept answers in completion order, each exactly once. |
| Search.KeepConfident | contextual-rag/src/search.ts:67-74 | Reassigning `indices` through the threshold and top-K steps yields `Kept`. |
| Search.Collect | contextual-rag/src/search.ts:76-86 | The remap through `reorderRerankedArray`, plus the text lookup, yields `Answers`. |
| Search.PushOnArrival | contextual-rag/src/search.ts:78-88 | The pushed chunks are the built chunks in completion order: same number, each one present. |
| Search.RewriteToQueries | contextual-rag/src/search.ts:105-133 | On generation failure the only query is the prompt and there are no keywords. Otherwise the model's object is returned. |
| Search.SqlMatches | contextual-rag/src/search.ts:35-42 | Each SQL row becomes a match with `docId` taken from `doc_id`, aligned with the rows. |
| Search.SearchDocs | contextual-rag/src/search.ts:25-48 | Both searches, the fusion and post-processing return the kept answers for the fused candidates in completion order, and nothing when there are none. |
| Search.SearchDocsBounds | contextual-rag/src/search.ts:69-74 | A search's chunks all reach its active threshold, and there are at most `topK` of them. |
| Vectorize.ContextualizeChunks | contextual-rag/src/vectorize.ts:3-24 | One output per chunk, index-aligned, starting with the model's answer for that chunk and two characters longer than answer plus chunk. |
| Vectorize.ContextualizedEndsWithChunk | contextual-rag/src/vectorize.ts:20 | Each output ends with its chunk, right behind `"; "`. |
| Vectorize.BatchesFromFacts | contextual-rag/src/vectorize.ts:37-38 | Batch `k` from `start` is `chunks[start+10k .. start+10k+10)`, cut at the end. Each batch holds 1 to 10 chunks, there are `ceil((n - start) / 10)` batches, and together they are `chunks[start..]`. |
| Vectorize.BatchesFacts | contextual-rag/src/vectorize.ts:34-38 | The whole list splits into `ceil(n / 10)` non-empty batches of at most 10, whose concatenation is the input. |
| Vectorize.InsertBatch | contextual-rag/src/vectorize.ts:42-61 | One batch creates one row per chunk and one record per embedding. The record's id and `metadata.chunkId` are the row's id, with this document, that chunk's text and `created`. The table holds, under each written id, the last row written there. Other rows are untouched. |
| Vectorize.CreateRows | contextual-rag/src/vectorize.ts:47-48 | `createChunk` for each chunk of a batch creates one fresh-id row per chunk of this document with that chunk's text. The table then holds, under each written id, the last row written there, and nothing else changes. |
| Vectorize.Records | contextual-rag/src/vectorize.ts:50-60 | Record `j` has the created row's id as `id` and `chunkId`, embedding `j` as values, and `docId`, chunk text and `created` as metadata. |
| Vectorize.InsertChunkVectors | contextual-rag/src/vectorize.ts:27-67 | The stride-10 loop produces the batches, one row per chunk and one record per chunk. The record has its row's id, the embedding its batch got for it, and this document's metadata. The table holds, under each written id, the last row written there, and nothing else changes. |
| Vectorize.TimestampFilter | contextual-rag/src/vectorize.ts:76-84 | No filter iff neither bound is truthy. `$lt to` whenever `to` is truthy, discarding `from`. `$gte from` when only `from` is truthy. |
| Vectorize.QueryChunkVectors | contextual-rag/src/vectorize.ts:70-98 | One query per question, aligned with the questions, each with the question's embedding, top 20, no values, all metadata and the same filter. |
| Db.CreateDoc | contextual-rag/src/db/index.ts:15-28 | The upsert writes under the given or a random id. A new row takes missing timestamps from the clock. A clashing row keeps the fields not given and refreshes `updated`. No other row changes. |
| Db.CreateChunk | contextual-rag/src/db/index.ts:90-103 | The same upsert on `chunks`: the row has the given document and text, and only that key of the table changes. |
| Db.GetChunk | contextual-rag/src/db/index.ts:105-114 | A row is found iff one exists with that id and that `docId`. |
| Db.ListDocsByIdsMembers | contextual-rag/src/db/index.ts:42-53 | Every listed row is stored under an asked-for id, and every asked-for stored id is listed. |
| Db.CreateChunkThenGet | contextual-rag/src/db/index.ts:90-114 | Reading back an upserted chunk gives the returned row, and other ids read as before. |
| Db.CreateDocTwice | contextual-rag/src/db/index.ts:18-25 | Upserting the same document twice under its id stores the first write's row with only `updated` refreshed, under the same keys. |
| Db.Trim | contextual-rag/src/db/index.ts:64 | `trim()` cuts only white space, and only from the two ends, leaving no white space at either end. |
| Db.Sanitize | contextual-rag/src/db/index.ts:64 | The sanitised term holds only `[A-Za-z0-9_]` and white space, so no quote can close `MATCH '…'`. |
| Db.SanitizeSubsequence | contextual-rag/src/db/index.ts:64 | The sanitised term is the trimmed needle with characters removed, the rest in order, and every allowed character kept. |
| Db.SanitizeKeepsClean | contextual-rag/src/db/index.ts:64 | A term of allowed characters, not starting or ending with white space, passes through unchanged. |
| Db.BuildQuery | contextual-rag/src/db/index.ts:63-76 | `created > from` is present iff `from` is truthy, and `created < to` iff `to` is truthy, independently. The term is sanitised and the limit passed through. |
| Db.Queries | contextual-rag/src/db/index.ts:62-77 | One query per non-empty needle, in needle order. |
| Db.RowsPerQuery | contextual-rag/src/db/index.ts:79-84 | The engine is asked once per query, aligned with the queries. |
| Db.SearchChunksNoNeedles | contextual-rag/src/db/index.ts:62 | Only empty needles: no query is built and nothing is found. |
| Db.SearchChunksAppend | contextual-rag/src/db/index.ts:58-86 | One more needle appends its query's rows when non-empty, and changes nothing when empty. The result is the per-needle rows concatenated in order. |
| Db.SearchChunksRows | contextual-rag/src/db/index.ts:79-86 | A row is found iff some query returned it. |
| Db.SearchChunksBound | contextual-rag/src/db/index.ts:58-74 | When the engine honours `LIMIT`, at most `limit` rows come back per non-empty needle. |
| Handlers.Find | contextual-rag/src/index.ts:98 | `find` answers the first element passing the test, and nothing iff none passes. |
| Handlers.UniqueBy | contextual-rag/src/index.ts:95-104 | Keys in the result are pairwise distinct and exactly the input's keys, with elements from the input. |
| Handlers.GetUniqueListBy | contextual-rag/src/index.ts:95-104 | The push loop with `find` returns exactly `UniqueBy(arr, key)`. |
| Handlers.UniqueByFirst | contextual-rag/src/index.ts:97-101 | Each kept element is the first element of its key in the input. |
| Handlers.UniqueByOrder | contextual-rag/src/index.ts:95-104 | The kept elements appear in input order. |
| Handlers.MaxOf | contextual-rag/src/index.ts:75 | `Math.max` of a non-empty list is one of its elements and at least every element. |
| Handlers.ScoresOf | contextual-rag/src/index.ts:70-72 | One score per chunk of the document. |
| Handlers.UniquesEntry | contextual-rag/src/index.ts:69-77 | Entry `i` is the first chunk of its document with that document's best chunk score. |
| Handlers.UniquesKeys | contextual-rag/src/index.ts:69-77 | Each document among the chunks appears exactly once in `uniques`, and nothing else does. |
| Handlers.UniquesMax | contextual-rag/src/index.ts:69-77 | No chunk of a document scores above its entry, and some chunk scores exactly that. |
| Handlers.UniquesExample | contextual-rag/src/index.ts:69-77 | Two chunks of one document scoring 0.7 and 0.9 give that document 0.9. |
| Handlers.DocScore | contextual-rag/src/index.ts:91 | A document's score is its `uniques` entry's score, or 0 when it has none. |
| Handlers.ScoreDocsSorted | contextual-rag/src/index.ts:91 | The returned documents are ordered by score, largest first, and are exactly the listed rows with their scores. |
| Handlers.ScoreDocsHas | contextual-rag/src/index.ts:79-91 | Over a scan of the whole table, the stored row of every asked-for id is among the scored documents. |
| Handlers.ScoreDocsOnly | contextual-rag/src/index.ts:79-91 | Every scored document is the stored row of an asked-for id. |
| Handlers.Ingest | contextual-rag/src/index.ts:22-37 | A falsy or non-string `contents` gets 400 and nothing is stored. Otherwise the document row is created with those contents. Every situated chunk gets a row with a fresh id, this document and its text; the chunk table holds, under each written id, the last row written there, and nothing else changes. Every chunk gets a record with its row's id, stamped with the document's id and creation time. |
| Handlers.QueryParams | contextual-rag/src/index.ts:60-67 | The search runs with top 8 and threshold 0.501. |
| Handlers.Query | contextual-rag/src/index.ts:39-93 | A falsy prompt gets 400. Otherwise the answer carries the rewritten queries and keywords. Its chunks are what the search with top 8 and threshold 0.501 returns: none without candidates, else each kept confidence's chunk once, in arrival order, at most 8, each reaching 0.501. The documents are the stored rows of exactly the documents named by `uniques`, every one of them, scored by `uniques` and ordered best first. |
| Handlers.BoundedSearch | contextual-rag/src/index.ts:60-67 | The search returns nothing without candidates, else each kept confidence's chunk once, in arrival order. These chunks reach the active threshold, and there are at most `topK` of them. |
| Handlers.RankDocs | contextual-rag/src/index.ts:69-91 | `uniques`, the lookup and the scoring sort give the documents scored by their best chunk, ordered best first. Every stored document named by `uniques` is among them, and every returned document is one of those. |
| Handlers.SearchBounds | contextual-rag/src/index.ts:60-67 | Threshold and top-K bounds carry over from the kept confidences to the chunks in completion order. |
| Schemas.Letters | contextual-rag/src/db/schemas.ts:46-51 | One letter per draw, each in `a..z`. |
| Schemas.RandomString | contextual-rag/src/db/schemas.ts:42-52 | Filling the `length`-slot array gives exactly the letters of the first `length` draws. |
| Schemas.LettersInjective | contextual-rag/src/db/schemas.ts:43-49 | Different draws give different strings. |
| Schemas.DefaultId | contextual-rag/src/db/schemas.ts:6-9 | A given id is kept. A missing one becomes 16 lowercase letters. The same rule applies to `chunks.id` (lines 27-30). |
| Notes.RandomString | durable-objects-database-per-user/src/db/notes.ts:3-13 | Exactly `length` lowercase letters, letter `i` being `chars[draw i]`. |
| Notes.DefaultNoteId | durable-objects-database-per-user/src/db/notes.ts:18-21 | The default note id is `note_` followed by the 16 letters `chars[draw i]` of the first 16 draws: 21 characters in all. |
| Notes.NoteId | durable-objects-database-per-user/src/db/notes.ts:18-21 | A given note id is kept, and a missing one becomes `note_` followed by the letters of the first 16 draws. |

## Left out

- The outside services are oracles passed in as functions, not models. These are:
  - the situating model, the embedder, `VECTORIZE.insert` and `VECTORIZE.query`;
  - the full-text engine (`MATCH` and `bm25`) and the reranker;
  - `generateObject`, the answering model, and the LangChain text splitter.

  Their prompts are not modelled.
- Vectorize.InsertChunkVectors, Handlers.Ingest, Search.SearchDocs and
  Handlers.Query: every outside service and storage call is taken to answer.
  - The only failure modelled is `generateObject`'s, as `None`.
  - Any other throw propagates as a server error. This covers the situating
    model, the embedder, `createChunk`, `VECTORIZE.insert` and `query`, the
    `MATCH` query and the reranker.
  - Ingestion is not atomic. `createDoc` commits before the text is split and
    situated (contextual-rag/src/index.ts:26-34). Each batch's chunk rows
    commit before its `VECTORIZE.insert` (contextual-rag/src/vectorize.ts:47-61).
    A failing batch rejects `Promise.all` (contextual-rag/src/vectorize.ts:66)
    after other batches have written.
  - On such a throw, the document row and the chunk rows already created stay
    committed, including rows whose vector insert failed.
  - The contracts of these members describe only the run in which every call
    succeeds.
- `sigmoid` (`Math.exp`) is an arbitrary function on reals, so no confidence
  is promised to lie strictly between 0 and 1. `Math.random` is a
  given sequence of draws below 26. Floating point is not modelled: scores are
  exact reals.
- `Promise.all` concurrency is modelled sequentially in index order. The
  outcome depends on completion order in two places:
  - `chunks.push` in `processSearchResults`. There, completion order is the
    `arrival` permutation, given as a parameter.
  - The concurrent batches of `insertChunkVectors`
    (contextual-rag/src/vectorize.ts:37-47). When two random chunk ids
    collide, the row that survives depends on which `createChunk` finishes
    last. The model fixes index order, so the later chunk's row survives
    (`Vectorize.LastWrite`).
- Search.ProcessSearchResults: requires the reranker's returned indices to lie
  within the candidate list. The code indexes out of range unchecked. The
  storage lookup with the resulting undefined keys is not part of this model.
  Search.Answers, Search.Collect, Search.SearchDocs, Search.SearchDocsBounds,
  Handlers.BoundedSearch and Handlers.Query carry the same requirement.
- Vectorize.InsertChunkVectors: requires the embedder to answer each batch with
  one vector per text. The code does not check this. Handlers.Ingest carries
  the same requirement.
- Vectorize.InsertChunkVectors: writes every chunk row with a single clock
  reading `now`, where the code reads the clock per row.
- Handlers.Ingest: passes that same `now` to Db.CreateDoc as well. The
  document's `created` and `updated` and every chunk row therefore share one
  clock reading. The code reads the clock separately for the document's
  defaults and for each `createChunk`
  (contextual-rag/src/db/schemas.ts:11-16,33-35).
- Utils.FusedOverlapWins: the other id must occur at most once across both
  lists. An id repeated under several namespaces or documents can score
  `1/61 + 1/62 + 1/63 > 2/60`, so the unrestricted claim is false.
- Db.ListDocsByIds: SQL gives no row order, so rows come in `scan`, a given
  storage order of the table. It requires `scan` to list every stored id, each
  once, as a table scan does.
- Db.Timeframe: `from` and `to` are taken to be integers, as the TypeScript
  type declares. The code does not validate them, and it interpolates them
  unescaped into the SQL text (contextual-rag/src/index.ts:40,49-51;
  contextual-rag/src/db/index.ts:71-72).
- Utils.FusedEntriesFacts: `Object.entries` lists integer-like keys first, in
  ascending order, and the model lists every key in first-insertion order.
  Chunk ids are 16 random lowercase letters, never integer-like, so the two
  orders agree on every id the worker creates. Utils.FuseRanked relies on
  the same order.
- `getDoc` (contextual-rag/src/db/index.ts:30-39) is not modelled, because no
  request path calls it.
- Handlers.Query takes the prompt both as a JSON value, for the falsy check,
  and as its text `promptText`. A non-string truthy prompt is interpolated by
  JavaScript's string conversion, which is not modelled.
- A missing chunk `text` in a fused candidate is modelled as `""`. JavaScript's
  `undefined` behaves the same under `||`.
- Lexical queries are a structured `LexQuery` value, not SQL text. The SQL
  string and its whitespace are not modelled.
- A falsy `timeframe` object in the query request is modelled as `None`.
- Db.CreateDoc: `null` and absent `contents` are both `None`. Drizzle would
  write a `null` on conflict but skip an absent field.
- The Hono app, the JSON responses and `fetch` are not modelled, nor the
  Durable Object stub lookup and migrations of the notes project.
- The notes project's CRUD wrappers, the Drizzle configs and the `types.ts`
  aliases are not part of this model.
- `reorderArray` (contextual-rag/src/search.ts:93-102) is the same loop as
  `reorderRerankedArray`. It is modelled once, as
  Utils.ReorderRerankedArray, which Search.Collect calls.
- The `chars` constant is written as the 26 code points from `a`; this is the
  same string as `"abcdefghijklmnopqrstuvwxyz"`.

/**
 * contextual-rag/src/vectorize.ts: situating chunks in their document,
 * storing chunk rows and their embeddings batch by batch, and querying the
 * vector index. The language model, the embedding model and the index's own
 * search are oracles passed in as functions.
 */
module Vectorize {

  import opened Wrappers
  import opened Js
  import opened Grouping
  import opened Sequences
  import opened Schemas
  import opened Db
  import opened Utils

  // ---------------------------------------------------- contextualizeChunks

  /**
   * `contextualizeChunks`: each chunk becomes `${response}; ${chunk}`, where
   * `response` is the model's answer (`situate`) for the whole document and that chunk.
   */
  function ContextualizeChunks(content: string, chunks: seq<string>, situate: (string, string) -> string): (out: seq<string>)
    ensures |out| == |chunks|
    ensures forall i :: 0 <= i < |chunks| ==>
      |out[i]| == |situate(content, chunks[i])| + 2 + |chunks[i]| &&
      out[i][..|situate(content, chunks[i])|] == situate(content, chunks[i])
  {
    seq(|chunks|, i requires 0 <= i < |chunks| => situate(content, chunks[i]) + "; " + chunks[i])
  }

  /** The original chunk is the tail of its contextualised text, right behind `"; "`. */
  lemma ContextualizedEndsWithChunk(content: string, chunks: seq<string>, situate: (string, string) -> string, i: nat)
    requires i < |chunks|
    ensures var out := ContextualizeChunks(content, chunks, situate)[i];
      out[|out| - |chunks[i]|..] == chunks[i] &&
      out[|out| - |chunks[i]| - 2..|out| - |chunks[i]|] == "; "
  {
    var r := situate(content, chunks[i]);
    var out := ContextualizeChunks(content, chunks, situate)[i];
    assert out == r + "; " + chunks[i];
    assert out[|r| + 2..] == chunks[i];
    assert out[|r|..|r| + 2] == "; ";
  }

  // ----------------------------------------------------- insertChunkVectors

  const BatchSize: nat := 10

  function Min(a: int, b: int): int {
    if a <= b then a else b
  }

  /** The batches the loop `for (i = start; i < n; i += 10)` slices off: `chunks.slice(i, i + 10)`. */
  function BatchesFrom(chunks: seq<string>, start: nat): seq<seq<string>>
    decreases |chunks| - start
  {
    if start >= |chunks| then []
    else [chunks[start..Min(start + BatchSize, |chunks|)]] + BatchesFrom(chunks, start + BatchSize)
  }

  function Batches(chunks: seq<string>): seq<seq<string>> {
    BatchesFrom(chunks, 0)
  }

  /** The batch that chunk `j` travels in. */
  function BatchOf(chunks: seq<string>, j: nat): seq<string>
    requires j < |chunks|
  {
    chunks[j / BatchSize * BatchSize..Min(j / BatchSize * BatchSize + BatchSize, |chunks|)]
  }

  /** The embedding that the batch of chunk `j` gets back for it. */
  function EmbeddingOf(chunks: seq<string>, j: nat, embed: seq<string> -> seq<seq<real>>): seq<real>
    requires j < |chunks|
    requires forall b :: |embed(b)| == |b|
  {
    var batch := BatchOf(chunks, j);
    assert j % BatchSize < |batch|;
    embed(batch)[j % BatchSize]
  }

  /**
   * Batch `k` from `start` is `chunks[start + 10k .. start + 10k + 10)` cut at the end;
   * every batch holds one to ten chunks; there are `ceil((n - start) / 10)` of them,
   * and one after another they are exactly `chunks[start..]`.
   */
  lemma {:induction false} BatchesFromFacts(chunks: seq<string>, start: nat)
    requires start <= |chunks|
    ensures var bs := BatchesFrom(chunks, start);
      |bs| == (|chunks| - start + BatchSize - 1) / BatchSize &&
      (forall k :: 0 <= k < |bs| ==> 0 < |bs[k]| <= BatchSize) &&
      (forall k :: 0 <= k < |bs| ==>
         start + k * BatchSize < |chunks| &&
         bs[k] == chunks[start + k * BatchSize..Min(start + k * BatchSize + BatchSize, |chunks|)]) &&
      Flatten(bs) == chunks[start..]
  {
    BatchesFromLength(chunks, start);
    forall k | 0 <= k < |BatchesFrom(chunks, start)|
      ensures start + k * BatchSize < |chunks|
      ensures BatchesFrom(chunks, start)[k] == chunks[start + k * BatchSize..Min(start + k * BatchSize + BatchSize, |chunks|)]
    {
      BatchesFromAt(chunks, start, k);
    }
    BatchesFromFlatten(chunks, start);
  }

  lemma {:induction false} BatchesFromLength(chunks: seq<string>, start: nat)
    requires start <= |chunks|
    ensures |BatchesFrom(chunks, start)| == (|chunks| - start + BatchSize - 1) / BatchSize
    decreases |chunks| - start
  {
    if start + BatchSize <= |chunks| {
      BatchesFromLength(chunks, start + BatchSize);
    }
  }

  lemma {:induction false} BatchesFromAt(chunks: seq<string>, start: nat, k: nat)
    requires k < |BatchesFrom(chunks, start)|
    ensures start + k * BatchSize < |chunks|
    ensures BatchesFrom(chunks, start)[k] == chunks[start + k * BatchSize..Min(start + k * BatchSize + BatchSize, |chunks|)]
    decreases k
  {
    if k > 0 {
      BatchesFromAt(chunks, start + BatchSize, k - 1);
      assert start + k * BatchSize == start + BatchSize + (k - 1) * BatchSize;
    }
  }

  lemma {:induction false} BatchesFromFlatten(chunks: seq<string>, start: nat)
    requires start <= |chunks|
    ensures Flatten(BatchesFrom(chunks, start)) == chunks[start..]
    decreases |chunks| - start
  {
    if start < |chunks| {
      var next := Min(start + BatchSize, |chunks|);
      var head := chunks[start..next];
      var rest := BatchesFrom(chunks, start + BatchSize);
      FlattenPrepend(head, rest);
      if start + BatchSize <= |chunks| {
        BatchesFromFlatten(chunks, start + BatchSize);
        assert chunks[start..] == head + chunks[start + BatchSize..];
      } else {
        assert rest == [];
      }
    }
  }

  /** The batches of the whole list: non-empty, at most ten each, `ceil(n / 10)` of them, and together the input. */
  lemma BatchesFacts(chunks: seq<string>)
    ensures var bs := Batches(chunks);
      |bs| == (|chunks| + BatchSize - 1) / BatchSize &&
      (forall k :: 0 <= k < |bs| ==> 0 < |bs[k]| <= BatchSize) &&
      Flatten(bs) == chunks
  {
    BatchesFromFacts(chunks, 0);
  }

  /** What is stored in the vector index for one chunk. */
  datatype Metadata = Metadata(docId: string, chunkId: string, text: string, timestamp: int)
  datatype VectorRecord = VectorRecord(id: string, values: seq<real>, metadata: Metadata)

  /** No row written after `rows[j]` has its id: `rows[j]` is the last write under that id. */
  ghost predicate LastWrite(rows: seq<ChunkRow>, j: int)
    requires 0 <= j < |rows|
  {
    forall k :: j < k < |rows| ==> rows[k].id != rows[j].id
  }

  /**
   * Every row the batch wrote is in the table, and the table holds, under each id
   * written, the last row written under it; rows it did not write are as they were.
   */
  ghost predicate StoredRows(table: map<string, ChunkRow>, table': map<string, ChunkRow>, rows: seq<ChunkRow>, docId: string) {
    (forall j :: 0 <= j < |rows| ==> rows[j].id in table' && table'[rows[j].id].docId == docId) &&
    (forall j :: 0 <= j < |rows| && LastWrite(rows, j) ==> table'[rows[j].id] == rows[j]) &&
    (forall k :: k in table ==> k in table') &&
    (forall k :: k in table' ==> k in table || exists j :: 0 <= j < |rows| && rows[j].id == k) &&
    (forall k :: k in table && (forall j :: 0 <= j < |rows| ==> rows[j].id != k) ==> table'[k] == table[k])
  }

  /** One row per chunk: a fresh random id, this document, that chunk's text. */
  ghost predicate RowsFor(rows: seq<ChunkRow>, docId: string, chunks: seq<string>, draws: seq<seq<Draw>>)
    requires |draws| >= |chunks|
    requires forall j :: 0 <= j < |draws| ==> |draws[j]| >= DefaultLength
  {
    |rows| == |chunks| &&
    forall j :: 0 <= j < |rows| ==>
      rows[j].id == DefaultId(None, draws[j]) && rows[j].docId == docId && rows[j].text == chunks[j]
  }

  /**
   * The body run for one batch: `createChunk` for each chunk of the batch, then
   * one record per embedding, carrying the created row's id as both `id` and
   * `metadata.chunkId`.
   */
  method InsertBatch(table: map<string, ChunkRow>, docId: string, created: int, now: int,
                     chunkBatch: seq<string>, embeddingBatch: seq<seq<real>>, draws: seq<seq<Draw>>)
    returns (table': map<string, ChunkRow>, rows: seq<ChunkRow>, records: seq<VectorRecord>)
    requires |embeddingBatch| == |chunkBatch| && |draws| >= |chunkBatch|
    requires forall j :: 0 <= j < |draws| ==> |draws[j]| >= DefaultLength
    ensures RowsFor(rows, docId, chunkBatch, draws)
    ensures StoredRows(table, table', rows, docId)
    ensures |records| == |chunkBatch|
    ensures forall j :: 0 <= j < |records| ==>
      records[j] == VectorRecord(rows[j].id, embeddingBatch[j], Metadata(docId, rows[j].id, chunkBatch[j], created))
  {
    table', rows := CreateRows(table, docId, now, chunkBatch, draws);
    records := Records(docId, created, rows, chunkBatch, embeddingBatch);
  }

  /** `createChunk` for each chunk of a batch, in order. */
  method CreateRows(table: map<string, ChunkRow>, docId: string, now: int, chunkBatch: seq<string>, draws: seq<seq<Draw>>)
    returns (table': map<string, ChunkRow>, rows: seq<ChunkRow>)
    requires |draws| >= |chunkBatch|
    requires forall j :: 0 <= j < |draws| ==> |draws[j]| >= DefaultLength
    ensures RowsFor(rows, docId, chunkBatch, draws)
    ensures StoredRows(table, table', rows, docId)
  {
    table' := table;
    rows := [];
    for index := 0 to |chunkBatch|
      invariant RowsFor(rows, docId, chunkBatch[..index], draws)
      invariant StoredRows(table, table', rows, docId)
    {
      var res := CreateChunk(table', InsertChunk(None, docId, chunkBatch[index], None), now, draws[index]);
      StoredRowsOne(table', res.table, res.row, docId);
      StoredRowsStep(table, table', res.table, rows, [res.row], docId);
      RowsForStep(rows, docId, chunkBatch, index, draws, res.row);
      table' := res.table;
      rows := rows + [res.row];
    }
    assert chunkBatch[..|chunkBatch|] == chunkBatch;
  }

  /** A single upsert of a row of this document stores that row and changes nothing else. */
  lemma StoredRowsOne(table: map<string, ChunkRow>, table': map<string, ChunkRow>, row: ChunkRow, docId: string)
    requires table' == table[row.id := row] && row.docId == docId
    ensures StoredRows(table, table', [row], docId)
  {
    var rows := [row];
    assert rows[0] == row;
    forall k | k in table' && k !in table ensures exists j :: 0 <= j < |rows| && rows[j].id == k {
      assert rows[0].id == k;
    }
  }

  /** The row created for chunk `index` extends the rows of the chunks before it. */
  lemma RowsForStep(rows: seq<ChunkRow>, docId: string, chunks: seq<string>, index: nat, draws: seq<seq<Draw>>, row: ChunkRow)
    requires index < |chunks| && |draws| >= |chunks|
    requires forall j :: 0 <= j < |draws| ==> |draws[j]| >= DefaultLength
    requires RowsFor(rows, docId, chunks[..index], draws)
    requires row.id == DefaultId(None, draws[index]) && row.docId == docId && row.text == chunks[index]
    ensures RowsFor(rows + [row], docId, chunks[..index + 1], draws)
  {
    var rows' := rows + [row];
    forall j | 0 <= j < |rows'|
      ensures rows'[j].id == DefaultId(None, draws[j]) && rows'[j].docId == docId && rows'[j].text == chunks[..index + 1][j]
    {
      if j < index {
        assert rows'[j] == rows[j] && chunks[..index][j] == chunks[..index + 1][j];
      }
    }
  }

  /** One vector record per embedding, carrying the created row's id as both `id` and `metadata.chunkId`. */
  method Records(docId: string, created: int, rows: seq<ChunkRow>, chunkBatch: seq<string>, embeddingBatch: seq<seq<real>>)
    returns (records: seq<VectorRecord>)
    requires |rows| == |chunkBatch| == |embeddingBatch|
    ensures |records| == |chunkBatch|
    ensures forall j :: 0 <= j < |records| ==>
      records[j] == VectorRecord(rows[j].id, embeddingBatch[j], Metadata(docId, rows[j].id, chunkBatch[j], created))
  {
    var chunkIds := seq(|rows|, j requires 0 <= j < |rows| => rows[j].id);
    records := [];
    for index := 0 to |embeddingBatch|
      invariant |records| == index
      invariant forall j :: 0 <= j < index ==>
        records[j] == VectorRecord(rows[j].id, embeddingBatch[j], Metadata(docId, rows[j].id, chunkBatch[j], created))
    {
      records := records + [VectorRecord(chunkIds[index], embeddingBatch[index],
                                         Metadata(docId, chunkIds[index], chunkBatch[index], created))];
    }
  }

  /** The first `n` chunks have their rows and records. */
  ghost predicate Inserted(chunks: seq<string>, n: nat, embed: seq<string> -> seq<seq<real>>, draws: seq<seq<Draw>>,
                           docId: string, created: int, rows: seq<ChunkRow>, records: seq<VectorRecord>)
    requires forall b :: |embed(b)| == |b|
    requires n <= |chunks| && |draws| == |chunks| && forall j :: 0 <= j < |draws| ==> |draws[j]| >= DefaultLength
  {
    RowsFor(rows, docId, chunks[..n], draws) &&
    |records| == n &&
    forall j :: 0 <= j < n ==>
      records[j] == VectorRecord(rows[j].id, EmbeddingOf(chunks, j, embed), Metadata(docId, rows[j].id, chunks[j], created))
  }

  /**
   * `insertChunkVectors`: walk the chunks ten at a time; embed each batch,
   * create a row per chunk, and insert one vector record per chunk. `embed`
   * must answer a batch with one vector per text; `draws[j]` are the random
   * draws behind chunk `j`'s id, and `now` is the rows' creation time.
   */
  method InsertChunkVectors(table: map<string, ChunkRow>, docId: string, created: int, chunks: seq<string>,
                            embed: seq<string> -> seq<seq<real>>, now: int, draws: seq<seq<Draw>>)
    returns (batches: seq<seq<string>>, table': map<string, ChunkRow>, rows: seq<ChunkRow>, records: seq<VectorRecord>)
    requires forall b :: |embed(b)| == |b|
    requires |draws| == |chunks| && forall j :: 0 <= j < |draws| ==> |draws[j]| >= DefaultLength
    ensures batches == Batches(chunks)
    ensures RowsFor(rows, docId, chunks, draws)
    ensures StoredRows(table, table', rows, docId)
    ensures |records| == |chunks|
    ensures forall j :: 0 <= j < |records| ==>
      records[j] == VectorRecord(rows[j].id, EmbeddingOf(chunks, j, embed), Metadata(docId, rows[j].id, chunks[j], created))
  {
    batches, table', rows, records := [], table, [], [];
    var i := 0;
    while i < |chunks|
      invariant i % BatchSize == 0 && i <= |chunks| + BatchSize - 1
      invariant batches + BatchesFrom(chunks, i) == Batches(chunks)
      invariant Inserted(chunks, Min(i, |chunks|), embed, draws, docId, created, rows, records)
      invariant StoredRows(table, table', rows, docId)
      decreases |chunks| - i
    {
      var chunkBatch := chunks[i..Min(i + BatchSize, |chunks|)];
      var embeddingBatch := embed(chunkBatch);
      var batchTable, batchRows, batchRecords := InsertBatch(table', docId, created, now, chunkBatch, embeddingBatch, draws[i..]);
      BatchStep(chunks, i, embed, draws, docId, created, rows, records, batchRows, batchRecords);
      StoredRowsStep(table, table', batchTable, rows, batchRows, docId);
      assert BatchesFrom(chunks, i) == [chunkBatch] + BatchesFrom(chunks, i + BatchSize);
      batches := batches + [chunkBatch];
      table', rows, records := batchTable, rows + batchRows, records + batchRecords;
      i := i + BatchSize;
    }
    assert chunks[..|chunks|] == chunks;
  }

  /** The rows and records of one more batch extend those of the chunks before it. */
  lemma BatchStep(chunks: seq<string>, i: nat, embed: seq<string> -> seq<seq<real>>, draws: seq<seq<Draw>>,
                  docId: string, created: int, rows: seq<ChunkRow>, records: seq<VectorRecord>,
                  batchRows: seq<ChunkRow>, batchRecords: seq<VectorRecord>)
    requires forall b :: |embed(b)| == |b|
    requires i % BatchSize == 0 && i < |chunks|
    requires |draws| == |chunks| && forall j :: 0 <= j < |draws| ==> |draws[j]| >= DefaultLength
    requires Inserted(chunks, i, embed, draws, docId, created, rows, records)
    requires var chunkBatch := chunks[i..Min(i + BatchSize, |chunks|)];
      RowsFor(batchRows, docId, chunkBatch, draws[i..]) && |batchRecords| == |chunkBatch| &&
      forall j :: 0 <= j < |batchRecords| ==>
        batchRecords[j] == VectorRecord(batchRows[j].id, embed(chunkBatch)[j], Metadata(docId, batchRows[j].id, chunkBatch[j], created))
    ensures Inserted(chunks, Min(i + BatchSize, |chunks|), embed, draws, docId, created, rows + batchRows, records + batchRecords)
  {
    var n := Min(i + BatchSize, |chunks|);
    RowsForAppend(rows, batchRows, docId, chunks, i, n, draws);
    RecordsStep(chunks, i, embed, docId, created, rows + batchRows, records, batchRecords);
  }

  /** The rows of the first `i` chunks followed by those of `chunks[i..n]` are the rows of the first `n`. */
  lemma RowsForAppend(rows: seq<ChunkRow>, batchRows: seq<ChunkRow>, docId: string, chunks: seq<string>, i: nat, n: nat,
                      draws: seq<seq<Draw>>)
    requires i <= n <= |chunks| && |draws| == |chunks| && forall j :: 0 <= j < |draws| ==> |draws[j]| >= DefaultLength
    requires RowsFor(rows, docId, chunks[..i], draws)
    requires RowsFor(batchRows, docId, chunks[i..n], draws[i..])
    ensures RowsFor(rows + batchRows, docId, chunks[..n], draws)
  {
    var rows' := rows + batchRows;
    forall j | 0 <= j < n
      ensures rows'[j].id == DefaultId(None, draws[j]) && rows'[j].docId == docId && rows'[j].text == chunks[..n][j]
    {
      if j < i {
        assert rows'[j] == rows[j] && chunks[..i][j] == chunks[j];
      } else {
        assert rows'[j] == batchRows[j - i] && draws[i..][j - i] == draws[j] && chunks[i..n][j - i] == chunks[j];
      }
    }
  }

  /** The records of one more batch extend those of the chunks before it. */
  lemma RecordsStep(chunks: seq<string>, i: nat, embed: seq<string> -> seq<seq<real>>, docId: string, created: int,
                    rows': seq<ChunkRow>, records: seq<VectorRecord>, batchRecords: seq<VectorRecord>)
    requires forall b :: |embed(b)| == |b|
    requires i % BatchSize == 0 && i < |chunks| && |rows'| == Min(i + BatchSize, |chunks|)
    requires |records| == i && forall j :: 0 <= j < i ==>
      records[j] == VectorRecord(rows'[j].id, EmbeddingOf(chunks, j, embed), Metadata(docId, rows'[j].id, chunks[j], created))
    requires var chunkBatch := chunks[i..Min(i + BatchSize, |chunks|)];
      |batchRecords| == |chunkBatch| &&
      forall j :: 0 <= j < |batchRecords| ==>
        batchRecords[j] == VectorRecord(rows'[i + j].id, embed(chunkBatch)[j], Metadata(docId, rows'[i + j].id, chunkBatch[j], created))
    ensures var records' := records + batchRecords;
      |records'| == |rows'| &&
      forall j :: 0 <= j < |records'| ==>
        records'[j] == VectorRecord(rows'[j].id, EmbeddingOf(chunks, j, embed), Metadata(docId, rows'[j].id, chunks[j], created))
  {
    var n := Min(i + BatchSize, |chunks|);
    var chunkBatch := chunks[i..n];
    var records' := records + batchRecords;
    forall j | i <= j < n
      ensures records'[j] == VectorRecord(rows'[j].id, EmbeddingOf(chunks, j, embed), Metadata(docId, rows'[j].id, chunks[j], created))
    {
      SameBatch(i, j);
      assert BatchOf(chunks, j) == chunkBatch;
      assert records'[j] == batchRecords[j - i] && chunkBatch[j - i] == chunks[j];
    }
  }

  /** A chunk `j` in the ten after a batch start `i` travels in the batch starting at `i`, at offset `j - i`. */
  lemma SameBatch(i: nat, j: nat)
    requires i % BatchSize == 0 && i <= j < i + BatchSize
    ensures j / BatchSize * BatchSize == i && j % BatchSize == j - i
  {
    var b := i / BatchSize;
    assert i == b * BatchSize;
    DivInBatch(b, j - i);
  }

  lemma DivInBatch(b: nat, k: nat)
    requires k < BatchSize
    ensures (b * BatchSize + k) / BatchSize == b
    ensures (b * BatchSize + k) % BatchSize == k
  {
  }

  /** Writing one more batch keeps the stored-rows picture of everything written so far. */
  lemma StoredRowsStep(table: map<string, ChunkRow>, mid: map<string, ChunkRow>, table': map<string, ChunkRow>,
                       rows: seq<ChunkRow>, batchRows: seq<ChunkRow>, docId: string)
    requires StoredRows(table, mid, rows, docId)
    requires StoredRows(mid, table', batchRows, docId)
    ensures StoredRows(table, table', rows + batchRows, docId)
  {
    var all := rows + batchRows;
    forall j | 0 <= j < |all| ensures all[j].id in table' && table'[all[j].id].docId == docId {
      if j >= |rows| {
        assert all[j] == batchRows[j - |rows|];
      } else {
        assert all[j] == rows[j];
        if exists t :: 0 <= t < |batchRows| && batchRows[t].id == rows[j].id {
          var t :| 0 <= t < |batchRows| && batchRows[t].id == rows[j].id;
        }
      }
    }
    forall k | k in table' ensures k in table || exists j :: 0 <= j < |all| && all[j].id == k {
      if k !in mid {
        var t :| 0 <= t < |batchRows| && batchRows[t].id == k;
        assert all[|rows| + t] == batchRows[t];
      } else if k !in table {
        var t :| 0 <= t < |rows| && rows[t].id == k;
        assert all[t] == rows[t];
      }
    }
    forall j | 0 <= j < |all| && LastWrite(all, j) ensures table'[all[j].id] == all[j] {
      if j >= |rows| {
        assert all[j] == batchRows[j - |rows|];
        forall t | j - |rows| < t < |batchRows| ensures batchRows[t].id != batchRows[j - |rows|].id {
          assert all[|rows| + t] == batchRows[t];
        }
      } else {
        assert all[j] == rows[j];
        forall t | j < t < |rows| ensures rows[t].id != rows[j].id { assert all[t] == rows[t]; }
        forall t | 0 <= t < |batchRows| ensures batchRows[t].id != rows[j].id { assert all[|rows| + t] == batchRows[t]; }
      }
    }
    forall k | k in table && (forall j :: 0 <= j < |all| ==> all[j].id != k) ensures table'[k] == table[k] {
      forall j | 0 <= j < |rows| ensures rows[j].id != k { assert all[j] == rows[j]; }
      forall j | 0 <= j < |batchRows| ensures batchRows[j].id != k { assert all[|rows| + j] == batchRows[j]; }
    }
  }

  // ------------------------------------------------------ queryChunkVectors

  /** The metadata filter on `timestamp`. */
  datatype MetadataFilter = NoFilter | AtLeast(from: int) | Before(to: int)

  /** The options every vector query carries. */
  datatype QueryOptions = QueryOptions(topK: nat, returnValues: bool, returnMetadata: string, filter: MetadataFilter)

  const VectorTopK: nat := 20

  /**
   * The filter the query ends up with: none when neither bound is truthy,
   * `$gte from` when only `from` is, and `$lt to` whenever `to` is, which
   * discards `from`.
   */
  function TimestampFilter(timeframe: Option<Timeframe>): (filter: MetadataFilter)
    ensures filter == NoFilter <==> !TruthyInt(From(timeframe)) && !TruthyInt(To(timeframe))
    ensures TruthyInt(To(timeframe)) ==> filter == Before(To(timeframe).value)
    ensures TruthyInt(From(timeframe)) && !TruthyInt(To(timeframe)) ==> filter == AtLeast(From(timeframe).value)
  {
    if TruthyInt(To(timeframe)) then Before(To(timeframe).value)
    else if TruthyInt(From(timeframe)) then AtLeast(From(timeframe).value)
    else NoFilter
  }

  /**
   * `queryChunkVectors`: embed each question, build the timestamp filter
   * (`$gte from` when `from` is truthy, overwritten by `$lt to` when `to` is
   * truthy), and run one top-20 query per question.
   */
  method QueryChunkVectors(queries: seq<string>, timeframe: Option<Timeframe>,
                           embed: string -> seq<real>, search: (seq<real>, QueryOptions) -> seq<VectorMatch>)
    returns (filter: MetadataFilter, results: seq<seq<VectorMatch>>)
    ensures filter == TimestampFilter(timeframe)
    ensures |results| == |queries|
    ensures forall i :: 0 <= i < |queries| ==>
      results[i] == search(embed(queries[i]), QueryOptions(VectorTopK, false, "all", filter))
  {
    var queryVectors := seq(|queries|, i requires 0 <= i < |queries| => embed(queries[i]));
    filter := NoFilter;
    if TruthyInt(From(timeframe)) {
      filter := AtLeast(From(timeframe).value);
    }
    if TruthyInt(To(timeframe)) {
      filter := Before(To(timeframe).value);
    }
    var options := QueryOptions(VectorTopK, false, "all", filter);
    results := [];
    for i := 0 to |queryVectors|
      invariant |results| == i
      invariant forall j :: 0 <= j < i ==> results[j] == search(queryVectors[j], options)
    {
      results := results + [search(queryVectors[i], options)];
    }
  }
}

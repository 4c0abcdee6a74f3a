/**
 * The D1 helpers of contextual-rag/src/db/index.ts. Tables are maps from the
 * primary key to the row; `createDoc`/`createChunk` are upserts on the id,
 * `getChunk`/`listDocsByIds` are lookups, and `searchChunks` builds
 * one full-text query per keyword and concatenates what the queries return.
 * The SQL engine (bm25 ranking, MATCH) is an oracle `run` from query to rows.
 */
module Db {

  import opened Wrappers
  import opened Js
  import opened Grouping
  import opened Sequences
  import opened Schemas

  // ---------------------------------------------------------------- tables

  /** A row of `docs`; `created` and `updated` are millisecond timestamps. */
  datatype DocRow = DocRow(id: string, contents: Option<string>, created: int, updated: int)

  /** The values handed to `createDoc`; an absent field is `None`. */
  datatype InsertDoc = InsertDoc(id: Option<string>, contents: Option<string>, created: Option<int>, updated: Option<int>)

  /** A row of `chunks`. */
  datatype ChunkRow = ChunkRow(id: string, docId: string, text: string, created: int)

  /** The values handed to `createChunk`; `docId` and `text` are required. */
  datatype InsertChunk = InsertChunk(id: Option<string>, docId: string, text: string, created: Option<int>)

  /** The table after a write, and the row `.returning()` hands back. */
  datatype Upsert<R> = Upsert(table: map<string, R>, row: R)

  function Or<T>(x: Option<T>, otherwise: T): T {
    if x.Some? then x.value else otherwise
  }

  /**
   * `createDoc`: insert, or on a clash of ids overwrite with the given fields.
   * A fresh row takes its missing id from `randomString()` and its missing
   * timestamps from `now` (`created`'s default and `updated`'s `$onUpdate`);
   * an overwritten row keeps every field that was not given, except that
   * `updated` is refreshed to `now`.
   */
  function CreateDoc(table: map<string, DocRow>, doc: InsertDoc, now: int, draws: seq<Draw>): (res: Upsert<DocRow>)
    requires |draws| >= DefaultLength
    ensures res.row.id == DefaultId(doc.id, draws)
    ensures res.table == table[res.row.id := res.row]
    ensures res.row.id !in table ==>
      res.row == DocRow(res.row.id, doc.contents, Or(doc.created, now), Or(doc.updated, now))
    ensures res.row.id in table ==>
      var old_ := table[res.row.id];
      res.row.contents == (if doc.contents.Some? then doc.contents else old_.contents) &&
      res.row.created == Or(doc.created, old_.created) &&
      res.row.updated == Or(doc.updated, now)
  {
    var id := DefaultId(doc.id, draws);
    var row :=
      if id in table then
        var prior := table[id];
        DocRow(id, if doc.contents.Some? then doc.contents else prior.contents,
               Or(doc.created, prior.created), Or(doc.updated, now))
      else
        DocRow(id, doc.contents, Or(doc.created, now), Or(doc.updated, now));
    Upsert(table[id := row], row)
  }

  /** `createChunk`: the same upsert on `chunks`, which has no `updated` column. */
  function CreateChunk(table: map<string, ChunkRow>, chunk: InsertChunk, now: int, draws: seq<Draw>): (res: Upsert<ChunkRow>)
    requires |draws| >= DefaultLength
    ensures res.row.id == DefaultId(chunk.id, draws)
    ensures res.table == table[res.row.id := res.row]
    ensures res.row.docId == chunk.docId && res.row.text == chunk.text
    ensures res.row.created == Or(chunk.created, if res.row.id in table then table[res.row.id].created else now)
  {
    var id := DefaultId(chunk.id, draws);
    var created := Or(chunk.created, if id in table then table[id].created else now);
    var row := ChunkRow(id, chunk.docId, chunk.text, created);
    Upsert(table[id := row], row)
  }

  /** `getChunk`: the row whose id and `docId` both match, or null. */
  function GetChunk(table: map<string, ChunkRow>, docId: string, id: string): (r: Option<ChunkRow>)
    ensures r.Some? <==> id in table && table[id].docId == docId
    ensures r.Some? ==> r.value.docId == docId
  {
    if id in table && table[id].docId == docId then Some(table[id]) else None
  }

  /**
   * `listDocsByIds`: the rows whose id is among `ids`. SQL gives no order, so
   * the rows come in `scan`, the table's storage order, which lists each stored id once.
   */
  function ListDocsByIds(table: map<string, DocRow>, ids: seq<string>, scan: seq<string>): (r: seq<DocRow>)
    requires forall k :: k in scan ==> k in table
    requires forall k :: k in table ==> k in scan
    requires Distinct(scan)
  {
    var hit := Filter(scan, k => k in ids);
    seq(|hit|, i requires 0 <= i < |hit| => table[hit[i]])
  }

  /** Every listed row is stored under an asked-for id, and every asked-for stored id is listed. */
  lemma ListDocsByIdsMembers(table: map<string, DocRow>, ids: seq<string>, scan: seq<string>, k: string)
    requires forall k :: k in scan ==> k in table
    requires forall k :: k in table ==> k in scan
    requires Distinct(scan)
    ensures forall row :: row in ListDocsByIds(table, ids, scan) ==> exists j :: j in ids && j in table && table[j] == row
    ensures k in ids && k in table ==> table[k] in ListDocsByIds(table, ids, scan)
  {
    var hit := Filter(scan, k => k in ids);
    var r := ListDocsByIds(table, ids, scan);
    forall row | row in r ensures exists j :: j in ids && j in table && table[j] == row {
      var i :| 0 <= i < |r| && r[i] == row;
      assert table[hit[i]] == row;
    }
    if k in ids && k in table {
      var p :| 0 <= p < |scan| && scan[p] == k;
      var q :| 0 <= q < |hit| && hit[q] == k;
      assert r[q] == table[k];
    }
  }

  /** Reading back what an upsert wrote gives the returned row; other ids read as before. */
  lemma CreateChunkThenGet(table: map<string, ChunkRow>, chunk: InsertChunk, now: int, draws: seq<Draw>, docId: string, id: string)
    requires |draws| >= DefaultLength
    ensures var res := CreateChunk(table, chunk, now, draws);
      GetChunk(res.table, chunk.docId, res.row.id) == Some(res.row) &&
      (id != res.row.id ==> GetChunk(res.table, docId, id) == GetChunk(table, docId, id))
  {
  }

  /** Writing the same document twice under its id stores what the first write stored, up to `updated`. */
  lemma CreateDocTwice(table: map<string, DocRow>, doc: InsertDoc, now1: int, now2: int, draws: seq<Draw>)
    requires |draws| >= DefaultLength && doc.id.Some?
    ensures var first := CreateDoc(table, doc, now1, draws);
      var second := CreateDoc(first.table, doc, now2, draws);
      second.row == first.row.(updated := Or(doc.updated, now2)) &&
      second.table.Keys == first.table.Keys
  {
  }

  // ---------------------------------------------------------- searchChunks

  /** The default `limit` of `searchChunks`. */
  const DefaultLimit: nat := 40

  /** A raw `chunks.*, bm25(...) AS rank` row: the document id still under its column name. */
  datatype ChunkSearch = ChunkSearch(id: string, doc_id: string, text: string, rank: real)

  /** `{ from?: number, to?: number }`, as millisecond timestamps. */
  datatype Timeframe = Timeframe(from: Option<int>, to: Option<int>)

  /** `timeframe?.from` */
  function From(timeframe: Option<Timeframe>): Option<int> {
    if timeframe.Some? then timeframe.value.from else None
  }

  /** `timeframe?.to` */
  function To(timeframe: Option<Timeframe>): Option<int> {
    if timeframe.Some? then timeframe.value.to else None
  }

  /**
   * One full-text query: `MATCH '<term>'`, the optional strict bounds
   * `AND created > <after>` and `AND created < <before>`, `ORDER BY rank`, `LIMIT <limit>`.
   */
  datatype LexQuery = LexQuery(term: string, after: Option<int>, before: Option<int>, limit: nat)

  /** The characters JavaScript's `trim` removes and `\s` matches. */
  predicate IsSpace(c: char) {
    c == '\t' || c == '\n' || c == '\U{000B}' || c == '\U{000C}' || c == '\r' || c == ' '
    || c == '\U{00A0}' || c == '\U{1680}' || ('\U{2000}' <= c <= '\U{200A}')
    || c == '\U{2028}' || c == '\U{2029}' || c == '\U{202F}' || c == '\U{205F}'
    || c == '\U{3000}' || c == '\U{FEFF}'
  }

  /** `\w`: an ASCII letter, digit or underscore. */
  predicate IsWord(c: char) {
    ('A' <= c <= 'Z') || ('a' <= c <= 'z') || ('0' <= c <= '9') || c == '_'
  }

  /** What `replace(/[^\w\s]/g, '')` lets through. */
  predicate Allowed(c: char) {
    IsWord(c) || IsSpace(c)
  }

  /** How many white-space characters `s` starts with. */
  function Leading(s: string): (n: nat)
    ensures n <= |s|
    ensures forall i :: 0 <= i < n ==> IsSpace(s[i])
    ensures n < |s| ==> !IsSpace(s[n])
  {
    if s != [] && IsSpace(s[0]) then
      var n := Leading(s[1..]);
      assert forall i :: 1 <= i < 1 + n ==> s[i] == s[1..][i - 1];
      1 + n
    else 0
  }

  /** The length of `s` without its trailing white space. */
  function Kept(s: string): (n: nat)
    ensures n <= |s|
    ensures forall i :: n <= i < |s| ==> IsSpace(s[i])
    ensures n > 0 ==> !IsSpace(s[n - 1])
  {
    if s != [] && IsSpace(s[|s| - 1]) then Kept(s[..|s| - 1]) else |s|
  }

  /** `s.trim()`: a middle piece of `s` with no white space at either end; only white space is cut. */
  function Trim(s: string): (r: string)
    ensures Leading(s) + |r| <= |s| && r == s[Leading(s)..Leading(s) + |r|]
    ensures r != [] ==> !IsSpace(r[0]) && !IsSpace(r[|r| - 1])
    ensures forall i :: 0 <= i < Leading(s) ==> IsSpace(s[i])
    ensures forall i :: Leading(s) + |r| <= i < |s| ==> IsSpace(s[i])
  {
    var a := Leading(s);
    var front := s[a..];
    var n := Kept(front);
    assert front[..n] == s[a..a + n];
    assert forall i :: a + n <= i < |s| ==> s[i] == front[i - a];
    front[..n]
  }

  /** `term.trim().replace(/[^\w\s]/g, '')`. */
  function Sanitize(term: string): (r: string)
    ensures forall i :: 0 <= i < |r| ==> Allowed(r[i])
    ensures '\'' !in r
  {
    Filter(Trim(term), Allowed)
  }

  /** The sanitised term is the trimmed needle with some characters removed and the rest in order. */
  lemma SanitizeSubsequence(term: string)
    ensures IsSubsequence(Sanitize(term), Trim(term))
    ensures forall i :: 0 <= i < |Trim(term)| && Allowed(Trim(term)[i]) ==> Trim(term)[i] in Sanitize(term)
  {
    FilterSubsequence(Trim(term), Allowed);
  }

  /** A term of word characters and inner spaces passes through unchanged. */
  lemma SanitizeKeepsClean(term: string)
    requires forall i :: 0 <= i < |term| ==> Allowed(term[i])
    requires term != [] ==> !IsSpace(term[0]) && !IsSpace(term[|term| - 1])
    ensures Sanitize(term) == term
  {
    var t := Trim(term);
    var a := Leading(term);
    assert t == term;
    FilterAll(term, Allowed);
  }

  predicate IsNonEmpty(needle: string) {
    needle != ""
  }

  /** The query built for one needle; a bound is present exactly when its timestamp is truthy. */
  function BuildQuery(term: string, timeframe: Option<Timeframe>, limit: nat): (q: LexQuery)
    ensures q.term == Sanitize(term) && q.limit == limit
    ensures q.after.Some? <==> TruthyInt(From(timeframe))
    ensures q.before.Some? <==> TruthyInt(To(timeframe))
    ensures q.after.Some? ==> q.after == From(timeframe)
    ensures q.before.Some? ==> q.before == To(timeframe)
  {
    LexQuery(Sanitize(term),
             if TruthyInt(From(timeframe)) then From(timeframe) else None,
             if TruthyInt(To(timeframe)) then To(timeframe) else None,
             limit)
  }

  /** `needles.filter(Boolean).map(...)`: one query per non-empty needle, in needle order. */
  function Queries(needles: seq<string>, timeframe: Option<Timeframe>, limit: nat): (qs: seq<LexQuery>)
    ensures var kept := Filter(needles, IsNonEmpty);
      |qs| == |kept| && forall i :: 0 <= i < |qs| ==> qs[i] == BuildQuery(kept[i], timeframe, limit)
  {
    var kept := Filter(needles, IsNonEmpty);
    seq(|kept|, i requires 0 <= i < |kept| => BuildQuery(kept[i], timeframe, limit))
  }

  /** The rows each query returns, query by query. */
  function RowsPerQuery(qs: seq<LexQuery>, run: LexQuery -> seq<ChunkSearch>): (rows: seq<seq<ChunkSearch>>)
    ensures |rows| == |qs|
    ensures forall i :: 0 <= i < |qs| ==> rows[i] == run(qs[i])
  {
    if qs == [] then [] else RowsPerQuery(qs[..|qs| - 1], run) + [run(qs[|qs| - 1])]
  }

  /** `searchChunks`: run every query and concatenate the answers in query order (`results.flat()`). */
  function SearchChunks(needles: seq<string>, timeframe: Option<Timeframe>, limit: nat,
                        run: LexQuery -> seq<ChunkSearch>): seq<ChunkSearch>
  {
    Flatten(RowsPerQuery(Queries(needles, timeframe, limit), run))
  }

  /** No needle, or only empty ones: no query is run and nothing is found. */
  lemma SearchChunksNoNeedles(needles: seq<string>, timeframe: Option<Timeframe>, limit: nat,
                              run: LexQuery -> seq<ChunkSearch>)
    requires forall i :: 0 <= i < |needles| ==> needles[i] == ""
    ensures Queries(needles, timeframe, limit) == []
    ensures SearchChunks(needles, timeframe, limit, run) == []
  {
    FilterNone(needles, IsNonEmpty);
  }

  /** One more needle appends its query's rows when it is non-empty, and changes nothing when it is empty. */
  lemma {:induction false} SearchChunksAppend(needles: seq<string>, needle: string, timeframe: Option<Timeframe>,
                                              limit: nat, run: LexQuery -> seq<ChunkSearch>)
    ensures SearchChunks(needles + [needle], timeframe, limit, run) ==
      SearchChunks(needles, timeframe, limit, run) + if needle != "" then run(BuildQuery(needle, timeframe, limit)) else []
  {
    var qs := Queries(needles, timeframe, limit);
    QueriesAppend(needles, needle, timeframe, limit);
    if needle != "" {
      var q := BuildQuery(needle, timeframe, limit);
      RowsPerQueryAppend(qs, q, run);
      FlattenAppend(RowsPerQuery(qs, run), run(q));
    }
  }

  lemma QueriesAppend(needles: seq<string>, needle: string, timeframe: Option<Timeframe>, limit: nat)
    ensures Queries(needles + [needle], timeframe, limit) ==
      Queries(needles, timeframe, limit) + if needle != "" then [BuildQuery(needle, timeframe, limit)] else []
  {
    FilterAppend(needles, needle, IsNonEmpty);
    var kept := Filter(needles, IsNonEmpty);
    var kept' := Filter(needles + [needle], IsNonEmpty);
    var qs := Queries(needles, timeframe, limit);
    var qs' := Queries(needles + [needle], timeframe, limit);
    var tail := if needle != "" then [BuildQuery(needle, timeframe, limit)] else [];
    assert |qs'| == |qs + tail|;
    forall i | 0 <= i < |qs'| ensures qs'[i] == (qs + tail)[i] {
      if i < |qs| {
        assert kept'[i] == kept[i];
      }
    }
  }

  lemma RowsPerQueryAppend(qs: seq<LexQuery>, q: LexQuery, run: LexQuery -> seq<ChunkSearch>)
    ensures RowsPerQuery(qs + [q], run) == RowsPerQuery(qs, run) + [run(q)]
  {
    assert (qs + [q])[..|qs|] == qs;
  }

  /** Every row found was returned by one of the queries, and every row any query returns is found. */
  lemma SearchChunksRows(needles: seq<string>, timeframe: Option<Timeframe>, limit: nat,
                         run: LexQuery -> seq<ChunkSearch>, row: ChunkSearch)
    ensures var qs := Queries(needles, timeframe, limit);
      row in SearchChunks(needles, timeframe, limit, run) <==> exists i :: 0 <= i < |qs| && row in run(qs[i])
  {
    FlattenMember(RowsPerQuery(Queries(needles, timeframe, limit), run), row);
  }

  /** When the engine honours `LIMIT`, at most `limit` rows come back per non-empty needle. */
  lemma SearchChunksBound(needles: seq<string>, timeframe: Option<Timeframe>, limit: nat,
                          run: LexQuery -> seq<ChunkSearch>)
    requires forall q: LexQuery :: |run(q)| <= q.limit
    ensures |SearchChunks(needles, timeframe, limit, run)| <= limit * |Filter(needles, IsNonEmpty)|
  {
    FlattenBound(RowsPerQuery(Queries(needles, timeframe, limit), run), limit);
  }
}

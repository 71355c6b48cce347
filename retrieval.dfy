/**
 * Intent detection and the retrieval helpers of retrieval.py: the keyword
 * ladder, metadata decoding, the two row mappers, and the `search_chunks`
 * router. The database is a parameter (`Database`): a table lookup by code
 * and the `search_chunks_multi_type` RPC, each returning the response's
 * `data` (None when the response carries none).
 */
module Retrieval {
  import opened Wrappers
  import opened Text
  import opened Patterns

  datatype Intent = CodeSpecific | Classification | Procedural | Generic

  /** The enum's string value. */
  function IntentValue(i: Intent): string {
    match i
    case CodeSpecific => "code_specific"
    case Classification => "classification"
    case Procedural => "procedural"
    case Generic => "generic"
  }

  /** `\b[0-9][A-Za-z][0-9]{3}\b` compiled IGNORECASE: the same words as the
      registry's dual-use pattern. */
  const NORMATIVE_CODE_PATTERN: Pattern := CodeShape

  const CLASSIFICATION_KEYWORDS: seq<string> := ["che codice", "voce doganale", "classificazione"]

  const PROCEDURAL_KEYWORDS: seq<string> :=
    ["cosa devo fare", "obblighi", "procedura", "autorizzazione", "esportare"]

  /** `any(k in q for k in keywords)` */
  predicate AnyKeyword(q: string, keywords: seq<string>) {
    exists k :: k in keywords && Contains(q, k)
  }

  /** The keyword ladder over the lower-cased query (None counts as ""). */
  function DetectIntent(query: Option<string>): Intent {
    var q := Lower(if query.None? then "" else query.value);
    if Found(NORMATIVE_CODE_PATTERN, q) then CodeSpecific
    else if AnyKeyword(q, CLASSIFICATION_KEYWORDS) then Classification
    else if AnyKeyword(q, PROCEDURAL_KEYWORDS) then Procedural
    else Generic
  }

  /** A digit-letter-3-digit word decides the intent, whatever keywords the
      query also holds; and it is the only way to get CODE_SPECIFIC. */
  lemma CodeWins(query: string)
    ensures DetectIntent(Some(query)) == CodeSpecific <==> Occurs(CodeShape, query)
  {
    LowerKeepsOccurs(CodeShape, query);
    FoundIffOccurs(CodeShape, Lower(query));
  }

  /** Without a code, classification keywords win over procedural ones, and
      GENERIC is left when neither list matches. */
  lemma KeywordLadder(query: string)
    requires !Occurs(CodeShape, query)
    ensures (DetectIntent(Some(query)) == Classification)
        <==> AnyKeyword(Lower(query), CLASSIFICATION_KEYWORDS)
    ensures (DetectIntent(Some(query)) == Procedural)
        <==> (!AnyKeyword(Lower(query), CLASSIFICATION_KEYWORDS) && AnyKeyword(Lower(query), PROCEDURAL_KEYWORDS))
    ensures (DetectIntent(Some(query)) == Generic)
        <==> (!AnyKeyword(Lower(query), CLASSIFICATION_KEYWORDS) && !AnyKeyword(Lower(query), PROCEDURAL_KEYWORDS))
  {
    CodeWins(query);
  }

  /** A missing or empty query holds no code and no keyword: GENERIC. */
  lemma EmptyQueryIsGeneric()
    ensures DetectIntent(None) == Generic && DetectIntent(Some("")) == Generic
  {
    assert Lower("") == "";
    FoundIffOccurs(NORMATIVE_CODE_PATTERN, "");
    forall k | k in CLASSIFICATION_KEYWORDS + PROCEDURAL_KEYWORDS
      ensures !Contains("", k)
    {
      assert |k| > 0;
    }
  }

  /** Matching runs on the lower-cased text, so case never matters. */
  lemma IntentIgnoresCase(query: string)
    ensures DetectIntent(Some(Lower(query))) == DetectIntent(Some(query))
  {
    LowerIdempotent(query);
  }

  /** The procedural question of the test suite is routed as CODE_SPECIFIC
      by this ladder, because it carries a dual-use code. */
  lemma ProceduralQuestionWithCode()
    ensures DetectIntent(Some("cosa devo fare per esportare 2B002?")) == CodeSpecific
  {
    var s := "cosa devo fare per esportare 2B002?";
    assert s[29..34] == "2B002";
    assert MatchAt(CodeShape, s, 29, 34);
    CodeWins(s);
  }

  // ---------------------------------------------------------------------
  // Metadata and rows
  // ---------------------------------------------------------------------

  /** A JSON value, as the database driver or `json.loads` returns it. */
  datatype Json =
    | JNull
    | JBool(b: bool)
    | JNumber(n: real)
    | JString(s: string)
    | JArray(items: seq<Json>)
    | JObject(fields: map<string, Json>)

  const EMPTY_OBJECT: Json := JObject(map[])

  /** `_parse_metadata`: total. `loads` is `json.loads`, Err when it raises. */
  function ParseMetadata(raw: Json, loads: string -> Result<Json, string>): (r: Json)
    ensures raw.JObject? ==> r == raw
    ensures raw.JString? && loads(raw.s).Ok? ==> r == loads(raw.s).value
    ensures !raw.JObject? && !(raw.JString? && loads(raw.s).Ok?) ==> r == EMPTY_OBJECT
    ensures r.JObject? || (raw.JString? && loads(raw.s) == Ok(r))
  {
    match raw
    case JObject(_) => raw
    case JString(s) =>
      (match loads(s)
       case Ok(v) => v
       case Err(_) => EMPTY_OBJECT)
    case _ => EMPTY_OBJECT
  }

  /** A database row: `text`, `metadata`, and the optional
      `celex_consolidated` and `similarity` columns. */
  datatype Row = Row(text: string, metadata: Json, celex: Option<string>, similarity: Option<real>)

  /** A chunk as the rest of the program reads it: `chunk_text`, `metadata`,
      `celex_consolidated`, `similarity`, and the optional `article_number`,
      `title` and `source_url` keys, "" when absent or empty. */
  datatype Chunk = Chunk(
    text: string,
    metadata: Json,
    celex: Option<string>,
    similarity: Option<real>,
    articleNumber: string,
    title: string,
    sourceUrl: string)

  function ChunkOf(r: Row, similarity: Option<real>, loads: string -> Result<Json, string>): Chunk {
    Chunk(r.text, ParseMetadata(r.metadata, loads), r.celex, similarity, "", "", "")
  }

  /** `response.data or []` */
  function RowsOf(data: Option<seq<Row>>): seq<Row> {
    if data.None? then [] else data.value
  }

  /** The comprehension of `_structured_retrieval_by_code`: one chunk per row,
      in order, each with similarity 1.0. */
  function StructuredChunks(data: Option<seq<Row>>, loads: string -> Result<Json, string>): (r: seq<Chunk>)
    ensures |r| == |RowsOf(data)|
    ensures forall k :: 0 <= k < |r| ==>
              && r[k].similarity == Some(1.0)
              && r[k].text == RowsOf(data)[k].text
              && r[k].celex == RowsOf(data)[k].celex
              && r[k].metadata == ParseMetadata(RowsOf(data)[k].metadata, loads)
  {
    var rows := RowsOf(data);
    seq(|rows|, k requires 0 <= k < |rows| => ChunkOf(rows[k], Some(1.0), loads))
  }

  /** The rows `_vector_search_sql` returns: one chunk per row, in order,
      with the row's own similarity. */
  function VectorChunks(data: Option<seq<Row>>, loads: string -> Result<Json, string>): (r: seq<Chunk>)
    ensures |r| == |RowsOf(data)|
    ensures forall k :: 0 <= k < |r| ==>
              && r[k].similarity == RowsOf(data)[k].similarity
              && r[k].text == RowsOf(data)[k].text
              && r[k].celex == RowsOf(data)[k].celex
              && r[k].metadata == ParseMetadata(RowsOf(data)[k].metadata, loads)
  {
    var rows := RowsOf(data);
    seq(|rows|, k requires 0 <= k < |rows| => ChunkOf(rows[k], rows[k].similarity, loads))
  }

  /** Parameters of the `search_chunks_multi_type` RPC. */
  datatype RpcParams = RpcParams(queryEmbedding: seq<real>, matchCount: int, typeFilters: Option<seq<string>>)

  /** `type_filters if type_filters else None` */
  function FiltersParam(filters: Option<seq<string>>): (r: Option<seq<string>>)
    ensures r.None? <==> filters.None? || filters.value == []
    ensures r.Some? ==> r == filters
  {
    if filters.Some? && filters.value != [] then filters else None
  }

  /** `_vector_search_sql`: one RPC call, then the rows mapped one by one. */
  method VectorSearchSql(
    embedding: seq<real>, topK: int, filters: Option<seq<string>>,
    rpc: RpcParams -> Option<seq<Row>>, loads: string -> Result<Json, string>)
    returns (parsed: seq<Chunk>)
    ensures parsed == VectorChunks(rpc(RpcParams(embedding, topK, FiltersParam(filters))), loads)
  {
    var params := RpcParams(embedding, topK, FiltersParam(filters));
    var rows := RowsOf(rpc(params));
    parsed := [];
    var i := 0;
    while i < |rows|
      invariant 0 <= i <= |rows|
      invariant |parsed| == i
      invariant forall k :: 0 <= k < i ==> parsed[k] == ChunkOf(rows[k], rows[k].similarity, loads)
    {
      var r := rows[i];
      parsed := parsed + [ChunkOf(r, r.similarity, loads)];
      i := i + 1;
    }
  }

  // ---------------------------------------------------------------------
  // search_chunks
  // ---------------------------------------------------------------------

  /** The database as seen by the router: the structured lookup by
      `metadata->>code` with a row limit, the vector RPC, and `json.loads`. */
  datatype Database = Database(
    byCode: (string, int) -> Option<seq<Row>>,
    rpc: RpcParams -> Option<seq<Row>>,
    loads: string -> Result<Json, string>)

  /** A call made to the database, in the order made. */
  datatype DbCall = ByCode(code: string, limit: int) | VectorRpc(params: RpcParams)

  /** A routing line `search_chunks` prints; `TraceText` gives its text. */
  datatype Trace =
    | IntentLine(intent: Intent)
    | StructuredLookup(code: string)
    | NoStructuredMatch
    | ArticlePass
    | NoArticleResults
    | AnnexCodePass
    | NoAnnexCodeResults
    | GlobalSearch

  function TraceText(t: Trace): string {
    match t
    case IntentLine(i) => "\n[routing] intent=" + IntentValue(i) + "\n"
    case StructuredLookup(code) => "[routing] structured retrieval by code=" + code
    case NoStructuredMatch => "[routing] no structured match \U{2192} fallback to vector"
    case ArticlePass => "[routing] first pass: article only"
    case NoArticleResults => "[routing] no article results \U{2192} fallback global"
    case AnnexCodePass => "[routing] first pass: annex_code only"
    case NoAnnexCodeResults => "[routing] no annex_code results \U{2192} fallback global"
    case GlobalSearch => "[routing] global search"
  }

  /** What `search_chunks` returns, the calls it made and the lines it printed. */
  datatype Routed = Routed(chunks: seq<Chunk>, structured: bool, calls: seq<DbCall>, log: seq<Trace>)

  const ARTICLE_FILTER: seq<string> := ["article"]
  const ANNEX_CODE_FILTER: seq<string> := ["annex_code"]

  /** `top_k if top_k else config.TOP_K` */
  function EffectiveTopK(topK: Option<int>, configTopK: int): int {
    if topK.None? || topK.value == 0 then configTopK else topK.value
  }

  function Global(embedding: seq<real>, k: int): RpcParams {
    RpcParams(embedding, k, None)
  }

  function Filtered(embedding: seq<real>, k: int, filter: seq<string>): RpcParams {
    RpcParams(embedding, k, FiltersParam(Some(filter)))
  }

  function GlobalStage(embedding: seq<real>, k: int, db: Database, calls: seq<DbCall>, log: seq<Trace>): Routed {
    var p := Global(embedding, k);
    Routed(VectorChunks(db.rpc(p), db.loads), false, calls + [VectorRpc(p)], log + [GlobalSearch])
  }

  function FilteredStage(
    intent: Intent, embedding: seq<real>, k: int, db: Database, calls: seq<DbCall>, log: seq<Trace>): Routed
  {
    if intent == Procedural then
      var p := Filtered(embedding, k, ARTICLE_FILTER);
      var found := VectorChunks(db.rpc(p), db.loads);
      var log' := log + [ArticlePass];
      if found != [] then Routed(found, false, calls + [VectorRpc(p)], log')
      else GlobalStage(embedding, k, db, calls + [VectorRpc(p)],
                       log' + [NoArticleResults])
    else if intent == Classification then
      var p := Filtered(embedding, k, ANNEX_CODE_FILTER);
      var found := VectorChunks(db.rpc(p), db.loads);
      var log' := log + [AnnexCodePass];
      if found != [] then Routed(found, false, calls + [VectorRpc(p)], log')
      else GlobalStage(embedding, k, db, calls + [VectorRpc(p)],
                       log' + [NoAnnexCodeResults])
    else GlobalStage(embedding, k, db, calls, log)
  }

  /** The code the structured lookup is made with: the upper-cased leftmost
      code of the original query. */
  function LookupCode(query: string): string
    requires Found(NORMATIVE_CODE_PATTERN, query)
  {
    FoundIffOccurs(NORMATIVE_CODE_PATTERN, query);
    Upper(Search(NORMATIVE_CODE_PATTERN, query).value)
  }

  /** The code of the query, if it has one. */
  function CodeOf(query: string): Option<string> {
    if Found(NORMATIVE_CODE_PATTERN, query) then Some(LookupCode(query)) else None
  }

  /** The router once the intent, the code and the row count are known. */
  function Route(intent: Intent, code: Option<string>, embedding: seq<real>, k: int, db: Database): Routed {
    var log := [IntentLine(intent)];
    if intent == CodeSpecific && code.Some? then
      var results := StructuredChunks(db.byCode(code.value, k), db.loads);
      var log' := log + [StructuredLookup(code.value)];
      if results != [] then Routed(results, true, [ByCode(code.value, k)], log')
      else FilteredStage(intent, embedding, k, db, [ByCode(code.value, k)], log' + [NoStructuredMatch])
    else FilteredStage(intent, embedding, k, db, [], log)
  }

  /** The router applied to the query's intent and code; a missing query
      has neither. */
  function SearchChunksSpec(
    query: Option<string>, embedding: seq<real>, topK: Option<int>, configTopK: int, db: Database): Routed
  {
    var code := if query.Some? then CodeOf(query.value) else None;
    Route(DetectIntent(query), code, embedding, EffectiveTopK(topK, configTopK), db)
  }

  /** `search_chunks`: guarded calls with early returns. */
  method SearchChunks(query: Option<string>, embedding: seq<real>, topK: Option<int>, configTopK: int, db: Database)
    returns (chunks: seq<Chunk>, structured: bool, calls: seq<DbCall>, log: seq<Trace>)
    ensures Routed(chunks, structured, calls, log) == SearchChunksSpec(query, embedding, topK, configTopK, db)
  {
    var k := if topK.Some? && topK.value != 0 then topK.value else configTopK;
    assert k == EffectiveTopK(topK, configTopK);
    EmptyQueryIsGeneric();
    var intent := DetectIntent(query);
    // The three intent branches below are exclusive, as the intent is one value.
    log := [IntentLine(intent)];
    calls := [];

    if intent == CodeSpecific {
      var found := Search(NORMATIVE_CODE_PATTERN, query.value);
      FoundIffOccurs(NORMATIVE_CODE_PATTERN, query.value);
      if found.Some? {
        var code := Upper(found.value);
        log := log + [StructuredLookup(code)];
        var results := StructuredChunks(db.byCode(code, k), db.loads);
        calls := [ByCode(code, k)];
        if results != [] {
          return results, true, calls, log;
        }
        log := log + [NoStructuredMatch];
      }
    }
    else if intent == Procedural {
      log := log + [ArticlePass];
      var articles := VectorSearchSql(embedding, k, Some(ARTICLE_FILTER), db.rpc, db.loads);
      calls := calls + [VectorRpc(Filtered(embedding, k, ARTICLE_FILTER))];
      if articles != [] {
        return articles, false, calls, log;
      }
      log := log + [NoArticleResults];
    }
    else if intent == Classification {
      log := log + [AnnexCodePass];
      var annexCodes := VectorSearchSql(embedding, k, Some(ANNEX_CODE_FILTER), db.rpc, db.loads);
      calls := calls + [VectorRpc(Filtered(embedding, k, ANNEX_CODE_FILTER))];
      if annexCodes != [] {
        return annexCodes, false, calls, log;
      }
      log := log + [NoAnnexCodeResults];
    }

    log := log + [GlobalSearch];
    chunks := VectorSearchSql(embedding, k, None, db.rpc, db.loads);
    calls := calls + [VectorRpc(Global(embedding, k))];
    structured := false;
  }

  /** The structured flag is set exactly when the intent is CODE_SPECIFIC,
      there is a code and the structured lookup for it returned rows; those
      rows are the result, all with similarity 1.0, and no vector search was
      made. */
  lemma RouteStructured(intent: Intent, code: Option<string>, embedding: seq<real>, k: int, db: Database)
    ensures var r := Route(intent, code, embedding, k, db);
      && (r.structured <==>
            intent == CodeSpecific && code.Some? && StructuredChunks(db.byCode(code.value, k), db.loads) != [])
      && (r.structured ==>
            && r.calls == [ByCode(code.value, k)]
            && r.chunks != []
            && forall c :: c in r.chunks ==> c.similarity == Some(1.0))
  {
  }

  /** On a query: the structured path is taken exactly when the query holds
      a code whose lookup returns rows. */
  lemma StructuredOnlyForCodes(query: string, embedding: seq<real>, topK: Option<int>, configTopK: int, db: Database)
    ensures var r := SearchChunksSpec(Some(query), embedding, topK, configTopK, db);
      var k := EffectiveTopK(topK, configTopK);
      && (CodeOf(query).Some? <==> Occurs(CodeShape, query))
      && (r.structured <==>
            CodeOf(query).Some? && StructuredChunks(db.byCode(CodeOf(query).value, k), db.loads) != [])
  {
    CodeWins(query);
    FoundIffOccurs(CodeShape, query);
    RouteStructured(DetectIntent(Some(query)), CodeOf(query), embedding, EffectiveTopK(topK, configTopK), db);
  }

  /** A GENERIC query makes exactly one, unfiltered, search. */
  lemma GenericSearchesOnce(code: Option<string>, embedding: seq<real>, k: int, db: Database)
    ensures var r := Route(Generic, code, embedding, k, db);
      && r.calls == [VectorRpc(Global(embedding, k))]
      && r.chunks == VectorChunks(db.rpc(Global(embedding, k)), db.loads)
      && !r.structured
  {
  }

  /** Without a query the search is the single unfiltered one. */
  lemma NoQuerySearchesOnce(embedding: seq<real>, topK: Option<int>, configTopK: int, db: Database)
    ensures var r := SearchChunksSpec(None, embedding, topK, configTopK, db);
      var k := EffectiveTopK(topK, configTopK);
      && r.calls == [VectorRpc(Global(embedding, k))]
      && r.chunks == VectorChunks(db.rpc(Global(embedding, k)), db.loads)
      && !r.structured
  {
    EmptyQueryIsGeneric();
  }

  /** A code whose structured lookup is empty goes straight to the global
      search: no filtered search in between. */
  lemma CodeMissGoesGlobal(code: string, embedding: seq<real>, k: int, db: Database)
    requires StructuredChunks(db.byCode(code, k), db.loads) == []
    ensures var r := Route(CodeSpecific, Some(code), embedding, k, db);
      && r.calls == [ByCode(code, k), VectorRpc(Global(embedding, k))]
      && r.chunks == VectorChunks(db.rpc(Global(embedding, k)), db.loads)
      && !r.structured
  {
  }

  /** PROCEDURAL and CLASSIFICATION first search with their one filter, and
      only on an empty result search once more, unfiltered. */
  lemma FilteredThenGlobal(intent: Intent, code: Option<string>, embedding: seq<real>, k: int, db: Database)
    requires intent in {Procedural, Classification}
    ensures var r := Route(intent, code, embedding, k, db);
      var filter := if intent == Procedural then ARTICLE_FILTER else ANNEX_CODE_FILTER;
      var first := VectorChunks(db.rpc(RpcParams(embedding, k, Some(filter))), db.loads);
      && !r.structured
      && (first != [] ==> r.calls == [VectorRpc(RpcParams(embedding, k, Some(filter)))] && r.chunks == first)
      && (first == [] ==>
            && r.calls == [VectorRpc(RpcParams(embedding, k, Some(filter))), VectorRpc(Global(embedding, k))]
            && r.chunks == VectorChunks(db.rpc(Global(embedding, k)), db.loads))
  {
  }

  /** One or two database calls, all with the effective row count, and every
      exit but the structured one ends with a vector search. */
  lemma AtMostTwoCalls(intent: Intent, code: Option<string>, embedding: seq<real>, k: int, db: Database)
    ensures var r := Route(intent, code, embedding, k, db);
      && 1 <= |r.calls| <= 2
      && (forall c :: c in r.calls && c.VectorRpc? ==>
            c.params.matchCount == k && c.params.queryEmbedding == embedding)
      && (forall c :: c in r.calls && c.ByCode? ==> c.limit == k)
      && (!r.structured ==> r.calls[|r.calls| - 1].VectorRpc?)
  {
    if intent == CodeSpecific && code.Some? {
      if StructuredChunks(db.byCode(code.value, k), db.loads) != [] {
        RouteStructured(intent, code, embedding, k, db);
      } else {
        CodeMissGoesGlobal(code.value, embedding, k, db);
      }
    } else if intent in {Procedural, Classification} {
      FilteredThenGlobal(intent, code, embedding, k, db);
    } else {
      assert Route(intent, code, embedding, k, db).calls == [VectorRpc(Global(embedding, k))];
    }
  }
}

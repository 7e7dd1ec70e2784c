/**
 * The prompt-budget logic of src/backend/services/openaiService.js: how the
 * schema shown to the language model is focused or shrunk, the
 * primary-key-only schema of the fallback request, the truncation of result
 * rows, and the one-shot switch to a cheaper model on a token-limit error.
 * The model itself is a function from a request to its reply or its error.
 */
module OpenaiService {
  import opened Wrappers
  import opened Text
  import opened OrderedMaps
  import opened SchemaModel

  // ---------------------------------------------------------------------------
  // Focusing and shrinking the schema.
  // ---------------------------------------------------------------------------

  /** Largest serialised size of the schema before the shrink pass is applied. */
  const SizeThreshold: nat := 50000

  /** Databases with more tables than this lose their column types in the shrink pass. */
  const LargeDatabaseTables: nat := 15

  /** JavaScript truthiness of an optional string (`null`, `undefined` and `""` are false). */
  predicate Given(s: Option<string>) {
    s.Some? && s.value != ""
  }

  /** The `References` a projected column keeps: the column's own, when truthy. */
  function KeptReferences(col: Column): (r: Option<Value>)
    ensures r.Some? <==> col.references.Some? && Truthy(col.references.value)
    ensures r.Some? ==> r == col.references
  {
    if col.references.Some? && Truthy(col.references.value) then col.references else None
  }

  /** `{ Field, Type, Key }` of a column, plus its `References` when truthy. */
  function Projected(col: Column): Column {
    Column(col.field, col.typ, col.key, KeptReferences(col), [])
  }

  /** `{ Field, Key }` of a column, plus its `References` when truthy. */
  function Essential(col: Column): Column {
    Column(col.field, None, col.key, KeptReferences(col), [])
  }

  /** `columns.map(col => colInfo)`. */
  function ProjectTable(t: Table): (r: Table)
    ensures |r| == |t| && forall j :: 0 <= j < |t| ==> r[j] == Projected(t[j])
  {
    seq(|t|, j requires 0 <= j < |t| => Projected(t[j]))
  }

  /** `columns.map(col => essentialCol)`. */
  function EssentialTable(t: Table): (r: Table)
    ensures |r| == |t| && forall j :: 0 <= j < |t| ==> r[j] == Essential(t[j])
  {
    seq(|t|, j requires 0 <= j < |t| => Essential(t[j]))
  }

  function ProjectDatabase(d: Database): Database {
    MapValues(d, ProjectTable)
  }

  /** The schema after the first pass of `limitSchemaContext`: every column projected. */
  function ProjectSchema(s: Schema): Schema {
    MapValues(s, ProjectDatabase)
  }

  /** The shrink pass on one database: with more than 15 tables, every column loses its `Type`. */
  function ShrinkDatabase(d: Database): Database {
    if |d| > LargeDatabaseTables then MapValues(d, EssentialTable) else d
  }

  function ShrinkSchema(s: Schema): Schema {
    MapValues(s, ShrinkDatabase)
  }

  /** Whether `limitSchemaContext` returns the selected database alone. */
  predicate Focuses(s: Schema, selectedDB: Option<string>) {
    Given(selectedDB) && HasKey(s, selectedDB.value)
  }

  /** What `limitSchemaContext(databaseSchema, selectedDB)` returns, `jsonSize` being the serialised length. */
  function LimitedSchema(s: Schema, selectedDB: Option<string>, jsonSize: Schema -> nat): Schema {
    if Focuses(s, selectedDB) then [(selectedDB.value, Lookup(s, selectedDB.value))]
    else
      var projected := ProjectSchema(s);
      if jsonSize(projected) > SizeThreshold then ShrinkSchema(projected) else projected
  }

  /**
   * `limitSchemaContext(databaseSchema, selectedDB)`: builds the projected
   * schema database by database and table by table, measures it, and when it
   * is too large overwrites the tables of every large database with their
   * essential columns.
   */
  method LimitSchemaContext(databaseSchema: Schema, selectedDB: Option<string>, jsonSize: Schema -> nat)
    returns (reducedSchema: Schema)
    ensures reducedSchema == LimitedSchema(databaseSchema, selectedDB, jsonSize)
  {
    if Given(selectedDB) && HasKey(databaseSchema, selectedDB.value) {
      return [(selectedDB.value, Lookup(databaseSchema, selectedDB.value))];
    }
    reducedSchema := [];
    for i := 0 to |databaseSchema|
      invariant reducedSchema == MapValues(databaseSchema[..i], ProjectDatabase)
    {
      var database := databaseSchema[i].1;
      var tables: Database := [];
      for j := 0 to |database|
        invariant tables == MapValues(database[..j], ProjectTable)
      {
        MapValuesNext(database, ProjectTable, j);
        tables := Put(tables, database[j].0, ProjectTable(database[j].1));
      }
      assert database[..|database|] == database;
      MapValuesNext(databaseSchema, ProjectDatabase, i);
      reducedSchema := Put(reducedSchema, databaseSchema[i].0, tables);
    }
    assert databaseSchema[..|databaseSchema|] == databaseSchema;
    if jsonSize(reducedSchema) > SizeThreshold {
      reducedSchema := ShrinkLargeDatabases(reducedSchema);
    }
  }

  /** The shrink pass, overwriting the entries of `reducedSchema` where they stand. */
  method ShrinkLargeDatabases(projected: Schema) returns (reducedSchema: Schema)
    ensures reducedSchema == ShrinkSchema(projected)
  {
    reducedSchema := projected;
    for i := 0 to |projected|
      invariant |reducedSchema| == |projected|
      invariant forall k :: 0 <= k < i ==> reducedSchema[k] == (projected[k].0, ShrinkDatabase(projected[k].1))
      invariant forall k :: i <= k < |projected| ==> reducedSchema[k] == projected[k]
    {
      var database := reducedSchema[i].1;
      if |database| > LargeDatabaseTables {
        var tables := EssentialColumnsOnly(database);
        PutExisting(reducedSchema, i, tables);
        reducedSchema := Put(reducedSchema, reducedSchema[i].0, tables);
      }
    }
  }
  /** The loop over the tables of a large database, which keeps only the essential keys of every column. */
  method EssentialColumnsOnly(database: Database) returns (tables: Database)
    ensures tables == MapValues(database, EssentialTable)
  {
    tables := database;
    for j := 0 to |database|
      invariant |tables| == |database|
      invariant forall k :: 0 <= k < j ==> tables[k] == (database[k].0, EssentialTable(database[k].1))
      invariant forall k :: j <= k < |database| ==> tables[k] == database[k]
    {
      PutExisting(tables, j, EssentialTable(tables[j].1));
      tables := Put(tables, tables[j].0, EssentialTable(tables[j].1));
    }
  }


  // ---------------------------------------------------------------------------
  // What `limitSchemaContext` promises.
  // ---------------------------------------------------------------------------

  /** A selected database that is present is returned alone and unchanged, whatever its size. */
  lemma FocusedKeepsDatabase(s: Schema, selectedDB: string, jsonSize: Schema -> nat)
    requires selectedDB != "" && HasKey(s, selectedDB)
    ensures LimitedSchema(s, Some(selectedDB), jsonSize) == [(selectedDB, Get(s, selectedDB).value)]
  {
  }

  /** The column a limited, unfocused schema holds at a given place. */
  function ColumnAfterLimit(col: Column, shrunk: bool): Column {
    if shrunk then Essential(col) else Projected(col)
  }

  /**
   * Without a focus, the limited schema has the same databases and tables in
   * the same order, and each table its columns in the same order, each
   * keeping `Field` and `Key` and its truthy `References`, keeping `Type`
   * unless its database was shrunk, and dropping every other property; a
   * database is shrunk exactly when the projection is over the threshold
   * and it has more than 15 tables.
   */
  lemma LimitedShape(s: Schema, selectedDB: Option<string>, jsonSize: Schema -> nat, i: nat, j: nat, c: nat)
    requires !Focuses(s, selectedDB)
    requires i < |s| && j < |s[i].1| && c < |s[i].1[j].1|
    ensures var r := LimitedSchema(s, selectedDB, jsonSize);
      var shrunk := jsonSize(ProjectSchema(s)) > SizeThreshold && |s[i].1| > LargeDatabaseTables;
      var col := s[i].1[j].1[c];
      && Keys(r) == Keys(s)
      && Keys(r[i].1) == Keys(s[i].1)
      && |r[i].1[j].1| == |s[i].1[j].1|
      && r[i].1[j].1[c] == ColumnAfterLimit(col, shrunk)
      && r[i].1[j].1[c].field == col.field
      && r[i].1[j].1[c].key == col.key
      && r[i].1[j].1[c].typ == (if shrunk then None else col.typ)
      && r[i].1[j].1[c].references == KeptReferences(col)
      && (col.references.Some? && Truthy(col.references.value) ==> r[i].1[j].1[c].references == col.references)
      && r[i].1[j].1[c].extras == []
  {
    var p := ProjectSchema(s);
    assert p[i] == (s[i].0, ProjectDatabase(s[i].1));
    assert p[i].1[j] == (s[i].1[j].0, ProjectTable(s[i].1[j].1));
    if jsonSize(p) > SizeThreshold {
      var r := ShrinkSchema(p);
      assert r[i] == (s[i].0, ShrinkDatabase(p[i].1));
      if |s[i].1| > LargeDatabaseTables {
        assert r[i].1[j] == (s[i].1[j].0, EssentialTable(p[i].1[j].1));
      }
    }
  }

  /**
   * The shrink pass does not promise a fit: when every database has 15 tables
   * or fewer, an oversized projection is returned as it is, still oversized.
   */
  lemma {:induction false} NoFitGuarantee(s: Schema, selectedDB: Option<string>, jsonSize: Schema -> nat)
    requires !Focuses(s, selectedDB)
    requires forall i :: 0 <= i < |s| ==> |s[i].1| <= LargeDatabaseTables
    requires jsonSize(ProjectSchema(s)) > SizeThreshold
    ensures LimitedSchema(s, selectedDB, jsonSize) == ProjectSchema(s)
    ensures jsonSize(LimitedSchema(s, selectedDB, jsonSize)) > SizeThreshold
  {
    var p := ProjectSchema(s);
    forall i | 0 <= i < |p| ensures ShrinkSchema(p)[i] == p[i] {
      assert |p[i].1| == |s[i].1|;
    }
    assert ShrinkSchema(p) == p;
  }

  /** Databases with 15 tables or fewer keep every projected column, `Type` included, however large the schema. */
  lemma SmallDatabasesUntouched(s: Schema, selectedDB: Option<string>, jsonSize: Schema -> nat, i: nat)
    requires !Focuses(s, selectedDB)
    requires i < |s| && |s[i].1| <= LargeDatabaseTables
    ensures LimitedSchema(s, selectedDB, jsonSize)[i] == (s[i].0, ProjectDatabase(s[i].1))
  {
    var p := ProjectSchema(s);
    assert p[i] == (s[i].0, ProjectDatabase(s[i].1));
    if jsonSize(p) > SizeThreshold {
      assert ShrinkSchema(p)[i] == (s[i].0, ShrinkDatabase(p[i].1));
    }
  }

  // ---------------------------------------------------------------------------
  // The primary-key-only schema of the fallback request.
  // ---------------------------------------------------------------------------

  /** Each database maps each table to a one-line summary of its primary keys. */
  type MinimalSchema = OMap<OMap<string>>

  /** `columns.filter(col => col.Key === 'PRI').map(col => col.Field)`. */
  function PrimaryKeyFields(t: Table): (fields: seq<string>)
    decreases |t|
  {
    if t == [] then []
    else (if t[0].key == Some("PRI") then [t[0].field] else []) + PrimaryKeyFields(t[1..])
  }

  /** The summary of one table: its primary-key fields joined with `", "`, or `"No primary keys"`. */
  function PrimaryKeySummary(t: Table): string {
    var keys := PrimaryKeyFields(t);
    if |keys| > 0 then "Primary keys: " + Join(keys, ", ") else "No primary keys"
  }

  function MinimalDatabase(d: Database): OMap<string> {
    MapValues(d, PrimaryKeySummary)
  }

  /** The `minimalSchema` built from the focused schema when the first model hits its token limit. */
  function MinimalOf(s: Schema): MinimalSchema {
    MapValues(s, MinimalDatabase)
  }

  /** The nested loops that fill `minimalSchema`, one database and one table at a time. */
  method BuildMinimalSchema(focusedSchema: Schema) returns (minimalSchema: MinimalSchema)
    ensures minimalSchema == MinimalOf(focusedSchema)
  {
    minimalSchema := [];
    for i := 0 to |focusedSchema|
      invariant minimalSchema == MapValues(focusedSchema[..i], MinimalDatabase)
    {
      var database := focusedSchema[i].1;
      var tables: OMap<string> := [];
      for j := 0 to |database|
        invariant tables == MapValues(database[..j], PrimaryKeySummary)
      {
        MapValuesNext(database, PrimaryKeySummary, j);
        tables := Put(tables, database[j].0, PrimaryKeySummary(database[j].1));
      }
      assert database[..|database|] == database;
      MapValuesNext(focusedSchema, MinimalDatabase, i);
      minimalSchema := Put(minimalSchema, focusedSchema[i].0, tables);
    }
    assert focusedSchema[..|focusedSchema|] == focusedSchema;
  }

  /** The listed primary keys are the `Field`s of the `PRI` columns, in column order. */
  lemma {:induction false} PrimaryKeyFieldsAre(t: Table)
    ensures |PrimaryKeyFields(t)| <= |t|
    ensures forall f :: f in PrimaryKeyFields(t) <==> exists c :: 0 <= c < |t| && t[c].key == Some("PRI") && t[c].field == f
    ensures (forall c :: 0 <= c < |t| ==> t[c].key != Some("PRI")) <==> PrimaryKeyFields(t) == []
    decreases |t|
  {
    if t != [] {
      PrimaryKeyFieldsAre(t[1..]);
      assert forall c :: 0 < c < |t| ==> t[c] == t[1..][c - 1];
      forall f | (exists c :: 0 <= c < |t| && t[c].key == Some("PRI") && t[c].field == f)
        ensures f in PrimaryKeyFields(t)
      {
        var c :| 0 <= c < |t| && t[c].key == Some("PRI") && t[c].field == f;
        if c > 0 {
          assert t[1..][c - 1].key == Some("PRI") && t[1..][c - 1].field == f;
        }
      }
    }
  }

  /** Primary-key columns are listed in the order they stand in the table. */
  lemma {:induction false} PrimaryKeyFieldsAppend(a: Table, b: Table)
    ensures PrimaryKeyFields(a + b) == PrimaryKeyFields(a) + PrimaryKeyFields(b)
    decreases |a|
  {
    if a != [] {
      assert (a + b)[1..] == a[1..] + b;
      PrimaryKeyFieldsAppend(a[1..], b);
    } else {
      assert a + b == b;
    }
  }

  /** A table without a `PRI` column is summarised as `"No primary keys"`, one with such a column by the list. */
  lemma PrimaryKeySummaryCases(t: Table)
    ensures (forall c :: 0 <= c < |t| ==> t[c].key != Some("PRI")) ==> PrimaryKeySummary(t) == "No primary keys"
    ensures (exists c :: 0 <= c < |t| && t[c].key == Some("PRI")) ==>
      PrimaryKeySummary(t) == "Primary keys: " + Join(PrimaryKeyFields(t), ", ")
  {
    PrimaryKeyFieldsAre(t);
  }

  /** The minimal schema has the databases and tables of the focused schema, in order, each table summarised. */
  lemma MinimalShape(s: Schema, i: nat, j: nat)
    requires i < |s| && j < |s[i].1|
    ensures Keys(MinimalOf(s)) == Keys(s)
    ensures Keys(MinimalOf(s)[i].1) == Keys(s[i].1)
    ensures MinimalOf(s)[i].1[j] == (s[i].1[j].0, PrimaryKeySummary(s[i].1[j].1))
  {
    assert MinimalOf(s)[i] == (s[i].0, MinimalDatabase(s[i].1));
  }

  // ---------------------------------------------------------------------------
  // Result truncation.
  // ---------------------------------------------------------------------------

  /** Result rows shown to the model for the explanation. */
  const ShownRows: nat := 10

  /** `Array.isArray(results) && results.length > 10 ? results.slice(0, 10) : results`. */
  function LimitResults(results: QueryResult): (shown: QueryResult)
    ensures shown.Rows? <==> results.Rows?
    ensures shown.Rows? ==> |shown.rows| == (if |results.rows| > ShownRows then ShownRows else |results.rows|)
    ensures shown.Rows? ==> shown.rows == results.rows[..|shown.rows|]
    ensures results.Summary? ==> shown == results
  {
    if results.Rows? && |results.rows| > ShownRows then Rows(results.rows[..ShownRows]) else results
  }

  /** Ten rows or fewer are shown as they are. */
  lemma FewRowsUnchanged(results: QueryResult)
    requires results.Rows? ==> |results.rows| <= ShownRows
    ensures LimitResults(results) == results
  {
  }

  /** The note added to the prompt, `(Showing first 10 of N results)`, holding the full count. */
  function TruncationNote(results: QueryResult): (n: Option<nat>)
    ensures n.Some? <==> results.Rows? && |results.rows| > ShownRows
    ensures n.Some? ==> n.value == |results.rows|
  {
    if results.Rows? && |results.rows| > ShownRows then Some(|results.rows|) else None
  }

  // ---------------------------------------------------------------------------
  // The language model and the one-shot fallback.
  // ---------------------------------------------------------------------------

  datatype ModelName = Gpt4 | Gpt35Turbo

  /**
   * The content of a request: the schema shown for SQL generation (the limited
   * schema, or the minimal one), or the results shown for an explanation,
   * with the note on the total row count; each with the user's question.
   */
  datatype Prompt =
    | SqlPrompt(schema: Schema, question: string)
    | MinimalSqlPrompt(minimal: MinimalSchema, question: string)
    | ExplainPrompt(question: string, shown: QueryResult, total: Option<nat>)

  datatype Request = Request(model: ModelName, prompt: Prompt)

  /** An error thrown by the client: its `code`, its `type` and its message. */
  datatype ApiError = ApiError(code: Option<string>, kind: Option<string>, message: string)

  /** `error.code === 'rate_limit_exceeded' && error.type === 'tokens'`. */
  predicate IsTokenLimit(e: ApiError) {
    e.code == Some("rate_limit_exceeded") && e.kind == Some("tokens")
  }

  /** The message every failure of SQL generation is reported with. */
  const SqlFailure: string := "Failed to convert your query to SQL"

  /** The message every failure of an explanation is reported with. */
  const ExplainFailure: string := "Failed to explain the query results"

  /**
   * The outcome of one call with the fallback rule: the first model's trimmed
   * reply; on a token-limit error, the fallback model's trimmed reply; any
   * other error, or a failed fallback, becomes `failure`.
   */
  function WithFallback(llm: Request -> Result<string, ApiError>, first: Request, fallback: Request, failure: string)
    : Result<string, string>
  {
    match llm(first)
    case Success(text) => Success(Trim(text))
    case Failure(e) =>
      if !IsTokenLimit(e) then Failure(failure)
      else match llm(fallback)
        case Success(text) => Success(Trim(text))
        case Failure(_) => Failure(failure)
  }

  /** The request `generateSQLFromNaturalLanguage` sends first. */
  function SqlRequest(query: string, schema: Schema, selectedDB: Option<string>, jsonSize: Schema -> nat): Request {
    Request(Gpt4, SqlPrompt(LimitedSchema(schema, selectedDB, jsonSize), query))
  }

  /** The fallback request: the cheaper model, shown only the primary keys of the focused schema. */
  function SqlFallbackRequest(query: string, schema: Schema, selectedDB: Option<string>, jsonSize: Schema -> nat): Request {
    Request(Gpt35Turbo, MinimalSqlPrompt(MinimalOf(LimitedSchema(schema, selectedDB, jsonSize)), query))
  }

  /** What `generateSQLFromNaturalLanguage(query, databaseSchema, selectedDB)` returns or throws. */
  function GeneratedSql(query: string, schema: Schema, selectedDB: Option<string>, jsonSize: Schema -> nat,
                        llm: Request -> Result<string, ApiError>): Result<string, string>
  {
    WithFallback(llm, SqlRequest(query, schema, selectedDB, jsonSize),
                 SqlFallbackRequest(query, schema, selectedDB, jsonSize), SqlFailure)
  }

  /**
   * `generateSQLFromNaturalLanguage(query, databaseSchema, selectedDB)`.
   * `requests` lists the requests sent, in order: the second model is asked
   * exactly once, and only after a token-limit error of the first; every
   * failure is reported as "Failed to convert your query to SQL".
   */
  method GenerateSQLFromNaturalLanguage(query: string, databaseSchema: Schema, selectedDB: Option<string>,
                                        jsonSize: Schema -> nat, llm: Request -> Result<string, ApiError>)
    returns (r: Result<string, string>, requests: seq<Request>)
    ensures r == GeneratedSql(query, databaseSchema, selectedDB, jsonSize, llm)
    ensures |requests| == 1 || |requests| == 2
    ensures requests[0] == SqlRequest(query, databaseSchema, selectedDB, jsonSize)
    ensures |requests| == 2 <==> llm(requests[0]).Failure? && IsTokenLimit(llm(requests[0]).error)
    ensures |requests| == 2 ==> requests[1] == SqlFallbackRequest(query, databaseSchema, selectedDB, jsonSize)
    ensures r.Success? <==> llm(requests[|requests| - 1]).Success?
    ensures r.Success? ==> r.value == Trim(llm(requests[|requests| - 1]).value)
    ensures r.Failure? ==> r.error == SqlFailure
  {
    var focusedSchema := LimitSchemaContext(databaseSchema, selectedDB, jsonSize);
    var first := Request(Gpt4, SqlPrompt(focusedSchema, query));
    requests := [first];
    var completion := llm(first);
    if completion.Success? {
      return Success(Trim(completion.value)), requests;
    }
    if !IsTokenLimit(completion.error) {
      return Failure(SqlFailure), requests;
    }
    var minimalSchema := BuildMinimalSchema(focusedSchema);
    var fallback := Request(Gpt35Turbo, MinimalSqlPrompt(minimalSchema, query));
    requests := requests + [fallback];
    var fallbackCompletion := llm(fallback);
    if fallbackCompletion.Success? {
      return Success(Trim(fallbackCompletion.value)), requests;
    }
    return Failure(SqlFailure), requests;
  }

  /** The request `explainResultsInNaturalLanguage` sends to either model. */
  function ExplainRequest(model: ModelName, query: string, results: QueryResult): Request {
    Request(model, ExplainPrompt(query, LimitResults(results), TruncationNote(results)))
  }

  /** What `explainResultsInNaturalLanguage(query, results)` returns or throws. */
  function Explanation(query: string, results: QueryResult, llm: Request -> Result<string, ApiError>)
    : Result<string, string>
  {
    WithFallback(llm, ExplainRequest(Gpt4, query, results), ExplainRequest(Gpt35Turbo, query, results), ExplainFailure)
  }

  /**
   * `explainResultsInNaturalLanguage(query, results)`: at most ten rows are
   * shown, with the total when more were returned; the same one-shot
   * fallback rule, with the same prompt, and failures reported as
   * "Failed to explain the query results".
   */
  method ExplainResultsInNaturalLanguage(query: string, results: QueryResult, llm: Request -> Result<string, ApiError>)
    returns (r: Result<string, string>, requests: seq<Request>)
    ensures r == Explanation(query, results, llm)
    ensures |requests| == 1 || |requests| == 2
    ensures forall k :: 0 <= k < |requests| ==>
      requests[k] == ExplainRequest(if k == 0 then Gpt4 else Gpt35Turbo, query, results)
    ensures |requests| == 2 <==> llm(requests[0]).Failure? && IsTokenLimit(llm(requests[0]).error)
    ensures r.Failure? ==> r.error == ExplainFailure
  {
    var limitedResults := LimitResults(results);
    var note := TruncationNote(results);
    var first := Request(Gpt4, ExplainPrompt(query, limitedResults, note));
    requests := [first];
    var completion := llm(first);
    if completion.Success? {
      return Success(Trim(completion.value)), requests;
    }
    if !IsTokenLimit(completion.error) {
      return Failure(ExplainFailure), requests;
    }
    var fallback := Request(Gpt35Turbo, ExplainPrompt(query, limitedResults, note));
    requests := requests + [fallback];
    var fallbackCompletion := llm(fallback);
    if fallbackCompletion.Success? {
      return Success(Trim(fallbackCompletion.value)), requests;
    }
    return Failure(ExplainFailure), requests;
  }
}

/**
 * The question-answering flow of src/backend/services/chatService.js: which
 * database a question names, which tables of the schema look relevant to
 * it, which schema is handed to SQL generation, the read-only gate on the
 * generated statement and the choice of the database it runs against.
 */
module ChatService {
  import opened Wrappers
  import opened Text
  import opened OrderedMaps
  import opened SchemaModel
  import opened SchemaCache
  import opened SchemaService
  import opened OpenaiService

  // ---------------------------------------------------------------------------
  // Naming a database in the question.
  // ---------------------------------------------------------------------------

  /**
   * The four spellings of a database name looked for in the question: the
   * lower-cased name, with `_` read as a space, without a final `db`, and
   * without a final `_db`.
   */
  function Variants(db: string): seq<string> {
    var lower := ToLower(db);
    [lower, UnderscoresToSpaces(lower), DropSuffix(lower, "db"), DropSuffix(lower, "_db")]
  }

  /** `dbVariations.some(variant => queryLower.includes(variant))`. */
  predicate Mentions(queryLower: string, db: string) {
    exists v | v in Variants(db) :: Contains(queryLower, v)
  }

  /** The first database of `dbs`, in list order, that the lower-cased question mentions. */
  function FirstMentioned(queryLower: string, dbs: seq<string>): (r: Option<string>)
    ensures r.Some? ==> r.value in dbs && Mentions(queryLower, r.value)
    ensures r.None? <==> forall i :: 0 <= i < |dbs| ==> !Mentions(queryLower, dbs[i])
    decreases |dbs|
  {
    if dbs == [] then None
    else if Mentions(queryLower, dbs[0]) then Some(dbs[0])
    else
      var r := FirstMentioned(queryLower, dbs[1..]);
      assert forall i :: 0 < i < |dbs| ==> dbs[i] == dbs[1..][i - 1];
      r
  }

  /** A mentioned database that no earlier database precedes is the one detected. */
  lemma {:induction false} FirstMentionedAt(queryLower: string, dbs: seq<string>, i: nat)
    requires i < |dbs| && Mentions(queryLower, dbs[i])
    requires forall j :: 0 <= j < i ==> !Mentions(queryLower, dbs[j])
    ensures FirstMentioned(queryLower, dbs) == Some(dbs[i])
  {
    if i > 0 {
      var tail := dbs[1..];
      forall j | 0 <= j < i - 1 ensures !Mentions(queryLower, tail[j]) {
        assert tail[j] == dbs[j + 1];
      }
      FirstMentionedAt(queryLower, tail, i - 1);
      assert !Mentions(queryLower, dbs[0]);
    }
  }

  /**
   * `detectDatabaseFromQuery(query, availableDatabases)`: `null` for an
   * absent or empty list; otherwise the first database the question
   * mentions, or `null`.
   */
  method DetectDatabaseFromQuery(query: string, availableDatabases: Option<seq<string>>) returns (r: Option<string>)
    ensures availableDatabases.None? ==> r.None?
    ensures availableDatabases.Some? ==> r == FirstMentioned(ToLower(query), availableDatabases.value)
  {
    if availableDatabases.None? || |availableDatabases.value| == 0 {
      return None;
    }
    var dbs := availableDatabases.value;
    var queryLower := ToLower(query);
    for i := 0 to |dbs|
      invariant FirstMentioned(queryLower, dbs[i..]) == FirstMentioned(queryLower, dbs)
    {
      assert dbs[i..][1..] == dbs[i + 1..];
      if exists v | v in Variants(dbs[i]) :: Contains(queryLower, v) {
        return Some(dbs[i]);
      }
    }
    return None;
  }

  lemma ContainsEmpty(s: string)
    ensures Contains(s, "")
  {
    assert s[..0] == "";
  }

  /**
   * A database named `db` (or `_db`, in any letter case) has the empty string
   * among its spellings, so it is mentioned by every question: once it is in
   * the list, detection never comes back empty.
   */
  lemma DbNamedDbAlwaysDetected(queryLower: string, dbs: seq<string>)
    requires "db" in dbs
    ensures FirstMentioned(queryLower, dbs).Some?
  {
    assert DropSuffix(ToLower("db"), "db") == "";
    ContainsEmpty(queryLower);
    assert Mentions(queryLower, "db");
  }

  // ---------------------------------------------------------------------------
  // Keywords and relevant tables.
  // ---------------------------------------------------------------------------

  /** Words never used as keywords. */
  const StopWords: seq<string> := ["what", "when", "where", "which", "how", "many", "much", "were", "does", "have"]

  predicate IsKeyword(word: string) {
    |word| > 3 && word !in StopWords
  }

  /** `words.filter(word => word.length > 3 && !stopWords.includes(word))`. */
  function KeywordsOf(words: seq<string>): seq<string>
    decreases |words|
  {
    if words == [] then []
    else (if IsKeyword(words[0]) then [words[0]] else []) + KeywordsOf(words[1..])
  }

  /** The keywords of a question: its lower-cased, white-space separated words that are long enough and not stop words. */
  function Keywords(query: string): seq<string> {
    KeywordsOf(SplitOnSpaces(ToLower(query)))
  }

  /** A word is a keyword exactly when it is one of the words, longer than three, and not a stop word. */
  lemma {:induction false} KeywordsOfAre(words: seq<string>)
    ensures forall w :: w in KeywordsOf(words) <==> w in words && IsKeyword(w)
    decreases |words|
  {
    if words != [] {
      KeywordsOfAre(words[1..]);
      assert forall w :: w in words <==> w == words[0] || w in words[1..];
    }
  }

  /** `keywords.some(keyword => name.toLowerCase().includes(keyword))`. */
  predicate SomeKeywordIn(keywords: seq<string>, name: string) {
    exists k | k in keywords :: Contains(ToLower(name), k)
  }

  /** A table is relevant when its name, or the `Field` of one of its columns, contains a keyword. */
  predicate TableRelevant(keywords: seq<string>, tableName: string, columns: Table) {
    SomeKeywordIn(keywords, tableName) || exists c | c in columns :: SomeKeywordIn(keywords, c.field)
  }

  /** The `relevantTables` of a database after its first `n` tables: the relevant ones, in order, with their columns. */
  function RelevantTables(keywords: seq<string>, d: Database, n: nat): Database
    requires n <= |d|
  {
    if n == 0 then []
    else
      var rest := RelevantTables(keywords, d, n - 1);
      if TableRelevant(keywords, d[n - 1].0, d[n - 1].1) then Put<Table>(rest, d[n - 1].0, d[n - 1].1) else rest
  }

  /** What a database contributes to the reduced schema: its relevant tables, all of them when only its name matched, or nothing. */
  function DatabaseReduction(keywords: seq<string>, name: string, d: Database): Option<Database> {
    var tables := RelevantTables(keywords, d, |d|);
    if |tables| > 0 then Some(tables)
    else if SomeKeywordIn(keywords, name) then Some(d)
    else None
  }

  /** The reduced schema after the first `n` databases, before the fallback: each one's contribution, in schema order. */
  function ReduceFrom(keywords: seq<string>, s: Schema, n: nat): Schema
    requires n <= |s|
  {
    if n == 0 then []
    else
      var rest := ReduceFrom(keywords, s, n - 1);
      match DatabaseReduction(keywords, s[n - 1].0, s[n - 1].1)
      case Some(d) => Put<Database>(rest, s[n - 1].0, d)
      case None => rest
  }

  /** Database `i` of `s` contributes to the reduced schema. */
  predicate Contributes(keywords: seq<string>, s: Schema, i: int)
    requires 0 <= i < |s|
  {
    DatabaseReduction(keywords, s[i].0, s[i].1).Some?
  }

  /** Database `i` is the first of `s` that contributes. */
  predicate FirstContributor(keywords: seq<string>, s: Schema, i: int)
    requires 0 <= i < |s|
  {
    Contributes(keywords, s, i) && forall j :: 0 <= j < i ==> !Contributes(keywords, s, j)
  }

  /** The fallback sample of a database: its first three tables, or all of them when it has fewer. */
  function SampleTables(d: Database): Database {
    Take(d, 3)
  }

  /** What `identifyRelevantTables(query, fullSchema)` returns. */
  function RelevantSchema(query: string, s: Schema): Schema {
    var reduced := ReduceFrom(Keywords(query), s, |s|);
    if |reduced| == 0 then MapValues<Database, Database>(s, SampleTables) else reduced
  }

  /** The loop over the columns of one table, which stops at the first matching `Field`. */
  method ColumnMatches(keywords: seq<string>, columns: Table) returns (found: bool)
    ensures found <==> exists c | c in columns :: SomeKeywordIn(keywords, c.field)
  {
    var k := 0;
    while k < |columns|
      invariant 0 <= k <= |columns|
      invariant forall m :: 0 <= m < k ==> !SomeKeywordIn(keywords, columns[m].field)
    {
      if exists kw | kw in keywords :: Contains(ToLower(columns[k].field), kw) {
        assert columns[k] in columns;
        return true;
      }
      k := k + 1;
    }
    return false;
  }

  /**
   * `identifyRelevantTables(query, fullSchema)`: the nested loops over
   * databases and tables that fill `reducedSchema`, then, when nothing was
   * found, the sampling loop.
   */
  method IdentifyRelevantTables(query: string, fullSchema: Schema) returns (reducedSchema: Schema)
    ensures reducedSchema == RelevantSchema(query, fullSchema)
  {
    var keywords := Keywords(query);
    reducedSchema := ReduceSchema(keywords, fullSchema);
    if |reducedSchema| == 0 {
      reducedSchema := SampleSchema(fullSchema);
    }
  }

  /** The loop over the databases: each database's contribution, in schema order. */
  method ReduceSchema(keywords: seq<string>, fullSchema: Schema) returns (reducedSchema: Schema)
    ensures reducedSchema == ReduceFrom(keywords, fullSchema, |fullSchema|)
  {
    reducedSchema := [];
    for i := 0 to |fullSchema|
      invariant reducedSchema == ReduceFrom(keywords, fullSchema, i)
    {
      var dbName := fullSchema[i].0;
      var database := fullSchema[i].1;
      var relevantTables, dbRelevant := RelevantTablesOf(keywords, dbName, database);
      assert DatabaseReduction(keywords, dbName, database) ==
        if !dbRelevant then None else Some(if |relevantTables| > 0 then relevantTables else database);
      if dbRelevant {
        // All of the database's tables when only its name matched.
        reducedSchema := Put<Database>(reducedSchema, dbName, if |relevantTables| > 0 then relevantTables else database);
      }
    }
  }



  /** The fallback loop: every database of the schema with its sample of tables, in order. */
  method SampleSchema(fullSchema: Schema) returns (reducedSchema: Schema)
    ensures reducedSchema == MapValues<Database, Database>(fullSchema, SampleTables)
  {
    reducedSchema := [];
    for i := 0 to |fullSchema|
      invariant reducedSchema == MapValues<Database, Database>(fullSchema[..i], SampleTables)
    {
      var sample := SampleOf(fullSchema[i].1);
      MapValuesNext(fullSchema, SampleTables, i);
      reducedSchema := Put<Database>(reducedSchema, fullSchema[i].0, sample);
    }
    assert fullSchema[..|fullSchema|] == fullSchema;
  }

  /**
   * The loop over the tables of one database: the relevant tables in order,
   * and whether the database is relevant by its name or through one of them.
   */
  method RelevantTablesOf(keywords: seq<string>, dbName: string, database: Database)
    returns (relevantTables: Database, dbRelevant: bool)
    ensures relevantTables == RelevantTables(keywords, database, |database|)
    ensures dbRelevant == (SomeKeywordIn(keywords, dbName) || |relevantTables| > 0)
  {
    dbRelevant := SomeKeywordIn(keywords, dbName);
    relevantTables := [];
    for j := 0 to |database|
      invariant relevantTables == RelevantTables(keywords, database, j)
      invariant dbRelevant == (SomeKeywordIn(keywords, dbName) || |relevantTables| > 0)
    {
      var tableName := database[j].0;
      var columns := database[j].1;
      var tableRelevant := SomeKeywordIn(keywords, tableName);
      var columnRelevant := ColumnMatches(keywords, columns);
      tableRelevant := tableRelevant || columnRelevant;
      if tableRelevant {
        relevantTables := Put<Table>(relevantTables, tableName, columns);
        dbRelevant := true;
      }
    }
  }

  /** The fallback's copy of the first three table names of a database, with their columns. */
  method SampleOf(database: Database) returns (sample: Database)
    ensures sample == SampleTables(database)
  {
    var tableNames := Keys(database);
    var sampleSize := if 3 < |tableNames| then 3 else |tableNames|;
    sample := [];
    for k := 0 to sampleSize
      invariant sample == database[..k]
    {
      GetAt(database, k);
      PutNextEntry(database, k);
      sample := Put<Table>(sample, tableNames[k], Lookup(database, tableNames[k]));
    }
  }


  // ---------------------------------------------------------------------------
  // What the reduction promises.
  // ---------------------------------------------------------------------------

  /** The relevant tables among the first `n` are exactly those of them that are relevant, with their columns. */
  lemma {:induction false} RelevantTablesEntries(keywords: seq<string>, d: Database, n: nat)
    requires n <= |d|
    ensures forall e :: e in RelevantTables(keywords, d, n) <==> e in d[..n] && TableRelevant(keywords, e.0, e.1)
  {
    if n > 0 {
      RelevantTablesEntries(keywords, d, n - 1);
      var rest := RelevantTables(keywords, d, n - 1);
      assert d[..n] == d[..n - 1] + [d[n - 1]];
      if TableRelevant(keywords, d[n - 1].0, d[n - 1].1) {
        forall e | e in rest ensures e.0 != d[n - 1].0 {
          var j :| 0 <= j < n - 1 && d[..n - 1][j] == e;
          assert d[j] == e;
        }
        assert !HasKey(rest, d[n - 1].0);
        PutNew(rest, d[n - 1].0, d[n - 1].1);
      }
    }
  }

  /**
   * A database is in the reduced schema when some table of it is relevant,
   * holding just those tables, or else when its name contains a keyword,
   * holding all its tables.
   */
  lemma DatabaseReductionCases(keywords: seq<string>, name: string, d: Database)
    ensures DatabaseReduction(keywords, name, d).Some? <==>
      SomeKeywordIn(keywords, name) || exists e | e in d :: TableRelevant(keywords, e.0, e.1)
    ensures (exists e | e in d :: TableRelevant(keywords, e.0, e.1)) ==>
      forall e :: e in DatabaseReduction(keywords, name, d).value <==> e in d && TableRelevant(keywords, e.0, e.1)
    ensures (forall e | e in d :: !TableRelevant(keywords, e.0, e.1)) && SomeKeywordIn(keywords, name) ==>
      DatabaseReduction(keywords, name, d) == Some(d)
  {
    RelevantTablesEntries(keywords, d, |d|);
    assert d[..|d|] == d;
    var tables := RelevantTables(keywords, d, |d|);
    if exists e | e in d :: TableRelevant(keywords, e.0, e.1) {
      var e :| e in d && TableRelevant(keywords, e.0, e.1);
      assert e in tables;
    }
    if |tables| > 0 {
      assert tables[0] in tables;
    }
  }

  /**
   * After the first `n` databases, the reduced schema holds under the name of
   * each of them its contribution, and nothing under the name of a later one.
   */
  lemma {:induction false} ReduceFromAt(keywords: seq<string>, s: Schema, n: nat, i: nat)
    requires n <= |s| && i < |s|
    ensures Get<Database>(ReduceFrom(keywords, s, n), s[i].0) ==
      if i < n then DatabaseReduction(keywords, s[i].0, s[i].1) else None
  {
    if n > 0 {
      var rest := ReduceFrom(keywords, s, n - 1);
      var k := s[n - 1].0;
      var reduction := DatabaseReduction(keywords, k, s[n - 1].1);
      ReduceFromAt(keywords, s, n - 1, i);
      ReduceFromNext(keywords, s, n);
      var r := ReduceFrom(keywords, s, n);
      if i == n - 1 {
        assert r == if reduction.Some? then Put<Database>(rest, k, reduction.value) else rest;
        assert Get<Database>(r, k) == reduction;
      } else {
        if reduction.Some? {
          assert s[i].0 != k;
          PutOthersUnchanged<Database>(rest, k, reduction.value);
        }
        assert Get<Database>(r, s[i].0) == Get<Database>(rest, s[i].0);
      }
    }
  }

  /** A name that is not in the schema is not in the reduced schema. */
  lemma {:induction false} ReduceFromAbsent(keywords: seq<string>, s: Schema, n: nat, name: string)
    requires n <= |s| && !HasKey(s, name)
    ensures Get<Database>(ReduceFrom(keywords, s, n), name) == None
  {
    if n > 0 {
      var rest := ReduceFrom(keywords, s, n - 1);
      var k := s[n - 1].0;
      ReduceFromAbsent(keywords, s, n - 1, name);
      ReduceFromNext(keywords, s, n);
      assert k != name by { GetAt(s, n - 1); }
      if Contributes(keywords, s, n - 1) {
        PutOthersUnchanged<Database>(rest, k, DatabaseReduction(keywords, k, s[n - 1].1).value);
      }
    }
  }



  /** The reduced schema is empty exactly when none of the databases seen contributes. */
  lemma {:induction false} ReduceFromEmpty(keywords: seq<string>, s: Schema, n: nat)
    requires n <= |s|
    ensures |ReduceFrom(keywords, s, n)| == 0 <==> forall i :: 0 <= i < n ==> !Contributes(keywords, s, i)
  {
    if n > 0 {
      ReduceFromEmpty(keywords, s, n - 1);
      ReduceFromNext(keywords, s, n);
      if !Contributes(keywords, s, n - 1) {
        assert (forall i :: 0 <= i < n ==> !Contributes(keywords, s, i)) <==>
          (forall i :: 0 <= i < n - 1 ==> !Contributes(keywords, s, i));
      }
    }
  }

  /** One more database: its contribution, when it has one, is assigned under its name. */
  lemma ReduceFromNext(keywords: seq<string>, s: Schema, n: nat)
    requires 0 < n <= |s|
    ensures ReduceFrom(keywords, s, n) ==
      if Contributes(keywords, s, n - 1)
      then Put<Database>(ReduceFrom(keywords, s, n - 1), s[n - 1].0, DatabaseReduction(keywords, s[n - 1].0, s[n - 1].1).value)
      else ReduceFrom(keywords, s, n - 1)
  {
  }

  /** The first database of the reduced schema is the first database of the schema that contributes. */
  lemma {:induction false} ReduceFromHead(keywords: seq<string>, s: Schema, n: nat)
    requires n <= |s| && |ReduceFrom(keywords, s, n)| > 0
    ensures exists i :: 0 <= i < n && FirstContributor(keywords, s, i) && ReduceFrom(keywords, s, n)[0].0 == s[i].0
  {
    var rest := ReduceFrom(keywords, s, n - 1);
    ReduceFromNext(keywords, s, n);
    if |rest| > 0 {
      ReduceFromHead(keywords, s, n - 1);
      var i :| 0 <= i < n - 1 && FirstContributor(keywords, s, i) && rest[0].0 == s[i].0;
      if Contributes(keywords, s, n - 1) {
        var d := DatabaseReduction(keywords, s[n - 1].0, s[n - 1].1).value;
        assert Put<Database>(rest, s[n - 1].0, d)[0].0 == rest[0].0;
      }
    } else {
      ReduceFromEmpty(keywords, s, n - 1);
      assert Contributes(keywords, s, n - 1);
      var d := DatabaseReduction(keywords, s[n - 1].0, s[n - 1].1).value;
      PutNew(rest, s[n - 1].0, d);
      assert FirstContributor(keywords, s, n - 1);
    }
  }

  /**
   * When no database contributes, the result is the sample: every database
   * of the schema, in order, with its first three tables (all of them when
   * it has fewer), never empty for a non-empty schema.
   */
  lemma FallbackSample(query: string, s: Schema, i: nat)
    requires forall i :: 0 <= i < |s| ==> !Contributes(Keywords(query), s, i)
    requires i < |s|
    ensures Keys(RelevantSchema(query, s)) == Keys(s)
    ensures RelevantSchema(query, s)[i].1 == s[i].1[..if |s[i].1| < 3 then |s[i].1| else 3]
    ensures |RelevantSchema(query, s)[i].1| <= 3
  {
    ReduceFromEmpty(Keywords(query), s, |s|);
  }

  /** In every branch, a table of the result carries exactly the columns it has in the full schema. */
  lemma ColumnsCopied(query: string, s: Schema, name: string, e: (string, Table))
    requires HasKey(RelevantSchema(query, s), name) && e in Lookup(RelevantSchema(query, s), name)
    ensures HasKey(s, name) && e in Lookup(s, name)
  {
    var keywords := Keywords(query);
    var reduced := ReduceFrom(keywords, s, |s|);
    var r := RelevantSchema(query, s);
    if |reduced| == 0 {
      var i := IndexOfKey(r, name);
      GetAt(s, i);
      assert r[i].1 == SampleTables(s[i].1);
      assert e in s[i].1;
    } else {
      if !HasKey(s, name) {
        ReduceFromAbsent(keywords, s, |s|, name);
      }
      var i := IndexOfKey(s, name);
      GetAt(s, i);
      ReduceFromAt(keywords, s, |s|, i);
      var d := Lookup(s, name);
      RelevantTablesEntries(keywords, d, |d|);
      assert d[..|d|] == d;
    }
  }

  // ---------------------------------------------------------------------------
  // The database named in the generated SQL, and the read-only gate.
  // ---------------------------------------------------------------------------

  /** The characters of `[a-zA-Z0-9_]`. */
  predicate IsWordChar(c: char) {
    ('a' <= c <= 'z') || ('A' <= c <= 'Z') || ('0' <= c <= '9') || c == '_'
  }

  /** The end of the run of word characters of `s` that starts at `k`. */
  function WordEnd(s: string, k: nat): (e: nat)
    requires k <= |s|
    ensures k <= e <= |s|
    ensures e < |s| ==> !IsWordChar(s[e])
    decreases |s| - k
  {
    if k == |s| || !IsWordChar(s[k]) then k else WordEnd(s, k + 1)
  }

  lemma {:induction false} WordEndSkips(s: string, k: nat)
    requires k <= |s|
    ensures forall j :: k <= j < WordEnd(s, k) ==> IsWordChar(s[j])
    decreases |s| - k
  {
    if k < |s| && IsWordChar(s[k]) {
      WordEndSkips(s, k + 1);
    }
  }

  /**
   * The capture of `/from\s+([a-zA-Z0-9_]+)\./i` when the match starts at `p`:
   * `from` in any letter case, white space, then a word followed by `.`.
   * Neither `\s+` nor the word can give characters back usefully, so both
   * take their longest run.
   */
  function FromCaptureAt(sql: string, p: nat): Option<string>
    requires p <= |sql|
  {
    if p + 4 <= |sql| && ToLower(sql[p..p + 4]) == "from" then
      var k := SpacesFrom(sql, p + 4);
      var e := WordEnd(sql, k);
      if k > p + 4 && e > k && e < |sql| && sql[e] == '.' then Some(sql[k..e]) else None
    else None
  }

  /** The capture of the leftmost match at or after `p`. */
  function FirstFromCapture(sql: string, p: nat): Option<string>
    requires p <= |sql|
    decreases |sql| - p
  {
    if p == |sql| then None
    else match FromCaptureAt(sql, p)
      case Some(name) => Some(name)
      case None => FirstFromCapture(sql, p + 1)
  }

  /** `sqlQuery.match(/from\s+([a-zA-Z0-9_]+)\./i)[1]`, when there is a match. */
  function FromDatabase(sql: string): Option<string> {
    FirstFromCapture(sql, 0)
  }

  /** `from`, white space from `q + 4` to `k`, then `name` and a `.`. */
  predicate FromMatch(sql: string, q: nat, k: nat, name: string) {
    && q + 4 < k && k + |name| < |sql|
    && ToLower(sql[q..q + 4]) == "from" && AllSpace(sql[q + 4..k])
    && sql[k..k + |name|] == name && sql[k + |name|] == '.'
  }

  /**
   * The captured name is a non-empty word that stands in the statement right
   * after `from` (any letter case) and white space, and right before a `.`.
   */
  lemma {:induction false} FromCaptureSound(sql: string, p: nat)
    requires p <= |sql| && FirstFromCapture(sql, p).Some?
    ensures var name := FirstFromCapture(sql, p).value;
      && name != [] && (forall j :: 0 <= j < |name| ==> IsWordChar(name[j]))
      && exists q, k :: p <= q && FromMatch(sql, q, k, name)
    decreases |sql| - p
  {
    if FromCaptureAt(sql, p).Some? {
      var k := SpacesFrom(sql, p + 4);
      var e := WordEnd(sql, k);
      SpacesFromSkips(sql, p + 4);
      AllSpaceSlice(sql, p + 4, k);
      WordEndSkips(sql, k);
      assert FromMatch(sql, p, k, sql[k..e]);
    } else {
      FromCaptureSound(sql, p + 1);
    }
  }

  /** A match of the regular expression at `q`: `from`, white space, a non-empty word and a `.`. */
  predicate FromWordMatch(sql: string, q: nat, k: nat, name: string) {
    FromMatch(sql, q, k, name) && name != [] && forall j :: 0 <= j < |name| ==> IsWordChar(name[j])
  }

  /** A run of word characters from `k` that stops at `e` ends the word at `e`. */
  lemma {:induction false} WordEndAt(s: string, k: nat, e: nat)
    requires k <= e <= |s|
    requires forall j :: k <= j < e ==> IsWordChar(s[j])
    requires e == |s| || !IsWordChar(s[e])
    ensures WordEnd(s, k) == e
    decreases e - k
  {
    if k < e {
      WordEndAt(s, k + 1, e);
    }
  }

  /** The capture at `q` is exactly the word of a match at `q`. */
  lemma FromCaptureAtIff(sql: string, q: nat, k: nat, name: string)
    requires q <= |sql|
    ensures FromWordMatch(sql, q, k, name) ==> FromCaptureAt(sql, q) == Some(name)
    ensures FromCaptureAt(sql, q).Some? ==> exists k' :: FromWordMatch(sql, q, k', FromCaptureAt(sql, q).value)
  {
    if FromWordMatch(sql, q, k, name) {
      var e := k + |name|;
      forall j | q + 4 <= j < k ensures IsSpace(sql[j]) {
        assert sql[q + 4..k][j - (q + 4)] == sql[j];
      }
      assert sql[k] == name[0];
      SpacesFromAt(sql, q + 4, k);
      forall j | k <= j < e ensures IsWordChar(sql[j]) {
        assert sql[k..e][j - k] == sql[j];
      }
      WordEndAt(sql, k, e);
    }
    if FromCaptureAt(sql, q).Some? {
      var k' := SpacesFrom(sql, q + 4);
      SpacesFromSkips(sql, q + 4);
      AllSpaceSlice(sql, q + 4, k');
      WordEndSkips(sql, k');
      assert FromWordMatch(sql, q, k', FromCaptureAt(sql, q).value);
    }
  }

  /** Whenever the statement holds a match at or after `p`, a capture is found. */
  lemma {:induction false} FirstFromCaptureFinds(sql: string, p: nat, q: nat, k: nat, name: string)
    requires p <= q <= |sql| && FromWordMatch(sql, q, k, name)
    ensures FirstFromCapture(sql, p).Some?
    decreases q - p
  {
    FromCaptureAtIff(sql, p, k, name);
    if FromCaptureAt(sql, p).None? {
      FirstFromCaptureFinds(sql, p + 1, q, k, name);
    }
  }

  /** The capture is the word of the leftmost match, as `String.prototype.match` returns. */
  lemma {:induction false} FirstFromCaptureLeftmost(sql: string, p: nat, q: nat, k: nat, name: string)
    requires p <= q <= |sql| && FromWordMatch(sql, q, k, name)
    requires forall r, k', n' :: p <= r < q ==> !FromWordMatch(sql, r, k', n')
    ensures FirstFromCapture(sql, p) == Some(name)
    decreases q - p
  {
    FromCaptureAtIff(sql, q, k, name);
    if p < q {
      FromCaptureAtIff(sql, p, k, name);
      FirstFromCaptureLeftmost(sql, p + 1, q, k, name);
    }
  }

  /**
   * `sqlQuery.toLowerCase().startsWith('select' | 'show' | 'describe')`:
   * leading white space is not trimmed, unlike the route that runs queries.
   */
  predicate IsReadOnly(sql: string) {
    var lower := ToLower(sql);
    StartsWith(lower, "select") || StartsWith(lower, "show") || StartsWith(lower, "describe")
  }

  /** A statement starting with white space is refused even when a `SELECT` follows it. */
  lemma LeadingSpaceNotReadOnly(sql: string)
    requires sql != [] && IsSpace(sql[0])
    ensures !IsReadOnly(sql)
  {
    var lower := ToLower(sql);
    assert lower[0] == sql[0];
  }

  /**
   * The statement generation returns is trimmed, so it never starts with white
   * space: in the flow, the untrimmed gate refuses no `SELECT` for a leading blank.
   */
  lemma GeneratedSqlTrimmed(query: string, schema: Schema, selectedDB: Option<string>, jsonSize: Schema -> nat,
                            llm: Request -> Result<string, ApiError>)
    ensures var sql := GeneratedSql(query, schema, selectedDB, jsonSize, llm);
      sql.Success? && sql.value != [] ==> !IsSpace(sql.value[0])
  {
  }

  // ---------------------------------------------------------------------------
  // The schema context of a question.
  // ---------------------------------------------------------------------------

  /** `allDatabases.filter(db => !systemDatabases.includes(db))`. */
  function UserDatabases(all: seq<string>): (r: seq<string>)
    ensures forall d :: d in r <==> d in all && !IsSystemDatabase(d)
    ensures |r| > 0 ==>
      exists i :: 0 <= i < |all| && r[0] == all[i] && !IsSystemDatabase(all[i]) && forall j :: 0 <= j < i ==> IsSystemDatabase(all[j])
    decreases |all|
  {
    if all == [] then []
    else
      var rest := UserDatabases(all[1..]);
      assert forall d :: d in all <==> d == all[0] || d in all[1..];
      if IsSystemDatabase(all[0]) then
        assert forall i :: 0 < i < |all| ==> all[i] == all[1..][i - 1];
        rest
      else [all[0]] + rest
  }

  /** The database the question is about: the one given, else the one detected, else none. */
  function ChosenDatabase(query: string, database: Option<string>, userDatabases: seq<string>): Option<string> {
    if Given(database) then database
    else
      var detected := FirstMentioned(ToLower(query), userDatabases);
      if Given(detected) then detected else database
  }

  /** Whether the question, lower-cased, contains the database's name as it is or with `_` read as a space. */
  predicate PossiblyMeant(queryLower: string, db: string) {
    Contains(queryLower, UnderscoresToSpaces(ToLower(db))) || Contains(queryLower, ToLower(db))
  }

  /** The `possibleDBs` of a question without database and cache, in list order. */
  function PossibleDatabases(queryLower: string, dbs: seq<string>): (r: seq<string>)
    ensures forall d :: d in r <==> d in dbs && PossiblyMeant(queryLower, d)
    decreases |dbs|
  {
    if dbs == [] then []
    else
      var n := |dbs| - 1;
      assert forall d :: d in dbs <==> d in dbs[..n] || d == dbs[n];
      PossibleDatabases(queryLower, dbs[..n]) + (if PossiblyMeant(queryLower, dbs[n]) then [dbs[n]] else [])
  }

  /** `schemaContext[db] = await getDatabaseSchema(db)` for each name in turn; the first failure is thrown. */
  function FetchAll(driver: Driver, acc: Schema, dbs: seq<string>): Result<Schema, string>
    decreases |dbs|
  {
    if dbs == [] then Success(acc)
    else match Introspect(driver, dbs[0])
      case Failure(e) => Failure(e)
      case Success(d) => FetchAll(driver, Put<Database>(acc, dbs[0], d), dbs[1..])
  }

  /**
   * The fetch succeeds exactly when every named database can be read, and
   * then holds each named database with its live schema; other names are as
   * in `acc`.
   */
  lemma {:induction false} FetchAllGet(driver: Driver, acc: Schema, dbs: seq<string>, d: string)
    ensures FetchAll(driver, acc, dbs).Success? <==> forall i :: 0 <= i < |dbs| ==> Introspect(driver, dbs[i]).Success?
    ensures FetchAll(driver, acc, dbs).Success? ==>
      Get(FetchAll(driver, acc, dbs).value, d) == if d in dbs then Some(Introspect(driver, d).value) else Get(acc, d)
    decreases |dbs|
  {
    if dbs != [] {
      var rest := dbs[1..];
      assert d in dbs <==> d == dbs[0] || d in rest;
      assert forall i :: 0 < i < |dbs| ==> dbs[i] == rest[i - 1];
      match Introspect(driver, dbs[0])
      case Failure(e) =>
      case Success(schema) =>
        var next := Put<Database>(acc, dbs[0], schema);
        FetchAllGet(driver, next, rest, d);
        PutOthersUnchanged(acc, dbs[0], schema);
        if FetchAll(driver, next, rest).Success? {
          forall i | 0 <= i < |dbs| ensures Introspect(driver, dbs[i]).Success? {
            if i > 0 { assert Introspect(driver, rest[i - 1]).Success?; }
          }
        }
    }
  }

  /** With no name listed twice and none already in `acc`, the fetched databases follow the keys of `acc` in list order. */
  lemma {:induction false} FetchAllKeys(driver: Driver, acc: Schema, dbs: seq<string>)
    requires NoDuplicates(dbs)
    requires forall d :: d in dbs ==> !HasKey(acc, d)
    ensures FetchAll(driver, acc, dbs).Success? ==> Keys(FetchAll(driver, acc, dbs).value) == Keys(acc) + dbs
    decreases |dbs|
  {
    if dbs != [] {
      match Introspect(driver, dbs[0])
      case Failure(e) =>
      case Success(schema) =>
        PutFirstFresh(acc, dbs, schema);
        NoDuplicatesTail(dbs);
        FetchAllKeys(driver, Put<Database>(acc, dbs[0], schema), dbs[1..]);
        assert dbs == [dbs[0]] + dbs[1..];
    }
  }

  /**
   * The `schemaContext` of a question, from the cache as it was read: for a
   * chosen database, its cached entry or else its live schema, alone; without
   * one, the whole cache; without a cache, the live schemas of the databases
   * the question seems to name; failing those, every readable user database.
   */
  function ContextFor(cached: Option<Schema>, driver: Driver, chosen: Option<string>, query: string,
                      userDatabases: seq<string>): Result<Schema, string>
  {
    if Given(chosen) then
      var db := chosen.value;
      if cached.Some? && HasKey(cached.value, db) then Success([(db, Lookup(cached.value, db))])
      else match Introspect(driver, db)
        case Success(d) => Success([(db, d)])
        case Failure(e) => Failure(e)
    else if cached.Some? then Success(cached.value)
    else
      var possible := PossibleDatabases(ToLower(query), userDatabases);
      if |possible| > 0 then FetchAll(driver, [], possible)
      else match driver.databases
        case Success(all) => Success(ContextFrom(driver, [], all))
        case Failure(e) => Failure(e)
  }

  /**
   * Whether `ContextFor` ends in `buildSchemaContext`, which rebuilds the
   * aggregate and saves it: no database chosen, no cache read, no database
   * named in the question, and the list of databases read.
   */
  predicate RebuildsCache(cached: Option<Schema>, driver: Driver, chosen: Option<string>, query: string,
                          userDatabases: seq<string>) {
    && !Given(chosen) && cached.None?
    && PossibleDatabases(ToLower(query), userDatabases) == []
    && driver.databases.Success?
  }

  // ---------------------------------------------------------------------------
  // The target database.
  // ---------------------------------------------------------------------------

  /**
   * The database the statement runs against: the chosen one; else the name
   * after `from` in the statement; else the first database of the reduced
   * schema; else the first user database; else none (the driver's default).
   */
  function TargetDatabase(chosen: Option<string>, sql: string, relevant: Schema, userDatabases: seq<string>): Option<string> {
    if Given(chosen) then chosen
    else match FromDatabase(sql)
      case Some(name) => Some(name)
      case None =>
        if |relevant| > 0 && relevant[0].0 != "" then Some(relevant[0].0)
        else if |userDatabases| > 0 then Some(userDatabases[0])
        else None
  }

  /** Each rule applies only when every rule before it has nothing to offer, and some database is named while a user database exists. */
  lemma TargetPrecedence(chosen: Option<string>, sql: string, relevant: Schema, userDatabases: seq<string>)
    ensures Given(chosen) ==> TargetDatabase(chosen, sql, relevant, userDatabases) == chosen
    ensures !Given(chosen) && FromDatabase(sql).Some? ==>
      TargetDatabase(chosen, sql, relevant, userDatabases) == FromDatabase(sql)
    ensures !Given(chosen) && FromDatabase(sql).None? && |relevant| > 0 && relevant[0].0 != "" ==>
      TargetDatabase(chosen, sql, relevant, userDatabases) == Some(Keys(relevant)[0])
    ensures !Given(chosen) && FromDatabase(sql).None? && (|relevant| == 0 || relevant[0].0 == "") ==>
      TargetDatabase(chosen, sql, relevant, userDatabases) == if |userDatabases| > 0 then Some(userDatabases[0]) else None
    ensures |userDatabases| > 0 ==> TargetDatabase(chosen, sql, relevant, userDatabases).Some?
  {
  }

  // ---------------------------------------------------------------------------
  // processNaturalLanguageQuery.
  // ---------------------------------------------------------------------------

  /** The object returned for every question. */
  datatype Response = Response(query: string, sql: Option<string>, results: Option<QueryResult>, explanation: string)

  /** The response for an error thrown anywhere in the flow. */
  function Failed(query: string, message: string): Response {
    Response(query, None, None, "I encountered an error: " + message)
  }

  /** The loop that collects `possibleDBs`. */
  method PossibleDatabasesOf(query: string, userDatabases: seq<string>) returns (possibleDBs: seq<string>)
    ensures possibleDBs == PossibleDatabases(ToLower(query), userDatabases)
  {
    var queryLower := ToLower(query);
    possibleDBs := [];
    for i := 0 to |userDatabases|
      invariant possibleDBs == PossibleDatabases(queryLower, userDatabases[..i])
    {
      assert userDatabases[..i + 1][..i] == userDatabases[..i];
      var db := userDatabases[i];
      if Contains(queryLower, UnderscoresToSpaces(ToLower(db))) || Contains(queryLower, ToLower(db)) {
        possibleDBs := possibleDBs + [db];
      }
    }
    assert userDatabases[..|userDatabases|] == userDatabases;
  }

  /** `schemaContext[db] = await getDatabaseSchema(db)` for each possible database, with no cache to read. */
  method FetchSchemas(cache: CacheStore, driver: Driver, possibleDBs: seq<string>) returns (r: Result<Schema, string>)
    requires cache.Loaded().None?
    ensures r == FetchAll(driver, [], possibleDBs)
  {
    var schemaContext: Schema := [];
    for i := 0 to |possibleDBs|
      invariant FetchAll(driver, schemaContext, possibleDBs[i..]) == FetchAll(driver, [], possibleDBs)
    {
      assert possibleDBs[i..][1..] == possibleDBs[i + 1..];
      var databaseSchema := GetDatabaseSchema(cache, driver, possibleDBs[i], true);
      if databaseSchema.Failure? {
        return Failure(databaseSchema.error);
      }
      schemaContext := Put<Database>(schemaContext, possibleDBs[i], databaseSchema.value);
    }
    return Success(schemaContext);
  }

  /** The start of `processNaturalLanguageQuery`: the database given, or else the one detected in the question. */
  method SelectDatabase(query: string, database: Option<string>, userDatabases: seq<string>) returns (selected: Option<string>)
    ensures selected == ChosenDatabase(query, database, userDatabases)
  {
    selected := database;
    if !Given(selected) {
      var detectedDatabase := DetectDatabaseFromQuery(query, Some(userDatabases));
      if Given(detectedDatabase) {
        selected := detectedDatabase;
      }
    }
  }

  /** The reassignments of `targetDatabase`, one rule after the other. */
  method ResolveTargetDatabase(selected: Option<string>, sql: string, relevantSchema: Schema, userDatabases: seq<string>)
    returns (targetDatabase: Option<string>)
    ensures targetDatabase == TargetDatabase(selected, sql, relevantSchema, userDatabases)
  {
    targetDatabase := selected;
    if !Given(targetDatabase) {
      var dbMatch := FromDatabase(sql);
      if dbMatch.Some? {
        targetDatabase := dbMatch;
      } else {
        var databases := Keys(relevantSchema);
        targetDatabase := if |databases| > 0 then Some(databases[0]) else None;
        if !Given(targetDatabase) {
          targetDatabase := if |userDatabases| > 0 then Some(userDatabases[0]) else None;
        }
      }
    }
  }

  /**
   * The part of `processNaturalLanguageQuery` that builds `schemaContext`
   * for the database selected so far; a thrown error is returned as a failure.
   */
  method BuildQuestionContext(cache: CacheStore, driver: Driver, query: string, selected: Option<string>,
                              userDatabases: seq<string>, writeOk: bool)
    returns (r: Result<Schema, string>)
    modifies cache
    ensures r == ContextFor(old(cache.Loaded()), driver, selected, query, userDatabases)
    ensures cache.file == if RebuildsCache(old(cache.Loaded()), driver, selected, query, userDatabases) && writeOk
      then Stored(ContextFrom(driver, [], driver.databases.value)) else old(cache.file)
  {
    var cachedSchema := cache.LoadCachedSchema();
    var schemaContext: Schema;
    if Given(selected) {
      if cachedSchema.Some? && HasKey(cachedSchema.value, selected.value) {
        schemaContext := [(selected.value, Lookup(cachedSchema.value, selected.value))];
      } else {
        var databaseSchema := GetDatabaseSchema(cache, driver, selected.value, true);
        if databaseSchema.Failure? {
          return Failure(databaseSchema.error);
        }
        schemaContext := [(selected.value, databaseSchema.value)];
      }
    } else if cachedSchema.Some? {
      schemaContext := cachedSchema.value;
    } else {
      var possibleDBs := PossibleDatabasesOf(query, userDatabases);
      if |possibleDBs| > 0 {
        r := FetchSchemas(cache, driver, possibleDBs);
        return r;
      } else {
        var built := BuildSchemaContext(cache, driver, true, writeOk);
        if built.Failure? {
          return Failure(built.error);
        }
        schemaContext := built.value;
      }
    }
    return Success(schemaContext);
  }

  /**
   * `processNaturalLanguageQuery(query, database)`. Besides the response it
   * reports what SQL generation produced (`generated`, when it was reached)
   * and the database and statement handed to the driver (`executed`, when a
   * statement was run). SQL is generated from the full schema context; the
   * reduced one only serves to pick the target database.
   */
  method ProcessNaturalLanguageQuery(cache: CacheStore, driver: Driver, llm: Request -> Result<string, ApiError>,
                                     jsonSize: Schema -> nat, writeOk: bool, query: string, database: Option<string>)
    returns (resp: Response, generated: Option<Result<string, string>>, executed: Option<(Option<string>, string)>)
    modifies cache
    ensures resp.query == query
    ensures resp.sql.None? <==> resp.results.None?
    ensures driver.databases.Failure? ==> resp == Failed(query, driver.databases.error) && generated.None?
    ensures driver.databases.Success? ==>
      var userDatabases := UserDatabases(driver.databases.value);
      var chosen := ChosenDatabase(query, database, userDatabases);
      var context := ContextFor(old(cache.Loaded()), driver, chosen, query, userDatabases);
      && (context.Failure? ==> resp == Failed(query, context.error) && generated.None?)
      && (context.Success? ==> generated == Some(GeneratedSql(query, context.value, chosen, jsonSize, llm)))
      && (executed.Some? ==>
            context.Success? &&
            executed.value.0 == TargetDatabase(chosen, executed.value.1, RelevantSchema(query, context.value), userDatabases))
      && (context.Success? ==>
            var sql := GeneratedSql(query, context.value, chosen, jsonSize, llm);
            sql.Success? && IsReadOnly(sql.value) ==>
              executed == Some((TargetDatabase(chosen, sql.value, RelevantSchema(query, context.value), userDatabases), sql.value)))
      && cache.file == if RebuildsCache(old(cache.Loaded()), driver, chosen, query, userDatabases) && writeOk
           then Stored(ContextFrom(driver, [], driver.databases.value)) else old(cache.file)
    ensures generated.Some? && generated.value.Failure? ==> resp == Failed(query, generated.value.error) && executed.None?
    ensures generated.Some? && generated.value.Success? && !IsReadOnly(generated.value.value) ==>
      resp == Response(query, None, None, generated.value.value) && executed.None?
    ensures executed.Some? ==> generated == Some(Success(executed.value.1)) && IsReadOnly(executed.value.1)
    ensures resp.sql.Some? ==> executed.Some? && resp.sql.value == executed.value.1
    ensures executed.Some? ==>
      var (target, sql) := executed.value;
      var results := driver.execute(target, sql);
      && (results.Failure? ==> resp == Failed(query, results.error))
      && (results.Success? && Explanation(query, results.value, llm).Failure? ==>
            resp == Failed(query, Explanation(query, results.value, llm).error))
      && (results.Success? && Explanation(query, results.value, llm).Success? ==>
            resp == Response(query, Some(sql), Some(results.value), Explanation(query, results.value, llm).value))
    ensures driver.databases.Failure? ==> cache.file == old(cache.file)
  {
    generated, executed := None, None;
    var allDatabases := GetAllDatabases(driver);
    if allDatabases.Failure? {
      return Failed(query, allDatabases.error), generated, executed;
    }
    var userDatabases := UserDatabases(allDatabases.value);

    var selected := SelectDatabase(query, database, userDatabases);

    var built := BuildQuestionContext(cache, driver, query, selected, userDatabases, writeOk);
    if built.Failure? {
      return Failed(query, built.error), generated, executed;
    }
    var schemaContext := built.value;

    var relevantSchema := IdentifyRelevantTables(query, schemaContext);
    var sqlQuery, _ := GenerateSQLFromNaturalLanguage(query, schemaContext, selected, jsonSize, llm);
    generated := Some(sqlQuery);
    if sqlQuery.Failure? {
      return Failed(query, sqlQuery.error), generated, executed;
    }
    var sql := sqlQuery.value;
    if !IsReadOnly(sql) {
      return Response(query, None, None, sql), generated, executed;
    }

    var targetDatabase := ResolveTargetDatabase(selected, sql, relevantSchema, userDatabases);
    executed := Some((targetDatabase, sql));
    var results := ExecuteCustomQuery(driver, sql, targetDatabase);
    if results.Failure? {
      return Failed(query, results.error), generated, executed;
    }
    var explanation, _ := ExplainResultsInNaturalLanguage(query, results.value, llm);
    if explanation.Failure? {
      return Failed(query, explanation.error), generated, executed;
    }
    return Response(query, Some(sql), Some(results.value), explanation.value), generated, executed;
  }
}

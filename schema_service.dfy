/**
 * Schema discovery against the live MySQL server, with the cache file in
 * front of it, and the pass-through for running a generated statement.
 */
module SchemaService {
  import opened Wrappers
  import opened OrderedMaps
  import opened SchemaModel
  import opened SchemaCache

  /**
   * The database driver, as the answers it would give: `SHOW DATABASES`,
   * `SHOW TABLES` in a database, `DESCRIBE` of a table in a database, and
   * running a statement (on the pool of the named database, or on the default
   * pool for `None`). Each answer is a result or the driver's error message.
   */
  datatype Driver = Driver(
    databases: Result<seq<string>, string>,
    tables: string -> Result<seq<string>, string>,
    describe: (string, string) -> Result<Table, string>,
    execute: (Option<string>, string) -> Result<QueryResult, string>)

  // ---------------------------------------------------------------------------
  // One database.
  // ---------------------------------------------------------------------------

  /**
   * The loop over the table names: `schemaInfo[table] = DESCRIBE rows`, in
   * order, starting from `acc`; the first table whose description fails ends
   * it with that error.
   */
  function DescribeFrom(driver: Driver, database: string, acc: Database, tables: seq<string>): Result<Database, string>
    decreases |tables|
  {
    if tables == [] then Success(acc)
    else
      match driver.describe(database, tables[0])
      case Failure(e) => Failure(e)
      case Success(rows) => DescribeFrom(driver, database, Put<Table>(acc, tables[0], rows), tables[1..])
  }

  /** The schema of one database read from the server: its tables, each with its `DESCRIBE` rows. */
  function Introspect(driver: Driver, database: string): Result<Database, string> {
    match driver.tables(database)
    case Failure(e) => Failure(e)
    case Success(tables) => DescribeFrom(driver, database, [], tables)
  }

  /** Every table of the list can be described. */
  predicate AllDescribed(driver: Driver, database: string, tables: seq<string>) {
    forall i :: 0 <= i < |tables| ==> driver.describe(database, tables[i]).Success?
  }

  /**
   * The loop succeeds exactly when every table can be described, and then
   * holds for each listed table its rows and leaves every other name as it was.
   */
  lemma {:induction false} DescribeFromSuccess(driver: Driver, database: string, acc: Database, tables: seq<string>)
    ensures DescribeFrom(driver, database, acc, tables).Success? <==> AllDescribed(driver, database, tables)
    ensures DescribeFrom(driver, database, acc, tables).Success? ==>
      forall t :: Get(DescribeFrom(driver, database, acc, tables).value, t)
               == if t in tables then Some(driver.describe(database, t).value) else Get(acc, t)
    decreases |tables|
  {
    if tables != [] {
      var rest := tables[1..];
      assert forall t :: t in tables <==> t == tables[0] || t in rest;
      match driver.describe(database, tables[0])
      case Failure(e) =>
      case Success(rows) =>
        var next := Put<Table>(acc, tables[0], rows);
        DescribeFromSuccess(driver, database, next, rest);
        PutOthersUnchanged(acc, tables[0], rows);
        assert AllDescribed(driver, database, tables) <==> AllDescribed(driver, database, rest) by {
          if AllDescribed(driver, database, rest) {
            forall i | 0 <= i < |tables| ensures driver.describe(database, tables[i]).Success? {
              if i > 0 { assert tables[i] == rest[i - 1]; }
            }
          }
        }
    }
  }

  /**
   * With no table listed twice and none of them already in `acc`, the loop
   * adds the tables' keys after those of `acc`, in the order of the list.
   */
  lemma {:induction false} DescribeFromKeys(driver: Driver, database: string, acc: Database, tables: seq<string>)
    requires NoDuplicates(tables)
    requires forall t :: t in tables ==> !HasKey(acc, t)
    ensures DescribeFrom(driver, database, acc, tables).Success? ==>
      Keys(DescribeFrom(driver, database, acc, tables).value) == Keys(acc) + tables
    decreases |tables|
  {
    if tables != [] {
      match driver.describe(database, tables[0])
      case Failure(e) =>
      case Success(rows) =>
        PutFirstFresh(acc, tables, rows);
        NoDuplicatesTail(tables);
        DescribeFromKeys(driver, database, Put<Table>(acc, tables[0], rows), tables[1..]);
        assert tables == [tables[0]] + tables[1..];
    }
  }

  /** The schema read from the server lists its tables in the order `SHOW TABLES` gave them. */
  lemma IntrospectKeys(driver: Driver, database: string)
    requires driver.tables(database).Success? && NoDuplicates(driver.tables(database).value)
    requires Introspect(driver, database).Success?
    ensures Keys(Introspect(driver, database).value) == driver.tables(database).value
  {
    DescribeFromKeys(driver, database, [], driver.tables(database).value);
  }

  /** The position of the first table that cannot be described, or the number of tables. */
  function FirstUndescribed(driver: Driver, database: string, tables: seq<string>): (i: nat)
    ensures i <= |tables|
    ensures i < |tables| ==> driver.describe(database, tables[i]).Failure?
    ensures forall j :: 0 <= j < i ==> driver.describe(database, tables[j]).Success?
    decreases |tables|
  {
    if tables == [] || driver.describe(database, tables[0]).Failure? then 0
    else 1 + FirstUndescribed(driver, database, tables[1..])
  }

  /** When the loop fails, it fails with the error of the first table that cannot be described. */
  lemma {:induction false} DescribeFromFailure(driver: Driver, database: string, acc: Database, tables: seq<string>)
    requires DescribeFrom(driver, database, acc, tables).Failure?
    ensures FirstUndescribed(driver, database, tables) < |tables|
    ensures DescribeFrom(driver, database, acc, tables).error
         == driver.describe(database, tables[FirstUndescribed(driver, database, tables)]).error
    decreases |tables|
  {
    var rest := tables[1..];
    if driver.describe(database, tables[0]).Success? {
      var next := Put<Table>(acc, tables[0], driver.describe(database, tables[0]).value);
      assert DescribeFrom(driver, database, acc, tables) == DescribeFrom(driver, database, next, rest);
      DescribeFromFailure(driver, database, next, rest);
      var j := FirstUndescribed(driver, database, rest);
      assert FirstUndescribed(driver, database, tables) == 1 + j;
      assert tables[1 + j] == rest[j];
    }
  }

  /** The introspection loop of `getDatabaseSchema`, filling `schemaInfo` in place. */
  method DescribeTables(driver: Driver, database: string, tables: seq<string>) returns (r: Result<Database, string>)
    ensures r == DescribeFrom(driver, database, [], tables)
  {
    var schemaInfo: Database := [];
    for i := 0 to |tables|
      invariant DescribeFrom(driver, database, schemaInfo, tables[i..]) == DescribeFrom(driver, database, [], tables)
    {
      assert tables[i..][1..] == tables[i + 1..];
      var tableSchema := driver.describe(database, tables[i]);
      if tableSchema.Failure? {
        return Failure(tableSchema.error);
      }
      schemaInfo := Put<Table>(schemaInfo, tables[i], tableSchema.value);
    }
    return Success(schemaInfo);
  }

  /** The cached entry `getDatabaseSchema` uses, if any. */
  function CachedDatabase(cached: Option<Schema>, database: string): Option<Database> {
    if cached.Some? then Get<Database>(cached.value, database) else None
  }

  /**
   * `getDatabaseSchema(database, useCache)`: with the cache enabled and an
   * entry for the database in it, that entry; otherwise the schema read from
   * the server, whose first error is passed on. The cache is only read.
   */
  method GetDatabaseSchema(cache: CacheStore, driver: Driver, database: string, useCache: bool)
    returns (r: Result<Database, string>)
    ensures useCache && CachedDatabase(cache.Loaded(), database).Some? ==>
      r == Success(CachedDatabase(cache.Loaded(), database).value)
    ensures !(useCache && CachedDatabase(cache.Loaded(), database).Some?) ==> r == Introspect(driver, database)
  {
    if useCache {
      var cachedSchema := cache.LoadCachedSchema();
      if cachedSchema.Some? && HasKey(cachedSchema.value, database) {
        return Success(Lookup(cachedSchema.value, database));
      }
    }
    var tables := driver.tables(database);
    if tables.Failure? {
      return Failure(tables.error);
    }
    r := DescribeTables(driver, database, tables.value);
  }

  /** `getAllDatabases()`: the server's list of databases, or its error. */
  method GetAllDatabases(driver: Driver) returns (r: Result<seq<string>, string>)
    ensures r.Success? <==> driver.databases.Success?
    ensures r.Success? ==> r.value == driver.databases.value
    ensures r.Failure? ==> r.error == driver.databases.error
  {
    r := driver.databases;
  }

  // ---------------------------------------------------------------------------
  // Every database.
  // ---------------------------------------------------------------------------

  /** Whether `buildSchemaContext` keeps database `d`: not a system database, and readable. */
  predicate Kept(driver: Driver, d: string) {
    !IsSystemDatabase(d) && Introspect(driver, d).Success?
  }

  /** The loop over the databases: system databases and databases that fail are skipped. */
  function ContextFrom(driver: Driver, acc: Schema, databases: seq<string>): Schema
    decreases |databases|
  {
    if databases == [] then acc
    else
      var d := databases[0];
      var next := if Kept(driver, d) then Put<Database>(acc, d, Introspect(driver, d).value) else acc;
      ContextFrom(driver, next, databases[1..])
  }

  /**
   * The context holds exactly the listed databases that are kept, each with the
   * schema read from the server; other names are as in `acc`.
   */
  lemma {:induction false} ContextFromGet(driver: Driver, acc: Schema, databases: seq<string>, d: string)
    ensures Get(ContextFrom(driver, acc, databases), d)
         == if d in databases && Kept(driver, d) then Some(Introspect(driver, d).value) else Get(acc, d)
    decreases |databases|
  {
    if databases != [] {
      assert d in databases <==> d == databases[0] || d in databases[1..];
      var d0 := databases[0];
      var next := if Kept(driver, d0) then Put<Database>(acc, d0, Introspect(driver, d0).value) else acc;
      ContextFromGet(driver, next, databases[1..], d);
      if Kept(driver, d0) {
        PutOthersUnchanged(acc, d0, Introspect(driver, d0).value);
      }
    }
  }

  /** The listed databases that `buildSchemaContext` keeps, in list order. */
  function KeptOf(driver: Driver, databases: seq<string>): (r: seq<string>)
    ensures forall d :: d in r <==> d in databases && Kept(driver, d)
    decreases |databases|
  {
    if databases == [] then []
    else
      assert forall d :: d in databases <==> d == databases[0] || d in databases[1..];
      (if Kept(driver, databases[0]) then [databases[0]] else []) + KeptOf(driver, databases[1..])
  }

  /**
   * With no database listed twice and none of them already in `acc`, the
   * context adds the kept databases after the keys of `acc`, in list order.
   */
  lemma {:induction false} ContextFromKeys(driver: Driver, acc: Schema, databases: seq<string>)
    requires NoDuplicates(databases)
    requires forall d :: d in databases ==> !HasKey(acc, d)
    ensures Keys(ContextFrom(driver, acc, databases)) == Keys(acc) + KeptOf(driver, databases)
    decreases |databases|
  {
    if databases != [] {
      var d := databases[0];
      var rest := databases[1..];
      NoDuplicatesTail(databases);
      if Kept(driver, d) {
        var next := Put<Database>(acc, d, Introspect(driver, d).value);
        PutFirstFresh(acc, databases, Introspect(driver, d).value);
        ContextFromKeys(driver, next, rest);
        assert Keys(acc) + [d] + KeptOf(driver, rest) == Keys(acc) + KeptOf(driver, databases);
      } else {
        forall n | n in rest ensures !HasKey(acc, n) {
          var j :| 0 <= j < |rest| && rest[j] == n;
          assert databases[j + 1] == n;
        }
        ContextFromKeys(driver, acc, rest);
      }
    }
  }

  /** A system database never appears in the context, whatever the server says about it. */
  lemma SystemDatabasesSkipped(driver: Driver, databases: seq<string>, d: string)
    requires IsSystemDatabase(d)
    ensures !HasKey(ContextFrom(driver, [], databases), d)
  {
    ContextFromGet(driver, [], databases, d);
  }

  /**
   * `buildSchemaContext(useCache)`: a non-empty cached schema when the cache
   * is enabled; otherwise the context built from the server, which is then
   * saved to the cache. Only a failure to list the databases is an error.
   */
  method BuildSchemaContext(cache: CacheStore, driver: Driver, useCache: bool, writeOk: bool)
    returns (r: Result<Schema, string>)
    modifies cache
    ensures var hit := useCache && old(cache.Loaded()).Some? && |old(cache.Loaded()).value| > 0;
      && (hit ==> r == Success(old(cache.Loaded()).value) && cache.file == old(cache.file))
      && (!hit && driver.databases.Failure? ==> r == Failure(driver.databases.error) && cache.file == old(cache.file))
      && (!hit && driver.databases.Success? ==>
            && r == Success(ContextFrom(driver, [], driver.databases.value))
            && cache.file == if writeOk then Stored(r.value) else old(cache.file))
  {
    if useCache {
      var cachedSchema := cache.LoadCachedSchema();
      if cachedSchema.Some? && |cachedSchema.value| > 0 {
        return Success(cachedSchema.value);
      }
    }
    var databases := GetAllDatabases(driver);
    if databases.Failure? {
      return Failure(databases.error);
    }
    var names := databases.value;
    var schemaContext: Schema := [];
    for i := 0 to |names|
      invariant ContextFrom(driver, schemaContext, names[i..]) == ContextFrom(driver, [], names)
      invariant cache.file == old(cache.file)
    {
      assert names[i..][1..] == names[i + 1..];
      if IsSystemDatabase(names[i]) {
        continue;
      }
      var databaseSchema := GetDatabaseSchema(cache, driver, names[i], false);
      if databaseSchema.Success? {
        schemaContext := Put<Database>(schemaContext, names[i], databaseSchema.value);
      }
    }
    cache.SaveSchemaToCache(schemaContext, writeOk);
    return Success(schemaContext);
  }

  /** `executeCustomQuery(sql, database)`: the driver's answer, rows or error, passed on unchanged. */
  method ExecuteCustomQuery(driver: Driver, sql: string, database: Option<string>) returns (r: Result<QueryResult, string>)
    ensures r.Success? <==> driver.execute(database, sql).Success?
    ensures r.Success? ==> r.value == driver.execute(database, sql).value
    ensures r.Failure? ==> r.error == driver.execute(database, sql).error
  {
    r := driver.execute(database, sql);
  }
}

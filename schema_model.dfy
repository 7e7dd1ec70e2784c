/**
 * The shape of the schema the services pass around: database name -> table
 * name -> ordered list of column records, as the MySQL `DESCRIBE` rows or
 * the cache file hold them.
 */
module SchemaModel {
  import opened Wrappers
  import opened OrderedMaps

  /**
   * A property value of a column record. Strings are what the text parser and
   * the driver produce; any other JSON value (an array of references, a number,
   * `null`, ...) is kept opaque and only its JavaScript truthiness is visible.
   */
  datatype Value = Text(s: string) | Other(truthy: bool, token: nat)

  /** JavaScript truthiness of a property value (`if (col.References)`). */
  predicate Truthy(v: Value) {
    match v
    case Text(s) => s != ""
    case Other(t, _) => t
  }

  /** A column record: `Field`, the optional `Type`, `Key` and `References`, and every other property. */
  datatype Column = Column(
    field: string,
    typ: Option<string>,
    key: Option<string>,
    references: Option<Value>,
    extras: OMap<Value>)

  /** A column record holding only its `Field`. */
  function BareColumn(name: string): Column {
    Column(name, None, None, None, [])
  }

  type Table = seq<Column>
  type Database = OMap<Table>
  type Schema = OMap<Database>

  /** The databases both services skip. */
  const SystemDatabases: seq<string> := ["information_schema", "mysql", "performance_schema", "sys"]

  predicate IsSystemDatabase(name: string) {
    name in SystemDatabases
  }

  /** A result row of a query: column name -> value, in the order MySQL returns them. */
  type Row = OMap<Value>

  /**
   * What the driver returns for a statement: the rows of a query, or the
   * summary object of a statement that returns none (`ResultSetHeader`),
   * which is not an array.
   */
  datatype QueryResult = Rows(rows: seq<Row>) | Summary(token: nat)
}

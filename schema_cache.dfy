/**
 * The schema cache file and the simplified text format of
 * src/backend/services/schemaCache.js: loading and saving the cached
 * snapshot, merging manual entries into it, and parsing lines of the form
 * `database.table: column(attribute), column, ...`.
 */
module SchemaCache {
  import opened Wrappers
  import opened Text
  import opened OrderedMaps
  import opened SchemaModel

  // ---------------------------------------------------------------------------
  // The two regular expressions of the parser, as functions.
  // ---------------------------------------------------------------------------

  /** The captures of `/^([^.]+)\.([^:]+):\s*(.+)$/` on one line. */
  datatype LineMatch = LineMatch(database: string, table: string, columnsText: string)

  /**
   * Where `\s*(.+)$` starts its capture in `line` when it is tried at `from`: the
   * greedy `\s*` takes every white-space character unless that leaves nothing for
   * `(.+)`, in which case it gives the last character back. `.` does not match a
   * line terminator, and `$` is the end of the line.
   */
  function CaptureStart(line: string, from: nat): Option<nat>
    requires from <= |line|
  {
    var k := SpacesFrom(line, from);
    if k < |line| then
      if LineTerminatorFrom(line, k) == |line| then Some(k) else None
    else if from < |line| && !IsLineTerminator(line[|line| - 1]) then Some(|line| - 1)
    else None
  }

  /** The capture is a non-empty run without line terminators up to the end, after white space only. */
  lemma CaptureStartSound(line: string, from: nat)
    requires from <= |line| && CaptureStart(line, from).Some?
    ensures var k := CaptureStart(line, from).value;
      && from <= k < |line|
      && (forall j :: k <= j < |line| ==> !IsLineTerminator(line[j]))
      && (forall j :: from <= j < k ==> IsSpace(line[j]))
      && (k == |line| - 1 || !IsSpace(line[k]))
  {
    var k := SpacesFrom(line, from);
    SpacesFromSkips(line, from);
    if k < |line| {
      LineTerminatorFromSkips(line, k);
    }
  }

  /**
   * `line.match(/^([^.]+)\.([^:]+):\s*(.+)$/)`: the database is the text before
   * the first `.`, the table the text from there to the next `:`, both non-empty.
   */
  function MatchLine(line: string): Option<LineMatch> {
    var p := FindFrom(line, '.', 0);
    if p == 0 || p == |line| then None
    else
      var q := FindFrom(line, ':', p + 1);
      if q == p + 1 || q == |line| then None
      else
        match CaptureStart(line, q + 1)
        case None => None
        case Some(k) => Some(LineMatch(line[..p], line[p + 1..q], line[k..]))
  }

  /** The line is `d.t:`, then white space, then the captured column text. */
  predicate LineShape(line: string, m: LineMatch) {
    var p := |m.database|;
    var q := p + 1 + |m.table|;
    var c := |line| - |m.columnsText|;
    && m.database != [] && '.' !in m.database
    && m.table != [] && ':' !in m.table
    && m.columnsText != [] && NoLineTerminator(m.columnsText)
    && q < c
    && line[..p] == m.database && line[p] == '.'
    && line[p + 1..q] == m.table && line[q] == ':'
    && AllSpace(line[q + 1..c]) && line[c..] == m.columnsText
  }

  /** A match splits the line at its first `.` and the first `:` after it. */
  lemma MatchLineSound(line: string)
    requires MatchLine(line).Some?
    ensures LineShape(line, MatchLine(line).value)
  {
    var p := FindFrom(line, '.', 0);
    var q := FindFrom(line, ':', p + 1);
    var k := CaptureStart(line, q + 1).value;
    assert MatchLine(line).value == LineMatch(line[..p], line[p + 1..q], line[k..]);
    FindFromSkips(line, '.', 0);
    FindFromSkips(line, ':', p + 1);
    CaptureStartSound(line, q + 1);
    SlicesShape(line, p, q, k);
  }

  /** The slices of a line cut at `p` (a `.`), `q` (a `:`) and `k`, when each piece has the right characters. */
  lemma SlicesShape(line: string, p: nat, q: nat, k: nat)
    requires 0 < p && p + 1 < q && q < k < |line|
    requires line[p] == '.' && line[q] == ':'
    requires forall j :: 0 <= j < p ==> line[j] != '.'
    requires forall j :: p + 1 <= j < q ==> line[j] != ':'
    requires forall j :: q + 1 <= j < k ==> IsSpace(line[j])
    requires forall j :: k <= j < |line| ==> !IsLineTerminator(line[j])
    ensures LineShape(line, LineMatch(line[..p], line[p + 1..q], line[k..]))
  {
    AbsentFromSlice(line, '.', 0, p);
    AbsentFromSlice(line, ':', p + 1, q);
    AllSpaceSlice(line, q + 1, k);
    NoLineTerminatorSlice(line, k, |line|);
  }

  /** Every line of the shape `d.t:` + white space + text matches, and the captures are `d` and `t`. */
  lemma MatchLineComplete(line: string, m: LineMatch)
    requires LineShape(line, m)
    ensures MatchLine(line).Some? && MatchLine(line).value.database == m.database
      && MatchLine(line).value.table == m.table
  {
    var p := |m.database|;
    var q := p + 1 + |m.table|;
    var c := |line| - |m.columnsText|;
    ShapeCharacters(line, m);
    FindFromIs(line, '.', 0, p);
    FindFromIs(line, ':', p + 1, q);
    CaptureStartFound(line, q + 1, c);
  }

  /** What `LineShape` says about the single characters of the line. */
  lemma ShapeCharacters(line: string, m: LineMatch)
    requires LineShape(line, m)
    ensures forall j :: 0 <= j < |m.database| ==> line[j] != '.'
    ensures forall j :: |m.database| + 1 <= j < |m.database| + 1 + |m.table| ==> line[j] != ':'
    ensures forall j :: |m.database| + 1 + |m.table| + 1 <= j < |line| - |m.columnsText| ==> IsSpace(line[j])
    ensures forall j :: |line| - |m.columnsText| <= j < |line| ==> !IsLineTerminator(line[j])
  {
    var p := |m.database|;
    var q := p + 1 + |m.table|;
    var c := |line| - |m.columnsText|;
    forall j | 0 <= j < p ensures line[j] != '.' {
      assert line[j] == m.database[j];
    }
    forall j | p + 1 <= j < q ensures line[j] != ':' {
      assert line[j] == m.table[j - p - 1];
    }
    var spaces := line[q + 1..c];
    assert AllSpace(spaces);
    forall j | q + 1 <= j < c ensures IsSpace(line[j]) {
      assert line[j] == spaces[j - q - 1];
    }
    forall j | c <= j < |line| ensures !IsLineTerminator(line[j]) {
      assert line[j] == m.columnsText[j - c];
    }
  }

  /** White space from `from` to `c`, then a non-empty run without line terminators: the capture succeeds. */
  lemma CaptureStartFound(line: string, from: nat, c: nat)
    requires from <= c < |line|
    requires forall j :: from <= j < c ==> IsSpace(line[j])
    requires forall j :: c <= j < |line| ==> !IsLineTerminator(line[j])
    ensures CaptureStart(line, from).Some?
  {
    var k := SpacesFrom(line, from);
    SpacesFromSkips(line, from);
    if k < |line| {
      assert c <= k;
      LineTerminatorFromSkips(line, k);
    }
  }

  /** The captures of `/^([^\(]+)(?:\(([^\)]+)\))?$/` on one column token. */
  datatype ColumnMatch = ColumnMatch(fieldName: string, attributes: Option<string>)

  /** A token the column pattern accepts without its optional group. */
  predicate PlainToken(token: string) {
    token != [] && '(' !in token
  }

  /** A token the column pattern accepts as `name(attributes)`. */
  predicate GroupedToken(token: string, name: string, attributes: string) {
    && token == name + "(" + attributes + ")"
    && name != [] && '(' !in name
    && attributes != [] && ')' !in attributes
  }

  /**
   * `column.match(/^([^\(]+)(?:\(([^\)]+)\))?$/)`: the name runs up to the first
   * `(`; when there is one, the rest must be a non-empty group without `)`
   * closed by the token's last character.
   */
  function MatchColumn(token: string): Option<ColumnMatch> {
    var p := FindFrom(token, '(', 0);
    if p == 0 then None
    else if p == |token| then Some(ColumnMatch(token, None))
    else if p + 1 < |token| - 1 && FindFrom(token, ')', p + 1) == |token| - 1 then
      Some(ColumnMatch(token[..p], Some(token[p + 1..|token| - 1])))
    else None
  }

  /** A match is one of the two shapes. */
  lemma MatchColumnSound(token: string)
    requires MatchColumn(token).Some?
    ensures var m := MatchColumn(token).value;
      if m.attributes.None? then PlainToken(token) && m.fieldName == token
      else GroupedToken(token, m.fieldName, m.attributes.value)
  {
    var p := FindFrom(token, '(', 0);
    FindFromSkips(token, '(', 0);
    if p == |token| {
      AbsentFromSlice(token, '(', 0, p);
      assert token[0..p] == token;
    } else {
      FindFromSkips(token, ')', p + 1);
      AbsentFromSlice(token, '(', 0, p);
      AbsentFromSlice(token, ')', p + 1, |token| - 1);
      assert token == token[..p] + "(" + token[p + 1..|token| - 1] + ")";
    }
  }

  /** Every non-empty token without `(` matches as a bare name. */
  lemma MatchColumnPlain(token: string)
    requires PlainToken(token)
    ensures MatchColumn(token) == Some(ColumnMatch(token, None))
  {
    FindFromIs(token, '(', 0, |token|);
  }

  /** Every token `name(attributes)` matches with those two captures. */
  lemma MatchColumnGrouped(token: string, name: string, attributes: string)
    requires GroupedToken(token, name, attributes)
    ensures MatchColumn(token) == Some(ColumnMatch(name, Some(attributes)))
  {
    var p := |name|;
    forall j | 0 <= j < p ensures token[j] != '(' {
      assert token[j] == name[j];
    }
    FindFromIs(token, '(', 0, p);
    forall j | p + 1 <= j < |token| - 1 ensures token[j] != ')' {
      assert token[j] == attributes[j - p - 1];
    }
    FindFromIs(token, ')', p + 1, |token| - 1);
    assert token[..p] == name;
    assert token[p + 1..|token| - 1] == attributes;
  }

  // ---------------------------------------------------------------------------
  // Building a column object from its attributes.
  // ---------------------------------------------------------------------------

  /** `columnObj[name] = value` for the properties the record knows by name. */
  function SetProperty(col: Column, name: string, value: string): Column {
    if name == "Field" then col.(field := value)
    else if name == "Type" then col.(typ := Some(value))
    else if name == "Key" then col.(key := Some(value))
    else if name == "References" then col.(references := Some(Text(value)))
    else if name == "__proto__" then col  // assigning a string to `__proto__` has no effect
    else col.(extras := Put(col.extras, name, Text(value)))
  }

  /** How one attribute is read: the key words compared after `toUpperCase`, then `=`, else a type. */
  datatype Attribute = PrimaryKey | ForeignKey | Property(name: string, value: string) | TypeName(name: string)

  function Classify(attr: string): Attribute {
    var upper := ToUpper(attr);
    if upper == "PK" || upper == "PRIMARY" then PrimaryKey
    else if upper == "FK" || upper == "FOREIGN" then ForeignKey
    else if IndexOf(attr, '=') < |attr| then
      SplitSecond(attr, '=');
      var parts := Split(attr, '=');
      Property(Trim(parts[0]), Trim(parts[1]))
    else TypeName(attr)
  }

  /** The body of the `forEach` over the attribute parts. */
  function ApplyAttribute(col: Column, attr: string): Column {
    match Classify(attr)
    case PrimaryKey => col.(key := Some("PRI"))
    case ForeignKey => col.(key := Some("MUL"))
    case Property(name, value) => SetProperty(col, name, value)
    case TypeName(t) => col.(typ := Some(t))
  }

  /** The attribute parts applied to `col` from first to last. */
  function ApplyAttributes(col: Column, attrs: seq<string>): Column
    decreases |attrs|
  {
    if attrs == [] then col else ApplyAttributes(ApplyAttribute(col, attrs[0]), attrs[1..])
  }

  /** `parts.map(p => p.trim())`. */
  function TrimAll(parts: seq<string>): (r: seq<string>)
    ensures |r| == |parts| && forall i :: 0 <= i < |parts| ==> r[i] == Trim(parts[i])
  {
    seq(|parts|, i requires 0 <= i < |parts| => Trim(parts[i]))
  }

  /** The column a trimmed token yields, or `None` when the token fails the column pattern. */
  function ColumnOf(token: string): Option<Column> {
    match MatchColumn(token)
    case None => None
    case Some(ColumnMatch(name, None)) => Some(BareColumn(Trim(name)))
    case Some(ColumnMatch(name, Some(attributes))) =>
      Some(ApplyAttributes(BareColumn(Trim(name)), TrimAll(Split(attributes, ','))))
  }

  /** The columns of the tokens that pass the column pattern, in token order. */
  function ColumnsFromTokens(tokens: seq<string>): seq<Column>
    decreases |tokens|
  {
    if tokens == [] then [] else Emitted(tokens[0]) + ColumnsFromTokens(tokens[1..])
  }

  /** What one token adds to the table: its column, or nothing when it does not parse. */
  function Emitted(token: string): seq<Column> {
    match ColumnOf(token)
    case Some(c) => [c]
    case None => []
  }

  /** The columns of the text after `database.table:`, split on every comma. */
  function ColumnsOf(columnsText: string): seq<Column> {
    ColumnsFromTokens(TrimAll(Split(columnsText, ',')))
  }

  // ---------------------------------------------------------------------------
  // Lines and the whole text.
  // ---------------------------------------------------------------------------

  predicate IsBlank(line: string) {
    Trim(line) == []
  }

  predicate IsComment(line: string) {
    StartsWith(Trim(line), "#") || StartsWith(Trim(line), "//")
  }

  /** What one line of the loop does to the schema built so far. */
  function LineStep(acc: Schema, line: string): Schema {
    if IsComment(line) then acc
    else
      match MatchLine(line)
      case None => acc
      case Some(m) =>
        StoreTable(acc, m.database, m.table, ColumnsOf(m.columnsText))
  }

  /** `schema[database][table] = columns`, creating the database entry when it is missing. */
  function StoreTable(acc: Schema, d: string, t: string, columns: Table): Schema {
    var database: Database := Get<Database>(acc, d).GetOr([]);
    Put<Database>(acc, d, Put<Table>(database, t, columns))
  }

  /** What `StoreTable` changes: one table of one database, and the key list only for a new database. */
  lemma StoreTableEffect(acc: Schema, d: string, t: string, columns: Table)
    ensures Keys(StoreTable(acc, d, t, columns)) == if HasKey(acc, d) then Keys(acc) else Keys(acc) + [d]
    ensures Get(StoreTable(acc, d, t, columns), d).Some?
    ensures Get(Get(StoreTable(acc, d, t, columns), d).value, t) == Some(columns)
    ensures forall t' :: t' != t ==>
      Get(Get(StoreTable(acc, d, t, columns), d).value, t') == Get(Get<Database>(acc, d).GetOr([]), t')
    ensures forall d' :: d' != d ==> Get(StoreTable(acc, d, t, columns), d') == Get(acc, d')
  {
    var database: Database := Get<Database>(acc, d).GetOr([]);
    var updated := Put<Table>(database, t, columns);
    var r := StoreTable(acc, d, t, columns);
    assert r == Put<Database>(acc, d, updated);
    assert Get(r, d) == Some(updated);
    PutKeys<Database>(acc, d, updated);
    PutOthersUnchanged<Database>(acc, d, updated);
    PutOthersUnchanged<Table>(database, t, columns);
  }

  /** Storing twice under the same database and table keeps only the second columns. */
  lemma StoreTableTwice(acc: Schema, d: string, t: string, c1: Table, c2: Table)
    ensures StoreTable(StoreTable(acc, d, t, c1), d, t, c2) == StoreTable(acc, d, t, c2)
  {
    var database: Database := Get<Database>(acc, d).GetOr([]);
    var mid := StoreTable(acc, d, t, c1);
    assert Get<Database>(mid, d).GetOr([]) == Put<Table>(database, t, c1);
    PutTwice<Table>(database, t, c1, c2);
    PutTwice<Database>(acc, d, Put<Table>(database, t, c1), Put<Table>(database, t, c2));
  }

  function FoldLines(acc: Schema, lines: seq<string>): Schema
    decreases |lines|
  {
    if lines == [] then acc else FoldLines(LineStep(acc, lines[0]), lines[1..])
  }

  /** `lines.filter(line => line.trim())`. */
  function NonBlank(lines: seq<string>): (r: seq<string>)
    ensures forall l :: l in r ==> !IsBlank(l)
    decreases |lines|
  {
    if lines == [] then [] else KeptLine(lines[0]) + NonBlank(lines[1..])
  }

  /** A line survives the filter unless it is blank. */
  function KeptLine(line: string): seq<string> {
    if IsBlank(line) then [] else [line]
  }

  /** The schema the parser builds from a list of lines. */
  function SchemaOfLines(lines: seq<string>): Schema {
    FoldLines([], NonBlank(lines))
  }

  /** The schema `parseSimplifiedSchemaFormat(text)` returns. */
  function SchemaOfText(text: string): Schema {
    SchemaOfLines(Split(text, '\n'))
  }

  // ---------------------------------------------------------------------------
  // What the parser promises.
  // ---------------------------------------------------------------------------

  /** Running the loop over two batches of lines is running it over their concatenation. */
  lemma {:induction false} FoldLinesAppend(acc: Schema, a: seq<string>, b: seq<string>)
    ensures FoldLines(acc, a + b) == FoldLines(FoldLines(acc, a), b)
    decreases |a|
  {
    if a != [] {
      var ab := a + b;
      assert ab[0] == a[0] && ab[1..] == a[1..] + b;
      var next := LineStep(acc, a[0]);
      assert FoldLines(acc, ab) == FoldLines(next, a[1..] + b);
      assert FoldLines(acc, a) == FoldLines(next, a[1..]);
      FoldLinesAppend(next, a[1..], b);
    } else {
      assert a + b == b;
    }
  }

  lemma {:induction false} NonBlankAppend(a: seq<string>, b: seq<string>)
    ensures NonBlank(a + b) == NonBlank(a) + NonBlank(b)
    decreases |a|
  {
    if a != [] {
      var ab := a + b;
      assert ab[0] == a[0] && ab[1..] == a[1..] + b;
      NonBlankAppend(a[1..], b);
      var e, x, y := KeptLine(a[0]), NonBlank(a[1..]), NonBlank(b);
      assert e + (x + y) == (e + x) + y;
    } else {
      assert a + b == b;
    }
  }

  /** A line the parser passes over: blank, a comment, or not of the form `database.table: columns`. */
  predicate Ignored(line: string) {
    IsBlank(line) || IsComment(line) || MatchLine(line).None?
  }

  /** Removing an ignored line, wherever it stands, does not change the schema. */
  lemma IgnoredLineSkipped(pre: seq<string>, line: string, post: seq<string>)
    requires Ignored(line)
    ensures SchemaOfLines(pre + [line] + post) == SchemaOfLines(pre + post)
  {
    NonBlankAppend(pre + [line], post);
    NonBlankAppend(pre, [line]);
    NonBlankAppend(pre, post);
    var before := FoldLines([], NonBlank(pre));
    FoldLinesAppend([], NonBlank(pre) + NonBlank([line]), NonBlank(post));
    FoldLinesAppend([], NonBlank(pre), NonBlank([line]));
    FoldLinesAppend([], NonBlank(pre), NonBlank(post));
    assert NonBlank([line]) == KeptLine(line) by {
      assert [line][1..] == [];
    }
    if !IsBlank(line) {
      assert LineStep(before, line) == before;
    }
  }

  /**
   * The effect of one `database.table: columns` line: that table of that
   * database now holds the columns of the line, every other table of the
   * database and every other database is as before, and a database seen for
   * the first time is added after all the others.
   */
  lemma LineStepEffect(acc: Schema, line: string)
    requires !IsComment(line) && MatchLine(line).Some?
    ensures var m := MatchLine(line).value;
      var r := LineStep(acc, line);
      && Keys(r) == (if HasKey(acc, m.database) then Keys(acc) else Keys(acc) + [m.database])
      && Get(r, m.database).Some?
      && Get(Get(r, m.database).value, m.table) == Some(ColumnsOf(m.columnsText))
      && (forall t :: t != m.table ==>
            Get(Get(r, m.database).value, t) == Get(Get<Database>(acc, m.database).GetOr([]), t))
      && (forall d :: d != m.database ==> Get(r, d) == Get(acc, d))
  {
    var m := MatchLine(line).value;
    assert LineStep(acc, line) == StoreTable(acc, m.database, m.table, ColumnsOf(m.columnsText));
    StoreTableEffect(acc, m.database, m.table, ColumnsOf(m.columnsText));
  }

  /** A later line for the same `database.table` replaces the earlier one's columns, in its place. */
  lemma LaterLineWins(acc: Schema, first: string, second: string)
    requires !IsComment(first) && MatchLine(first).Some?
    requires !IsComment(second) && MatchLine(second).Some?
    requires MatchLine(first).value.database == MatchLine(second).value.database
    requires MatchLine(first).value.table == MatchLine(second).value.table
    ensures LineStep(LineStep(acc, first), second) == LineStep(acc, second)
  {
    var m1, m2 := MatchLine(first).value, MatchLine(second).value;
    var c1, c2 := ColumnsOf(m1.columnsText), ColumnsOf(m2.columnsText);
    StoreTableTwice(acc, m1.database, m1.table, c1, c2);
  }


  /** The columns of two batches of tokens are those of the first followed by those of the second. */
  lemma {:induction false} ColumnsFromTokensAppend(a: seq<string>, b: seq<string>)
    ensures ColumnsFromTokens(a + b) == ColumnsFromTokens(a) + ColumnsFromTokens(b)
    decreases |a|
  {
    if a != [] {
      var ab := a + b;
      assert ab[0] == a[0] && ab[1..] == a[1..] + b;
      ColumnsFromTokensAppend(a[1..], b);
      var e, x, y := Emitted(a[0]), ColumnsFromTokens(a[1..]), ColumnsFromTokens(b);
      assert e + (x + y) == (e + x) + y;
    } else {
      assert a + b == b;
    }
  }
  /** One more token: its column, when it parses, follows those of the tokens before it. */
  lemma ColumnsFromTokensNext(tokens: seq<string>, i: nat)
    requires i < |tokens|
    ensures ColumnsFromTokens(tokens[..i + 1]) == ColumnsFromTokens(tokens[..i]) + Emitted(tokens[i])
  {
    var last := [tokens[i]];
    assert tokens[..i + 1] == tokens[..i] + last;
    ColumnsFromTokensAppend(tokens[..i], last);
    assert ColumnsFromTokens(last) == Emitted(tokens[i]) by {
      assert last[1..] == [];
    }
  }


  /** Removing the ends of a string never adds a character to it. */
  lemma TrimKeepsAbsent(s: string, c: char)
    requires c !in s
    ensures c !in Trim(s)
  {
    var t := Trim(s);
    forall j | 0 <= j < |t| ensures t[j] != c {
      assert t[j] in s;
    }
  }

  /** A token the column text was split into never holds a comma. */
  lemma TokensHoldNoComma(columnsText: string)
    ensures forall i :: 0 <= i < |TrimAll(Split(columnsText, ','))| ==> ',' !in TrimAll(Split(columnsText, ','))[i]
  {
    var parts := Split(columnsText, ',');
    SplitPiecesExclude(columnsText, ',');
    forall i | 0 <= i < |parts| ensures ',' !in TrimAll(parts)[i] {
      TrimKeepsAbsent(parts[i], ',');
    }
  }

  /**
   * Since the column text is split on every comma first, the attribute group
   * of a token holds exactly one attribute: `id(INT, PK)` is cut into `id(INT`
   * and `PK)`.
   */
  lemma OneAttributePerGroup(token: string, name: string, attributes: string)
    requires ',' !in token
    requires MatchColumn(token) == Some(ColumnMatch(name, Some(attributes)))
    ensures ColumnOf(token) == Some(ApplyAttribute(BareColumn(Trim(name)), Trim(attributes)))
  {
    var parts := TrimAll(Split(attributes, ','));
    assert parts == [Trim(attributes)] by {
      MatchColumnSound(token);
      assert token[|name| + 1..|token| - 1] == attributes;
      AbsentFromSlice(token, ',', |name| + 1, |token| - 1);
      SplitWithoutSeparator(attributes, ',');
    }
    var col := BareColumn(Trim(name));
    assert ColumnOf(token) == Some(ApplyAttributes(col, parts));
    assert ApplyAttributes(col, parts) == ApplyAttribute(col, Trim(attributes)) by {
      assert parts[1..] == [];
    }
  }

  /**
   * `id(INT,PK)` is cut at its comma into `id(INT`, which fails the column
   * pattern, and `PK)`, which passes it as a column named `PK)`.
   */
  lemma CommaInsideGroup()
    ensures ColumnsOf("id(INT,PK)") == [BareColumn("PK)")]
  {
    ExampleTokens();
    ExampleColumns();
  }

  /** The column text `id(INT,PK)` is cut into the tokens `id(INT` and `PK)`. */
  lemma ExampleTokens()
    ensures TrimAll(Split("id(INT,PK)", ',')) == ["id(INT", "PK)"]
  {
    var first, second := "id(INT", "PK)";
    assert "id(INT,PK)" == first + [','] + second;
    TwoTokens(first, second);
  }

  /** Two comma-free texts joined by one comma, neither with white space at its ends,
      are cut into exactly those two tokens. */
  lemma TwoTokens(a: string, b: string)
    requires ',' !in a && ',' !in b
    requires a != [] ==> !IsSpace(a[0]) && !IsSpace(a[|a| - 1])
    requires b != [] ==> !IsSpace(b[0]) && !IsSpace(b[|b| - 1])
    ensures TrimAll(Split(a + [','] + b, ',')) == [a, b]
  {
    SplitTwoPieces(a, ',', b);
    TrimAllFixed([a, b]);
  }

  /** Tokens that neither start nor end with white space are left as they are. */
  lemma TrimAllFixed(parts: seq<string>)
    requires forall i :: 0 <= i < |parts| && parts[i] != [] ==>
      !IsSpace(parts[i][0]) && !IsSpace(parts[i][|parts[i]| - 1])
    ensures TrimAll(parts) == parts
  {
    forall i | 0 <= i < |parts| ensures Trim(parts[i]) == parts[i] {
      TrimUnchanged(parts[i]);
    }
  }

  /** Of the tokens `id(INT` and `PK)`, only the second yields a column. */
  lemma ExampleColumns()
    ensures ColumnsFromTokens(["id(INT", "PK)"]) == [BareColumn("PK)")]
  {
    TwoTokenColumns("id(INT", "PK)");
    GroupNotClosed();
    ClosingWithoutOpening();
  }

  /** Two tokens yield the column of the first, if any, then that of the second. */
  lemma TwoTokenColumns(a: string, b: string)
    ensures ColumnsFromTokens([a, b]) == Emitted(a) + Emitted(b)
  {
    assert [a, b] == [a] + [b];
    ColumnsFromTokensAppend([a], [b]);
    assert ColumnsFromTokens([a]) == Emitted(a) by {
      assert [a][1..] == [];
    }
    assert ColumnsFromTokens([b]) == Emitted(b) by {
      assert [b][1..] == [];
    }
  }

  /** `id(INT` opens a group that the token's last character does not close. */
  lemma GroupNotClosed()
    ensures ColumnOf("id(INT") == None
  {
    FindFromIs("id(INT", '(', 0, 2);
    FindFromIs("id(INT", ')', 3, 6);
  }

  /** `PK)` has no `(`: it is a bare column name, `)` and all. */
  lemma ClosingWithoutOpening()
    ensures ColumnOf("PK)") == Some(BareColumn("PK)"))
  {
    MatchColumnPlain("PK)");
    TrimUnchanged("PK)");
  }

  /** The key words are recognised in any letter case. */
  lemma ClassifyKeyWords()
    ensures Classify("pk") == PrimaryKey && Classify("Primary") == PrimaryKey
    ensures Classify("fK") == ForeignKey && Classify("Foreign") == ForeignKey
  {
    assert ToUpper("pk") == "PK" by {
      var u := ToUpper("pk");
      assert u[0] == UpperChar('p') == 'P' && u[1] == UpperChar('k') == 'K';
    }
    assert ToUpper("Primary") == "PRIMARY" by {
      var u := ToUpper("Primary");
      assert u[1] == UpperChar('r') == 'R' && u[2] == UpperChar('i') == 'I';
      assert u[3] == UpperChar('m') == 'M' && u[4] == UpperChar('a') == 'A';
      assert u[5] == UpperChar('r') == 'R' && u[6] == UpperChar('y') == 'Y';
    }
    assert ToUpper("fK") == "FK" by {
      var u := ToUpper("fK");
      assert u[0] == UpperChar('f') == 'F';
    }
    assert ToUpper("Foreign") == "FOREIGN" by {
      var u := ToUpper("Foreign");
      assert u[1] == UpperChar('o') == 'O' && u[2] == UpperChar('r') == 'R';
      assert u[3] == UpperChar('e') == 'E' && u[4] == UpperChar('i') == 'I';
      assert u[5] == UpperChar('g') == 'G' && u[6] == UpperChar('n') == 'N';
    }
  }

  /**
   * An attribute whose upper-cased form is `PK` or `PRIMARY` sets the column's
   * `Key` to `PRI`, one that reads `FK` or `FOREIGN` sets it to `MUL`, whatever
   * the letter case, and neither touches anything else of the column.
   */
  lemma AttributeKeyWords(col: Column, attr: string)
    ensures ToUpper(attr) == "PK" || ToUpper(attr) == "PRIMARY" ==> ApplyAttribute(col, attr) == col.(key := Some("PRI"))
    ensures ToUpper(attr) == "FK" || ToUpper(attr) == "FOREIGN" ==> ApplyAttribute(col, attr) == col.(key := Some("MUL"))
  {
  }

  /** Anything else without `=` is a type name, even when it starts with a key word. */
  lemma ClassifyTypeNames()
    ensures Classify("INT") == TypeName("INT") && Classify("pkey") == TypeName("pkey")
  {
  }

  /**
   * An attribute with `=` that is not a key word names a property: its name is
   * the trimmed text before the first `=`, its value the trimmed text between
   * that `=` and the next one (or the end).
   */
  lemma ClassifyProperty(attr: string)
    requires Classify(attr).Property?
    ensures '=' in attr
    ensures var i := IndexOf(attr, '=');
      var rest := attr[i + 1..];
      && Classify(attr) == Property(Trim(attr[..i]), Trim(rest[..IndexOf(rest, '=')]))
  {
    IndexOfFirst(attr, '=');
    SplitFirst(attr, '=');
    SplitSecond(attr, '=');
  }

  /** An attribute without `=` that is not a key word sets the column's `Type` to itself, untrimmed of nothing. */
  lemma ClassifyType(attr: string)
    requires '=' !in attr
    requires ToUpper(attr) !in ["PK", "PRIMARY", "FK", "FOREIGN"]
    ensures Classify(attr) == TypeName(attr)
  {
    IndexOfFirst(attr, '=');
  }

  // ---------------------------------------------------------------------------
  // The parser as the source writes it: loops that fill the result in place.
  // ---------------------------------------------------------------------------

  /** The `forEach` over the trimmed attribute parts, applied to the column object in place. */
  method ApplyAttributeParts(col: Column, attributeParts: seq<string>) returns (columnObj: Column)
    ensures columnObj == ApplyAttributes(col, attributeParts)
  {
    columnObj := col;
    for i := 0 to |attributeParts|
      invariant ApplyAttributes(columnObj, attributeParts[i..]) == ApplyAttributes(col, attributeParts)
    {
      assert attributeParts[i..][1..] == attributeParts[i + 1..];
      columnObj := ApplyAttribute(columnObj, attributeParts[i]);
    }
  }

  /** Matches one trimmed token and, if it has an attribute group, applies the parts in order. */
  method ParseColumn(token: string) returns (c: Option<Column>)
    ensures c == ColumnOf(token)
  {
    var m := MatchColumn(token);
    if m.None? {
      return None;
    }
    var columnObj := BareColumn(Trim(m.value.fieldName));
    if m.value.attributes.Some? {
      columnObj := ApplyAttributeParts(columnObj, TrimAll(Split(m.value.attributes.value, ',')));
    }
    return Some(columnObj);
  }

  /** Splits the column text on every comma and pushes each column that parses. */
  method ParseColumns(columnsText: string) returns (columns: seq<Column>)
    ensures columns == ColumnsOf(columnsText)
  {
    var tokens := TrimAll(Split(columnsText, ','));
    columns := [];
    for i := 0 to |tokens|
      invariant columns == ColumnsFromTokens(tokens[..i])
    {
      var c := ParseColumn(tokens[i]);
      ColumnsFromTokensNext(tokens, i);
      if c.Some? {
        columns := columns + [c.value];
      }
    }
    assert tokens[..|tokens|] == tokens;
  }


  /** `parseSimplifiedSchemaFormat(text)`: never fails; lines that do not parse contribute nothing. */
  method ParseSimplifiedSchemaFormat(text: string) returns (schema: Schema)
    ensures schema == SchemaOfText(text)
  {
    var lines := NonBlank(Split(text, '\n'));
    schema := [];
    for i := 0 to |lines|
      invariant FoldLines(schema, lines[i..]) == FoldLines([], lines)
    {
      assert FoldLines(schema, lines[i..]) == FoldLines(LineStep(schema, lines[i]), lines[i + 1..]) by {
        assert lines[i..][1..] == lines[i + 1..];
      }
      schema := ParseLine(schema, lines[i]);
    }
  }

  /** The body of the parser's loop for one non-blank line. */
  method ParseLine(schema: Schema, line: string) returns (r: Schema)
    ensures r == LineStep(schema, line)
  {
    r := schema;
    if IsComment(line) {
      return;
    }
    var m := MatchLine(line);
    if m.Some? {
      var database: Database := Get<Database>(r, m.value.database).GetOr([]);
      r := Put<Database>(r, m.value.database, database);
      var columns := ParseColumns(m.value.columnsText);
      r := Put<Database>(r, m.value.database, Put<Table>(database, m.value.table, columns));
      PutTwice<Database>(schema, m.value.database, database, Put<Table>(database, m.value.table, columns));
    }
  }

  // ---------------------------------------------------------------------------
  // The cache file.
  // ---------------------------------------------------------------------------

  /** What the cache file holds: nothing, text that is not valid JSON, or a schema object. */
  datatype CacheFile = Missing | Unparsable | Stored(snapshot: Schema)

  /** The cache file `config/db_schema.json` at the root of the project. */
  class CacheStore {
    var file: CacheFile

    constructor (initial: CacheFile)
      ensures file == initial
    {
      file := initial;
    }

    /** What `loadCachedSchema` yields: the stored schema, or `null` for a missing file or one that is not JSON. */
    function Loaded(): (r: Option<Schema>)
      reads this
      ensures r.Some? <==> file.Stored?
    {
      if file.Stored? then Some(file.snapshot) else None
    }

    /** `loadCachedSchema()`: a read or parse error is reported as `null`, never thrown. */
    method LoadCachedSchema() returns (cached: Option<Schema>)
      ensures cached == Loaded()
    {
      match file
      case Stored(snapshot) => cached := Some(snapshot);
      case Missing => cached := None;
      case Unparsable => cached := None;
    }

    /**
     * `saveSchemaToCache(schema)`: writes the schema when the write succeeds
     * (`writeOk`); a failed write is swallowed and leaves the file as it was.
     */
    method SaveSchemaToCache(schema: Schema, writeOk: bool)
      modifies this
      ensures file == if writeOk then Stored(schema) else old(file)
      ensures writeOk ==> Loaded() == Some(schema)
    {
      if writeOk {
        file := Stored(schema);
      }
    }

    /**
     * `updateCachedSchema(manual)`: merges the manual entries over the cached
     * schema (an empty one when nothing is cached), saves and returns the merge.
     */
    method UpdateCachedSchema(manual: Schema, writeOk: bool) returns (merged: Schema)
      modifies this
      ensures merged == Merge<Database>(old(Loaded()).GetOr([]), manual)
      ensures file == if writeOk then Stored(merged) else old(file)
    {
      var cached := LoadCachedSchema();
      var existing := cached.GetOr([]);
      merged := Merge<Database>(existing, manual);
      SaveSchemaToCache(merged, writeOk);
    }
  }

  /**
   * `loadSchemaFromFile(filePath)`: the read is the parameter `read`; a read
   * error is rethrown. A path ending in `.json` (case-sensitively) is handed
   * to the JSON decoder `parseJson`, anything else to the text parser, which
   * never fails.
   */
  method LoadSchemaFromFile(filePath: string, read: Result<string, string>, parseJson: string -> Result<Schema, string>)
    returns (r: Result<Schema, string>)
    ensures read.Failure? ==> r == Failure(read.error)
    ensures read.Success? && EndsWith(filePath, ".json") ==> r == parseJson(read.value)
    ensures read.Success? && !EndsWith(filePath, ".json") ==> r == Success(SchemaOfText(read.value))
  {
    if read.Failure? {
      return Failure(read.error);
    }
    if EndsWith(filePath, ".json") {
      return parseJson(read.value);
    }
    var schema := ParseSimplifiedSchemaFormat(read.value);
    return Success(schema);
  }
}

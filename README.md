# Schema context of a natural-language-to-SQL backend, in Dafny

The backend answers a question in plain English about one of its MySQL
databases. It works out which database the question is about and gathers the
schema of that database, or of all of them, from a cache file, a hand-written
schema file or the live server. It trims that schema to fit the language
model's prompt and asks the model for a SQL statement. It runs the statement
only when it is read-only, and then asks the model to explain the rows. This
project models that schema-context core, in four services:

- `schemaCache.js`: the cache file (load, save, merge of manual entries) and
  the simplified text format `database.table: column(attribute), ...`.
  Module `SchemaCache` (`schema_cache.dfy`).
- `schemaService.js`: introspection of one database or of all of them, with
  the cache in front, and the pass-through that runs a statement. Module
  `SchemaService` (`schema_service.dfy`).
- `openaiService.js`: the prompt budget. It covers the focus on a selected
  database, the projection and shrinking of the schema, the primary-key-only
  schema of the fallback request, result truncation, and the one-shot switch
  to the cheaper model on a token-limit error. Module `OpenaiService`
  (`openai_service.dfy`).
- `chatService.js`: detecting the database in the question and picking the
  relevant tables. It also covers the fallback sample, the context the
  question is answered from, the read-only gate, the choice of the target
  database, and the whole `processNaturalLanguageQuery` flow. Module
  `ChatService` (`chat_service.dfy`).

Shared pieces:

- `OrderedMaps` (`ordered_maps.dfy`) models a JavaScript object as a sequence
  of entries with distinct keys, in insertion order. `Put` is assignment: an
  existing key keeps its place and a new key is appended. `Merge` is object
  spread.
- `Text` (`text.dfy`) models the string methods the services call, such as
  `trim`, `split`, `toLowerCase`, `includes` and `endsWith`.
- `SchemaModel` (`schema_model.dfy`) holds the column record, the
  table/database/schema types and the system-database list. `Wrappers`
  holds `Option` and `Result`.

The model keeps the form the code has:

- Code that is a loop filling an object is a `method` with a loop. The
  function that method is proved against states what the loop computes, and
  lemmas state what that function promises.
- The cache file, which several services read and overwrite, is the class
  `SchemaCache.CacheStore`.
- The MySQL driver and the language model are parameters: a `Driver`
  datatype of answers, and a function from a request to a reply or an error.
  The serialised length of a schema is also a parameter (`jsonSize`).

The simplified text format is described as taking a comma-separated list of
attributes in parentheses. The code splits the whole column text on every
comma first (`schemaCache.js:111`). A group therefore never holds more than
one attribute, and `id(INT,PK)` yields no `id` column but a column named
`PK)`. The model follows the code: `OneAttributePerGroup` and
`CommaInsideGroup` state this behaviour.

## Model

| member | source | states |
|---|---|---|
| OrderedMaps.Keys | src/backend/services/chatService.js:221 | `Object.keys` lists one key per entry, in entry order |
| OrderedMaps.HasKeyIff | src/backend/services/openaiService.js:18 | a key is present exactly when it is one of `Object.keys` |
| OrderedMaps.Get | src/backend/services/chatService.js:150 | `m[k]` is defined exactly when `k` is present |
| OrderedMaps.GetAt | src/backend/services/schemaService.js:17 | the entry at position `i` is the one found under its key, and no earlier entry has that key |
| OrderedMaps.GetIff | src/backend/services/schemaService.js:17 | `m[k]` is `v` exactly when `(k, v)` is an entry |
| OrderedMaps.Put | src/backend/services/schemaCache.js:107-108 | after `m[k] = v`, `m[k]` is `v`, and the size grows by one exactly when `k` was new |
| OrderedMaps.PutKeys | src/backend/services/schemaCache.js:107 | assignment keeps the key order, and a new key goes last |
| OrderedMaps.PutOthersUnchanged | src/backend/services/schemaService.js:29 | assignment leaves every other key's value as it was |
| OrderedMaps.PutNew | src/backend/services/chatService.js:90 | assigning a new key appends one entry |
| OrderedMaps.PutExisting | src/backend/services/openaiService.js:62 | assigning a present key replaces its value where it stands |
| OrderedMaps.PutTwice | src/backend/services/schemaCache.js:107-108 | a second assignment to the same key overrides the first and keeps the key's place |
| OrderedMaps.MapValues | src/backend/services/openaiService.js:27-48 | mapping the values keeps the keys and their order, and entry `i` holds the transformed value `i` |
| OrderedMaps.Take | src/backend/services/chatService.js:106-112 | the first `n` entries, or all of them when there are fewer |
| OrderedMaps.MergeGet | src/backend/services/schemaCache.js:49-52 | in `{...a, ...b}` a key holds `b`'s value when `b` has it, else `a`'s |
| OrderedMaps.MergeKeys | src/backend/services/schemaCache.js:49-52 | `{...a, ...b}` lists `a`'s keys in order, then `b`'s new keys in theirs |
| OrderedMaps.MapValuesNext | src/backend/services/openaiService.js:27-28 | assigning the next transformed entry extends the transformed prefix by one entry |
| OrderedMaps.PutNextEntry | src/backend/services/chatService.js:106-112 | copying the next entry extends the copied prefix by one entry |
| Text.Trim | src/backend/services/schemaCache.js:111 | `trim()` gives a string no longer than its input, with no white space at either end |
| Text.TrimEmpty | src/backend/services/schemaCache.js:93 | `trim()` is empty exactly when the line is all white space |
| Text.TrimUnchanged | src/backend/services/schemaCache.js:116 | a string with no white space at its ends is its own `trim()` |
| Text.ToLower | src/backend/services/chatService.js:17 | `toLowerCase()` keeps the length and lowers each ASCII letter |
| Text.ToUpper | src/backend/services/schemaCache.js:122-124 | `toUpperCase()` keeps the length and raises each ASCII letter |
| Text.UnderscoresToSpaces | src/backend/services/chatService.js:24 | `replace(/_/g, ' ')` turns each `_` into a space and changes nothing else |
| Text.DropSuffix | src/backend/services/chatService.js:25-26 | `replace(/db$/, '')` removes the suffix once when present, and otherwise changes nothing |
| Text.IndexOf | src/backend/services/schemaCache.js:126 | the first position of a character, or the length when it is absent |
| Text.IndexOfFirst | src/backend/services/schemaCache.js:126 | `attr.includes('=')` holds exactly when the first `=` is found, and no `=` comes before it |
| Text.Split | src/backend/services/schemaCache.js:93 | `split(sep)` always yields at least one piece |
| Text.JoinSplit | src/backend/services/schemaCache.js:93 | joining the pieces of `split` with the separator gives back the string |
| Text.SplitFirst | src/backend/services/schemaCache.js:128 | the first piece of `split` is the text before the first separator |
| Text.SplitSecond | src/backend/services/schemaCache.js:128 | with a separator present there are at least two pieces, and the second runs from there to the next separator |
| Text.SplitWithoutSeparator | src/backend/services/schemaCache.js:120 | a string without the separator splits into itself alone |
| Text.SplitAfter | src/backend/services/schemaCache.js:111 | a separator-free prefix followed by a separator is the first piece, and the rest splits on its own |
| Text.SplitTwoPieces | src/backend/services/schemaCache.js:111 | two separator-free texts joined by one separator split back into those two |
| Text.SplitPiecesExclude | src/backend/services/schemaCache.js:111 | no piece of `split` contains the separator |
| Text.SplitOnSpaces | src/backend/services/chatService.js:48 | `split(/\s+/)` always yields at least one word; what the words are is stated by the three lemmas below |
| Text.SplitOnSpacesJoin | src/backend/services/chatService.js:48 | the words, with the white-space runs `SpaceRuns` between them, give back the string, and there is one run fewer than words |
| Text.SpaceRunsAre | src/backend/services/chatService.js:48 | every run the string is cut at is non-empty and all white space |
| Text.SplitOnSpacesNoSpace | src/backend/services/chatService.js:48 | no word holds a white-space character |
| Text.SplitOnSpacesInnerWords | src/backend/services/chatService.js:48 | every word but the first and the last is non-empty |
| Text.TrimStart | src/backend/services/schemaCache.js:102 | what is left after leading white space is a suffix that does not start with white space |
| Text.TrimEnd | src/backend/services/schemaCache.js:116 | what is left after trailing white space is a prefix that does not end with white space |
| SchemaCache.CaptureStartSound | src/backend/services/schemaCache.js:102 | the capture of `\s*(.+)$` starts after white space only and runs to the end without line terminators |
| SchemaCache.CaptureStartFound | src/backend/services/schemaCache.js:102 | white space followed by a non-empty run without line terminators is always captured |
| SchemaCache.MatchLineSound | src/backend/services/schemaCache.js:102-104 | a matched line is `d.t:`, then white space, then the captured text; `d` has no `.`, `t` has no `:` and both are non-empty |
| SchemaCache.MatchLineComplete | src/backend/services/schemaCache.js:102-104 | every line of that shape matches, and `d` and `t` are captured |
| SchemaCache.SlicesShape | src/backend/services/schemaCache.js:102 | cutting a line at its first `.` and the next `:` gives the pieces the pattern captures |
| SchemaCache.ShapeCharacters | src/backend/services/schemaCache.js:102 | the line shape, stated character by character |
| SchemaCache.MatchColumnSound | src/backend/services/schemaCache.js:113 | a matched token is a bare name without `(`, or `name(attributes)` with non-empty parts, no `(` in the name and no `)` in the attributes |
| SchemaCache.MatchColumnPlain | src/backend/services/schemaCache.js:113-115 | every non-empty token without `(` matches as a bare name |
| SchemaCache.MatchColumnGrouped | src/backend/services/schemaCache.js:113-115 | every `name(attributes)` token matches with those two captures |
| SchemaCache.TrimAll | src/backend/services/schemaCache.js:111 | `map(col => col.trim())` trims each piece and keeps the count |
| SchemaCache.AttributeKeyWords | src/backend/services/schemaCache.js:122-125 | for every column and attribute: an attribute that upper-cases to `PK` or `PRIMARY` sets `Key` to `PRI`, one that upper-cases to `FK` or `FOREIGN` sets `MUL`, and nothing else of the column changes |
| SchemaCache.ClassifyKeyWords | src/backend/services/schemaCache.js:122-125 | examples of the letter-case rule: `pk` and `Primary` are primary-key words, `fK` and `Foreign` foreign-key words |
| SchemaCache.ClassifyTypeNames | src/backend/services/schemaCache.js:130-132 | a word that is not exactly a key word, such as `pkey`, is a type |
| SchemaCache.ClassifyProperty | src/backend/services/schemaCache.js:126-129 | an `=` attribute sets the property named by the trimmed text before the first `=` to the trimmed text up to the next `=` |
| SchemaCache.ClassifyType | src/backend/services/schemaCache.js:130-132 | any other attribute sets `Type` to itself |
| SchemaCache.ApplyAttributeParts | src/backend/services/schemaCache.js:120-134 | the `forEach` applies the parts to the column from first to last |
| SchemaCache.ParseColumn | src/backend/services/schemaCache.js:113-135 | one token yields the column `ColumnOf` defines, or nothing when it fails the pattern |
| SchemaCache.ParseColumns | src/backend/services/schemaCache.js:111-139 | the column loop pushes, in token order, the columns of the tokens that match |
| SchemaCache.ColumnsFromTokensAppend | src/backend/services/schemaCache.js:112-139 | the columns of two token batches are those of the first, then those of the second |
| SchemaCache.ColumnsFromTokensNext | src/backend/services/schemaCache.js:137 | one more token appends its column, if any, after the earlier ones |
| SchemaCache.TwoTokenColumns | src/backend/services/schemaCache.js:112-138 | two tokens yield the first one's column, if any, then the second one's |
| SchemaCache.TokensHoldNoComma | src/backend/services/schemaCache.js:111 | no column token holds a comma |
| SchemaCache.TrimKeepsAbsent | src/backend/services/schemaCache.js:111 | trimming never brings in a character that was not there |
| SchemaCache.OneAttributePerGroup | src/backend/services/schemaCache.js:111-134 | a token's attribute group is applied as one single attribute |
| SchemaCache.CommaInsideGroup | src/backend/services/schemaCache.js:111-137 | `id(INT,PK)` yields only a column named `PK)` |
| SchemaCache.ExampleTokens | src/backend/services/schemaCache.js:111 | `id(INT,PK)` is cut into the tokens `id(INT` and `PK)` |
| SchemaCache.TwoTokens | src/backend/services/schemaCache.js:111 | two comma-free texts with no white space at their ends, joined by a comma, give back those two tokens |
| SchemaCache.TrimAllFixed | src/backend/services/schemaCache.js:111 | pieces with no white space at their ends come out of the trim unchanged |
| SchemaCache.ExampleColumns | src/backend/services/schemaCache.js:113-137 | of `id(INT` and `PK)` only the second yields a column |
| SchemaCache.GroupNotClosed | src/backend/services/schemaCache.js:113-114 | `id(INT` fails the column pattern |
| SchemaCache.ClosingWithoutOpening | src/backend/services/schemaCache.js:113-116 | `PK)` is a bare column named `PK)` |
| SchemaCache.StoreTableEffect | src/backend/services/schemaCache.js:107-108 | storing a table sets that table of that database and leaves every other table and database as it was; a new database is added last |
| SchemaCache.StoreTableTwice | src/backend/services/schemaCache.js:107-108 | storing the same table twice keeps only the second columns |
| SchemaCache.LineStepEffect | src/backend/services/schemaCache.js:102-137 | a matching line sets its table to the line's columns, keeps everything else, and adds a new database after the others |
| SchemaCache.LaterLineWins | src/backend/services/schemaCache.js:108 | a later line for the same `database.table` replaces the earlier one's columns |
| SchemaCache.NonBlank | src/backend/services/schemaCache.js:93 | no line left by the filter is blank |
| SchemaCache.NonBlankAppend | src/backend/services/schemaCache.js:93 | filtering two batches of lines is filtering each of them |
| SchemaCache.FoldLinesAppend | src/backend/services/schemaCache.js:95-141 | running the loop over two batches of lines is running it over one, then the other |
| SchemaCache.IgnoredLineSkipped | src/backend/services/schemaCache.js:93-103 | removing a blank, comment or non-matching line, wherever it stands, does not change the parsed schema |
| SchemaCache.ParseLine | src/backend/services/schemaCache.js:96-140 | one turn of the line loop applies the effect of that line |
| SchemaCache.ParseSimplifiedSchemaFormat | src/backend/services/schemaCache.js:91-144 | the parser returns the fold of the line steps over the non-blank lines, and never fails |
| SchemaCache.CacheStore.constructor | src/backend/services/schemaCache.js:10 | the store starts with the given file contents |
| SchemaCache.CacheStore.Loaded | src/backend/services/schemaCache.js:16-24 | a schema is loaded exactly when the file holds one |
| SchemaCache.CacheStore.LoadCachedSchema | src/backend/services/schemaCache.js:16-24 | a missing file, or one that is not JSON, gives `null` and nothing is thrown |
| SchemaCache.CacheStore.SaveSchemaToCache | src/backend/services/schemaCache.js:30-37 | a successful write stores the schema; a failed one is swallowed and leaves the file as it was |
| SchemaCache.CacheStore.UpdateCachedSchema | src/backend/services/schemaCache.js:43-61 | the result is the cached schema (empty when none) spread with the manual entries, and it is what gets saved |
| SchemaCache.LoadSchemaFromFile | src/backend/services/schemaCache.js:68-83 | a read error is rethrown; a `.json` path is decoded as JSON, and any other path is parsed as text without failing |
| SchemaService.DescribeFromSuccess | src/backend/services/schemaService.js:23-30 | introspection succeeds exactly when every table can be described, and then holds each listed table's rows |
| SchemaService.DescribeFromKeys | src/backend/services/schemaService.js:26-30 | for a table list with no repeats, the keys of `schemaInfo` are the listed tables in list order |
| SchemaService.IntrospectKeys | src/backend/services/schemaService.js:23-32 | the live schema of a database is keyed by the `SHOW TABLES` list, in its order |
| SchemaService.FirstUndescribed | src/backend/services/schemaService.js:27-28 | the first table whose description fails, with every table before it described |
| SchemaService.DescribeFromFailure | src/backend/services/schemaService.js:27-35 | a failing introspection fails with the error of the first table that cannot be described |
| SchemaService.DescribeTables | src/backend/services/schemaService.js:26-32 | the table loop computes the introspection result |
| SchemaService.GetDatabaseSchema | src/backend/services/schemaService.js:10-37 | with the cache on and an entry for the database, that entry; otherwise the live schema or its first error |
| SchemaService.GetAllDatabases | src/backend/services/schemaService.js:43-50 | the driver's database list, or its error |
| SchemaService.ContextFromGet | src/backend/services/schemaService.js:72-84 | the context holds exactly the listed user databases that can be read, each with its live schema |
| SchemaService.KeptOf | src/backend/services/schemaService.js:72-84 | the names kept are exactly the listed user databases that can be read |
| SchemaService.ContextFromKeys | src/backend/services/schemaService.js:72-84 | for a database list with no repeats, the context's keys are the kept databases in list order |
| SchemaService.SystemDatabasesSkipped | src/backend/services/schemaService.js:74-76 | a system database never appears in the context |
| SchemaService.BuildSchemaContext | src/backend/services/schemaService.js:57-94 | a non-empty cached schema when the cache is on; otherwise the built context, which is then saved; only a failure to list databases is an error |
| SchemaService.ExecuteCustomQuery | src/backend/services/schemaService.js:102-111 | the driver's rows or error, passed on unchanged |
| OpenaiService.KeptReferences | src/backend/services/openaiService.js:41-43 | `References` is kept exactly when it is truthy |
| OpenaiService.ProjectTable | src/backend/services/openaiService.js:33-46 | each column becomes its `Field`, `Type`, `Key` and truthy `References`, in order |
| OpenaiService.EssentialTable | src/backend/services/openaiService.js:60-76 | each column becomes its `Field`, `Key` and truthy `References`, in order |
| OpenaiService.LimitSchemaContext | src/backend/services/openaiService.js:16-81 | the loops compute the limited schema: the focused database alone, or the projection, shrunk when it is over 50000 characters |
| OpenaiService.ShrinkLargeDatabases | src/backend/services/openaiService.js:56-78 | every database with more than 15 tables is overwritten in place with its essential columns |
| OpenaiService.EssentialColumnsOnly | src/backend/services/openaiService.js:60-76 | every table of a large database is overwritten in place with its essential columns |
| OpenaiService.FocusedKeepsDatabase | src/backend/services/openaiService.js:18-21 | a selected database that is present is returned alone and unchanged, whatever its size |
| OpenaiService.LimitedShape | src/backend/services/openaiService.js:27-78 | without a focus the same databases, tables and columns stay in order; `Field`, `Key` and truthy `References` are kept, `Type` is kept unless the database was shrunk, and nothing else is |
| OpenaiService.NoFitGuarantee | src/backend/services/openaiService.js:51-78 | when no database has more than 15 tables, an oversized projection is returned still oversized |
| OpenaiService.SmallDatabasesUntouched | src/backend/services/openaiService.js:60 | a database with 15 tables or fewer keeps its projected columns, `Type` included |
| OpenaiService.BuildMinimalSchema | src/backend/services/openaiService.js:134-147 | the nested loops compute the minimal schema of the focused schema |
| OpenaiService.PrimaryKeyFieldsAre | src/backend/services/openaiService.js:139-141 | the listed fields are exactly the `Field`s of the `PRI` columns, and the list is empty exactly when there is none |
| OpenaiService.PrimaryKeyFieldsAppend | src/backend/services/openaiService.js:139-141 | primary-key fields are listed in column order |
| OpenaiService.PrimaryKeySummaryCases | src/backend/services/openaiService.js:143-145 | a table summary is `No primary keys`, or `Primary keys: ` followed by the fields joined with `, ` |
| OpenaiService.MinimalShape | src/backend/services/openaiService.js:134-147 | the minimal schema has the focused schema's databases and tables in order, each table summarised |
| OpenaiService.LimitResults | src/backend/services/openaiService.js:200-201 | more than 10 rows are cut to the first 10; fewer rows and non-row results are shown as they are |
| OpenaiService.FewRowsUnchanged | src/backend/services/openaiService.js:200-201 | ten rows or fewer are shown unchanged |
| OpenaiService.TruncationNote | src/backend/services/openaiService.js:217 | the note appears exactly when rows were cut, and it holds the full row count |
| OpenaiService.GenerateSQLFromNaturalLanguage | src/backend/services/openaiService.js:90-189 | the first request goes to the first model with the limited schema; the second model is asked once, only after a token-limit error, with the minimal schema; the reply is trimmed; every failure reads "Failed to convert your query to SQL" |
| OpenaiService.ExplainResultsInNaturalLanguage | src/backend/services/openaiService.js:197-265 | at most 10 rows are shown, with the total when rows were cut; the same one-shot fallback applies; every failure reads "Failed to explain the query results" |
| ChatService.FirstMentioned | src/backend/services/chatService.js:20-36 | the detected database is in the list and mentioned; none is detected exactly when none is mentioned |
| ChatService.FirstMentionedAt | src/backend/services/chatService.js:20-33 | the first mentioned database in list order is the one detected |
| ChatService.DetectDatabaseFromQuery | src/backend/services/chatService.js:11-37 | `null` for a missing or empty list; otherwise the loop returns the first database whose name variants occur in the question |
| ChatService.ContainsEmpty | src/backend/services/chatService.js:30 | every string includes the empty string |
| ChatService.DbNamedDbAlwaysDetected | src/backend/services/chatService.js:25-30 | a database named `db` has the empty string among its variants, so some database is detected for every question |
| ChatService.KeywordsOfAre | src/backend/services/chatService.js:48-51 | a keyword is exactly a word longer than three characters that is not a stop word |
| ChatService.ColumnMatches | src/backend/services/chatService.js:75-80 | the column loop finds a match exactly when some column's `Field` contains a keyword |
| ChatService.RelevantTablesOf | src/backend/services/chatService.js:58-86 | the table loop collects the relevant tables in order; the database is relevant by its name or through one of them |
| ChatService.ReduceSchema | src/backend/services/chatService.js:56-97 | the database loop computes every database's contribution, in schema order |
| ChatService.SampleOf | src/backend/services/chatService.js:106-112 | the sample of a database is its first three tables with their columns |
| ChatService.SampleSchema | src/backend/services/chatService.js:100-114 | the fallback gives every database its sample, in order |
| ChatService.IdentifyRelevantTables | src/backend/services/chatService.js:45-117 | the reduced schema, or the sample when the reduction is empty |
| ChatService.RelevantTablesEntries | src/backend/services/chatService.js:66-86 | a table is kept exactly when it is relevant, and it keeps its columns |
| ChatService.DatabaseReductionCases | src/backend/services/chatService.js:89-96 | a database is included exactly when its name or one of its tables is relevant; it holds just the relevant tables, or all of them when only its name matched |
| ChatService.ReduceFromAt | src/backend/services/chatService.js:56-97 | each database of the schema appears under its name with its contribution |
| ChatService.ReduceFromAbsent | src/backend/services/chatService.js:56 | a name that is not in the schema is not in the reduction |
| ChatService.ReduceFromEmpty | src/backend/services/chatService.js:100 | the reduction is empty exactly when no database contributes |
| ChatService.ReduceFromNext | src/backend/services/chatService.js:89-96 | one more database assigns its contribution, if any, under its name |
| ChatService.ReduceFromHead | src/backend/services/chatService.js:221-222 | the first database of the reduction is the first contributing database of the schema |
| ChatService.FallbackSample | src/backend/services/chatService.js:100-114 | without any contribution, every database is kept in order with its first three tables |
| ChatService.ColumnsCopied | src/backend/services/chatService.js:82-112 | every table in the result carries exactly the columns it has in the full schema |
| ChatService.WordEnd | src/backend/services/chatService.js:216 | the run of `[a-zA-Z0-9_]` ends at the first other character |
| ChatService.WordEndSkips | src/backend/services/chatService.js:216 | every character of the run is a word character |
| ChatService.FromCaptureSound | src/backend/services/chatService.js:216-218 | the captured name is a non-empty word, standing after `from` (any letter case) and white space, and before a `.` |
| ChatService.FromCaptureAtIff | src/backend/services/chatService.js:216 | the capture at a position is exactly the word of a regular-expression match starting there |
| ChatService.FirstFromCaptureFinds | src/backend/services/chatService.js:216-218 | whenever the statement holds a match, a name is captured |
| ChatService.FirstFromCaptureLeftmost | src/backend/services/chatService.js:216-218 | the name captured is the word of the leftmost match, as `String.prototype.match` returns it |
| ChatService.LeadingSpaceNotReadOnly | src/backend/services/chatService.js:201-203 | the gate `IsReadOnly`, as written, refuses a statement that starts with white space even when a `SELECT` follows; in the flow no generated statement starts with white space (`GeneratedSqlTrimmed`) |
| ChatService.GeneratedSqlTrimmed | src/backend/services/openaiService.js:127 | a generated statement is trimmed, so it never starts with white space and reaches the read-only gate as the model wrote it, blanks aside |
| ChatService.UserDatabases | src/backend/services/chatService.js:129-131 | the user databases are exactly the non-system ones, and the first is the first non-system database of the list |
| ChatService.PossibleDatabases | src/backend/services/chatService.js:167-173 | a database is possible exactly when the question contains its name as it is or with `_` read as a space |
| ChatService.PossibleDatabasesOf | src/backend/services/chatService.js:167-173 | the loop collects the possible databases in list order |
| ChatService.FetchSchemas | src/backend/services/chatService.js:177-180 | each possible database gets its live schema, in order, and the first failure is thrown |
| ChatService.FetchAllGet | src/backend/services/chatService.js:177-180 | the fetch succeeds exactly when every possible database can be read, and then holds each of them with its live schema |
| ChatService.FetchAllKeys | src/backend/services/chatService.js:177-180 | for a list with no repeats, the fetched context's keys are the possible databases in list order |
| ChatService.SelectDatabase | src/backend/services/chatService.js:134-140 | the database given, or else the one detected: `ChosenDatabase` |
| ChatService.BuildQuestionContext | src/backend/services/chatService.js:146-188 | the context is `ContextFor` of the cache as read; it comes from, in order: the chosen database's cached entry or live schema, the whole cache, the possible databases, and finally every readable database; the cache file is rewritten with the rebuilt context exactly when no database was chosen, no cache was read, the question names no database, the list of databases was read and the write succeeds, and is left as it was otherwise |
| ChatService.TargetPrecedence | src/backend/services/chatService.js:213-228 | `TargetDatabase` is the chosen database, else the name after `from` (`FromDatabase`), else the reduction's first key, else the first user database; some database is named whenever a user database exists |
| ChatService.ResolveTargetDatabase | src/backend/services/chatService.js:213-228 | the reassignments compute `TargetDatabase` |
| ChatService.ProcessNaturalLanguageQuery | src/backend/services/chatService.js:125-251 | every error becomes "I encountered an error: …"; the database is `ChosenDatabase` and the context `ContextFor`; SQL is generated from the full context; a statement that is not read-only is returned as the explanation and not run; a read-only statement is always run, on the target database, and its rows are explained; the cache file is rewritten only when the context was rebuilt from every database |

## Left out

- I/O is left out. The cache file is the state of `CacheStore`. A failed write is the flag `writeOk`, and the file read is the parameter `read`. The driver and the language model are parameters, and logging is not modelled.
- Asynchrony is left out. Each call runs to completion before the next starts. Two requests that save the cache at the same time are not modelled.
- The MySQL connection pools and the driver's SQL text, such as `SHOW TABLES` or `DESCRIBE`, are not modelled. `src/backend/config/db.js` is not part of this model; its answers are the fields of `Driver`.
- `JSON.parse` of a schema file is the parameter `parseJson`. The length of `JSON.stringify` is the parameter `jsonSize`. Non-string JSON values in a column are kept opaque, and only their truthiness is observable.
- Prompt wording, temperatures and `max_tokens` are not modelled. A request carries its model, the schema or rows it shows, the question and the row-count note.
- Object key order is insertion order. JavaScript puts integer-like keys first; this ordering is not modelled.
- A database or table name `__proto__` is not modelled as JavaScript treats it. Assigning to it sets the prototype of the schema object and adds no own key, while `Put` adds an ordinary entry.
- Inherited properties are not modelled. Of the prototype's special names, only a column's `__proto__` property is treated apart: assigning a string to it does nothing.
- Case mapping covers ASCII letters only. Lengths count characters, not UTF-16 code units.
- A reply whose content is `null` would make `.trim()` throw. This case is not modelled: every reply of the model is a string.
- `ProcessNaturalLanguageQuery` reads the cache once, at the start, and the context comes from that read. The services that read the cache again see the same file, because nothing writes it in between.
- A cache file that holds valid JSON other than an object (an array, a number, a string, `true`) is not modelled. The source returns such a value as the cached schema, and the question flow then treats the cache as present. `CacheFile` holds a schema object, text that is not JSON, or nothing.
- `DescribeFromKeys` is stated for a table list without repeats, as `SHOW TABLES` returns it. With a repeated name, the key keeps its first position.
- `IntrospectKeys` is stated for a table list without repeats, for the same reason.
- `ContextFromKeys` is stated for a database list without repeats, as `SHOW DATABASES` returns it.
- `FetchAllKeys` is stated for a list of possible databases without repeats; the possible databases are drawn from the `SHOW DATABASES` list in its order.
- The routes, the relationship editing, and the encoding of the text format are not part of this model. They are outside the four services.

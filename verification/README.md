# go-db schema core in Dafny

A model of the pure core of the go-db ORM, with proofs about it. The core is
three pieces:

- **The field-descriptor builder** (`annotation.go`). Each struct field, given
  as its kind and its tag map, becomes a `Column` descriptor, which is
  appended under a table key. `processTypeForColumns` walks a struct, skips
  `dbskip` fields, and recurses into column-tagged struct fields under the
  field's name. `ptrLogic` is a near-copy of `regularLogic` that nothing calls.
- **The schema synthesizer and its SQL rendering** (`repository.go`). This
  covers:
  - `CamelToSnake`;
  - `Column.GenerateSQL`, which renders one column definition;
  - `Alters.GenerateSQL`, which renders one foreign-key statement;
  - the loops of `CreateTables`, which turn the extracted descriptors into
    CREATE TABLE statements, join tables and foreign keys;
  - `readAnnotations`, which feeds those loops;
  - the small list-driven renderer `GetFieldDataTypes`/`CreateTableSQL`.
- **The fluent query builder** (`endpoint.go`). `QueryBuilder`, `Select`,
  `Join`, `Where`, `And` and `Or` are transitions on the `query` text of a
  `DB`.

How the model is built:

- Everything is an immutable datatype and a pure function.
- Reflection is replaced by an abstract `Field`: a name, a `Kind` and a tag
  map.
- Go map iteration and channel order cannot be predicted. Both become
  explicit inputs: an arrival order of the entities, and one sequence of
  (key, descriptors) entries per map.
- The `tableName` variable of `CreateTables` is never reset, so it is part
  of the fold's state.
- `readAnnotations` and `CreateTables` are modelled as written, including
  the loss of every entity registered by pointer (see "## Findings"). The
  corrected reading is modelled beside them and equals the reading as
  written of the same registry with every entity registered by value.

Modules, one per file:

| file | module | models |
|---|---|---|
| text.dfy | `Text` | `strings.Join`, `strings.Split` on one character, ASCII case mapping |
| naming.dfy | `Naming` | `CamelToSnake` |
| annotation.dfy | `Annotation` | `Column`, the per-kind rule table, `regularLogic`, `processTypeForColumns`, `ptrLogic` |
| render.dfy | `Render` | `Column.GenerateSQL`, `Alters`, `Alters.GenerateSQL`, `JoinTable`, the reading of a `join` tag |
| synthesis.dfy | `Synthesis` | lines 374-442 of `CreateTables` |
| extraction.dfy | `Extraction` | `readAnnotations` and its hand-off to the synthesizer |
| field_types.dfy | `FieldTypes` | `FieldDataTypes`, the `Sql*` constants, `GetFieldDataTypes`, `CreateTableSQL` |
| endpoint.dfy | `Endpoint` | `DB.query` and the query-builder transitions |
| fixture.dfy | `Fixture` | the `Model` struct of struct.go taken end to end |

## Model

| member | source | states |
|---|---|---|
| Naming.CamelToSnake | repository.go:493-511 | The result has no ASCII capital. Its first character is the input's first character in lower case. It is longer than the input by exactly the number of capitals after the first position, one `_` each. |
| Naming.CamelToSnakeKeepsLowercase | repository.go:497-508 | A string with no ASCII capital is returned unchanged. |
| Naming.CamelToSnakeFixedPoint | repository.go:493-511 | A string is its own normal form if and only if it has no ASCII capital. |
| Naming.CamelToSnakeIdempotent | repository.go:493-511 | Normalising twice is the same as normalising once. |
| Naming.CamelToSnakeAddsNothing | repository.go:497-508 | The only characters the normalisation can introduce are `_` and lower-case letters. |
| Naming.InnerPiecesConcat | repository.go:497-508 | After the first position, the normalisation works character by character: the normal form of a concatenation is the concatenation of the normal forms. |
| Naming.CamelToSnakePositions | repository.go:497-508 | Character `i > 0` of the input lands at `i` plus the number of capitals strictly between the first character and it. A capital lands as `_` followed by its lower-case letter; any other character is copied. |
| Naming.TwoWords | repository.go:497-508 | Two capitalised lower-case words become the two words in lower case, joined by `_`. |
| Naming.CustomerOrderExample | repository.go:493-511 | "CustomerOrder" becomes "customer_order". |
| Naming.InnerCapitalExample | repository.go:501-505 | "iD" becomes "i_d": a capital that is not first gets an underscore. |
| Text.ToUpper | repository.go:286 | Upper-casing keeps the length and maps each character to its ASCII upper-case form, so no lower-case letter is left. |
| Text.ToUpperIdempotent | endpoint.go:55 | Upper-casing twice is the same as upper-casing once. |
| Text.SplitPieces | repository.go:391-393 | No piece of a split contains the separator, and joining the pieces with the separator gives back the input. |
| Text.SplitJoin | repository.go:391-393 | Splitting a join of separator-free pieces gives back the pieces. |
| Text.SplitFirst | repository.go:391-393 | The first piece of a split is the text before the first separator. There are at least two pieces exactly when the separator occurs. The later pieces are the split of what follows the first separator. |
| Annotation.TagTextRoundTrip | annotation.go:47-55 | Each tag key the builder looks up is read back from its own spelling, so no two keys share one. |
| Annotation.DescribeNames | annotation.go:61-67 | The descriptor carries the field's name, its `column` tag and its `tableName` tag. Its SQL definition is empty. |
| Annotation.DescribeType | annotation.go:68-195 | The type string by kind. For a string: no datatype gives varchar(255), uuid.UUID gives varchar(35), time.TIME gives datetime, any other datatype is kept verbatim. Ints and uints default to integer, bool to tinyint(1), float to float(8,2), and an explicit datatype overrides each default. A pointer to a struct gives varchar(35). Arrays, slices, other pointers, structs and other kinds give "". |
| Annotation.DescribeNull | annotation.go:76-194 | For string, int and uint kinds, null:"true" becomes "null" and null:"false" becomes "not null". Any other value is kept only for string fields typed uuid.UUID or time.TIME. A pointer to a struct keeps the raw tag. Bool, float and the other kinds never set it. |
| Annotation.DescribeKeys | annotation.go:71-195 | The primary key is set only for a string typed uuid.UUID. The foreign key and the reference are set only for that case and for a pointer to a struct. |
| Annotation.DescribeDefaultAndJoin | annotation.go:79-183 | The `default` tag is honoured for string, int, uint and bool kinds only. The `join` tag is kept only for arrays, slices, and pointers to arrays or slices. |
| Annotation.Append | annotation.go:202-203 | Appending adds the descriptor at the end of the list under the key. Every other key's list is unchanged, and the key set gains only that key. |
| Annotation.RegularLogic | annotation.go:40-204 | A field that is not a column-tagged struct appends exactly its descriptor under the key. That descriptor is the empty sentinel when the field is skipped or has no `column` tag. |
| Annotation.RegularLogicAppendsLast | annotation.go:43-203 | For every field, including a nested struct, the last descriptor under the key afterwards is that field's own descriptor, or the sentinel. |
| Annotation.RegularLogicGrows | annotation.go:40-204 | `regularLogic` only appends. Every list already in the map is a prefix of the list under the same key afterwards, and no key disappears. |
| Annotation.TypeGrows | annotation.go:22-37 | The same holds for a whole `processTypeForColumns` walk, nested structs included. |
| Annotation.GrowsTransitive | annotation.go:29-35 | Append-only steps compose, so successive loop iterations are append-only too. |
| Annotation.ProcessTypeForColumns | annotation.go:28 | A type that is not a struct leaves the map unchanged. |
| Annotation.StructFieldWalk | annotation.go:196-202 | A column-tagged struct field is first walked under its own name. Then an untyped descriptor named by its `column` tag is appended under the parent key. A struct field without a `column` tag is not walked and leaves only the sentinel. |
| Annotation.PtrLogic | annotation.go:206-368 | `ptrLogic` appends exactly one descriptor under the key and leaves every other key alone. |
| Annotation.PtrLogicAgrees | annotation.go:206-368 | `ptrLogic` gives the same map as `regularLogic` on every field that is not a struct. On a struct field it appends the descriptor without walking the nested type. |
| Annotation.FlatWalk | annotation.go:28-36 | A walk over fields with no nested column-tagged struct appends, under the one key, the descriptors of the fields that are not skipped, in field order. |
| Annotation.SkippedFieldsInvisible | annotation.go:30-33 | A walk gives the same map as a walk over the same fields with the `dbskip` fields removed. Skipped fields leave no sentinel. |
| Annotation.WalkIgnoresSkipped | annotation.go:22-37 | `processTypeForColumns` over a struct is the same as over that struct with its skipped fields removed. |
| Annotation.ProcessFieldsPrefix | annotation.go:29-35 | After n iterations, the loop depends only on the first n fields. |
| Render.GenerateSQL | repository.go:513-578 | Only the SQL definition changes. A column without a name is left unchanged. Otherwise the definition starts with four spaces and the name, and is exactly that when the type is empty. |
| Render.GenerateSQLShape | repository.go:514-575 | A named, typed column renders as four spaces, the name, and the keyword of its type's branch. Then " NOT NULL" follows when a null string is set (whatever it says), then " DEFAULT " and the default when one is set, then " PRIMARY KEY" only in the varchar(35)/uuid.UUID branch when the flag is set. |
| Render.GenerateSQLIdempotent | repository.go:515 | Rendering a rendered column again changes nothing, because the definition is reassigned before it is extended. |
| Render.KnownTypes | repository.go:521-570 | The type switch: varchar(35)/uuid.UUID, datetime/time.TIME, bool, float, int/time.Duration and long select their own keywords. "string" selects the default branch. |
| Render.BuilderDefaultsRenderAsVarchar | repository.go:567-570 | The builder's own defaults "integer", "tinyint(1)" and "float(8,2)" fall into the default branch and render as varchar(255). |
| Render.GenerateAlter | repository.go:364-367 | Only the statement changes. It is the ALTER TABLE ... ADD CONSTRAINT fk_t_R FOREIGN KEY (FK) REFERENCES R (id) text, with t the normalised table name. |
| Render.AlterIgnoresKey | repository.go:366 | The statement does not depend on `Key`: it uses the foreign key. |
| Render.ParseGenerateAlter | repository.go:364-367 | If the table name, foreign key and reference hold no backquote, the normalised table, the foreign key and the reference can be read back from the statement. |
| Render.ParseJoinSplits | repository.go:391-398 | A tag is well formed (no index panic) if and only if the split at ',' has two pieces and each of the first two splits at ':' has two pieces. The four names read are the ones the indexing picks. |
| Render.ParseFormatJoin | repository.go:391-398 | A tag written as T1:k1,T2:k2 from names without ',' or ':' is well formed and reads back as (T1, k1, T2, k2). |
| Synthesis.StepState | repository.go:381-433 | One descriptor never adds a CREATE TABLE statement. It adds one join table and two foreign keys when it is a join, and one more foreign key when it is a reference. Lists are only extended. Its own table name becomes the shared name. Without one, a known shared name is kept. |
| Synthesis.Definition | repository.go:385-389 | A descriptor contributes a definition exactly when it has a name and a type and no join. The definition is the rendered column. |
| Synthesis.AttributesDefinitions | repository.go:380-437 | The inner loop splits into the state fold and the definitions of the rendering descriptors, in descriptor order, independent of the state. |
| Synthesis.DefinitionsNonEmpty | repository.go:434-438 | Some definition is collected if and only if some descriptor renders. |
| Synthesis.KeyStepTables | repository.go:379-440 | A key adds exactly one CREATE TABLE IF NOT EXISTS statement if some descriptor has a name and a type and no join, and none otherwise. The statement names the normalised key and joins the definitions in descriptor order with ",\r\n". |
| Synthesis.JoinAttribute | repository.go:390-418 | A join tag T1:k1,T2:k2 adds the join table (T1, T2, k1, k2) and its CREATE statement. It also adds two foreign keys, towards T1 on k1 and towards T2 on k2. The table is the shared name, or the normalised T1_T2 while none is known, and that table is the shared name afterwards. |
| Synthesis.ReferenceAttribute | repository.go:419-432 | A reference adds one foreign key from the shared table, or the normalised key while none is known. Its `Key` is the column name, and the foreign key and the reference are the descriptor's. No join table is added. |
| Synthesis.StickyAcrossKey | repository.go:377-384 | Once a table name is known, a key whose descriptors carry no table name never changes it. The name leaks from one key into the next. |
| Synthesis.StatesCounts | repository.go:390-433 | Over a key's descriptors there is one join table per join descriptor, plus two foreign keys per join descriptor and one per reference. |
| Synthesis.KeyStepCounts | repository.go:379-441 | The same counts for one key, CREATE TABLE statement included. |
| Synthesis.EntriesCounts | repository.go:378-442 | The same counts over any sequence of keys. |
| Synthesis.SynthesizeCounts | repository.go:374-442 | From empty lists, the run has as many join tables as join descriptors, and twice as many foreign keys plus one per reference descriptor. |
| Extraction.TypeOf | repository.go:588 | The reflected type is the struct itself exactly when the entity is registered by value. |
| Extraction.PointerEntityLosesColumns | repository.go:588-595 | As written, an entity registered by pointer contributes no columns, whatever its fields. |
| Extraction.ReadEntityAgrees | repository.go:588-595 | The corrected reading agrees with the code as written for entities registered by value. Pointer and value registration of the same struct give the same map. |
| Extraction.FlatEntity | repository.go:587-595 | A flat struct is read by the corrected reading into one list under its type name: the descriptors of its unskipped fields in field order. It has no entry when every field is skipped. As written, the same holds for a struct registered by value. |
| Extraction.PointerEntityExample | repository.go:588-595 | A User struct with one column-tagged field, registered by pointer, reads as an empty map. The corrected reading gives that field's descriptor under "User". |
| Extraction.Received | repository.go:598-611 | The receive loop yields nothing when no goroutine was started. Otherwise it yields the maps sent, in order, then one empty map: the zero value received after the channel closes. |
| Extraction.ReadAnnotations | repository.go:580-613 | As written: no entity gives no maps. Otherwise there is one map per entity, each read as written, in arrival order, followed by one empty map. |
| Extraction.ReadAnnotationsCorrected | repository.go:580-613 | The same collection with each entity read by the corrected reading. |
| Extraction.ReadAnnotationsCorrectedByValue | repository.go:586-595 | The corrected collection equals the collection as written for the same registry with every entity registered by value. It equals the collection as written when no entity is registered by pointer. |
| Extraction.EnumeratesEmpty | repository.go:379 | Ranging over an empty map yields no entry. |
| Extraction.CreateTablesIgnoresTrailingMap | repository.go:603-610 | The trailing empty map adds no entry, so the synthesizer sees exactly the entities' maps. |
| Extraction.CreateTables | repository.go:369-442 | As written, with the maps read as written. With no registered entity the three lists stay empty. |
| Extraction.PointerRegistryEmitsNothing | repository.go:369-442 | As written, a registry whose entities are all registered by pointer gives every map empty and creates no table, no join table and no foreign key. |
| FieldTypes.SqlTypeTable | repository.go:12-16 | "string", "uuid", "uuidpk", "int" and "long" expand to their constants. Every other data type is copied verbatim. |
| FieldTypes.FieldLineShape | repository.go:283-297 | A line is the name upper-cased character by character, a space, and the SQL type. |
| FieldTypes.Lines | repository.go:283-298 | There is one line per field, in field order. |
| FieldTypes.GetFieldDataTypesConcat | repository.go:299 | Rendering two non-empty lists is rendering each, joined by one ",\n". |
| FieldTypes.CreateTableSQLJoin | repository.go:302-307 | The statement is its lines joined by newlines. The lines are the header, the comma-terminated column lines (the first indented by two tabs), and the closing tab and parenthesis. |
| FieldTypes.CreateTableSQLLines | repository.go:302-307 | With no newline in the names, splitting the statement at newlines gives back those lines. An empty list gives 3 lines, otherwise there are as many lines as fields plus 2. |
| Endpoint.QueryBuilder | endpoint.go:33-36 | The query is emptied and nothing else changes. |
| Endpoint.Select | endpoint.go:38-46 | Only the query changes. The caller's column list is rewritten to the alias-qualified names. The query becomes "SELECT ", those names joined by ", ", " FROM ", the table, a space and the table alias. |
| Endpoint.Qualified | endpoint.go:40-42 | Each column becomes columnAlias + "." + column, in place, keeping the order. |
| Endpoint.SelectDiscardsQuery | endpoint.go:39 | The query after `Select` does not depend on the query before it. |
| Endpoint.SelectShape | endpoint.go:39-44 | The query starts with "SELECT " and the first qualified column, and ends with " FROM ", the table and its alias. |
| Endpoint.JoinTables | endpoint.go:54-57 | Only the query changes, and the old query is a prefix of the new one. |
| Endpoint.Where | endpoint.go:59-62 | Only the query changes, and the old query is a prefix of the new one. |
| Endpoint.And | endpoint.go:64-67 | Only the query changes, and the old query is a prefix of the new one. |
| Endpoint.Or | endpoint.go:69-72 | Only the query changes, and the old query is a prefix of the new one. |
| Endpoint.Apply | endpoint.go:54-72 | Each call appends exactly its clause, which does not depend on the state, and changes nothing else. |
| Endpoint.RunAppends | endpoint.go:54-72 | After any chain, the query is the old query followed by the chain's clauses in call order, and the settings are unchanged. |
| Endpoint.RunGrows | endpoint.go:54-72 | The query before a chain is a prefix of the query after it. |
| Endpoint.RunConcat | endpoint.go:54-72 | A chain runs as its two halves, one after the other. |
| Endpoint.SelectChainFresh | endpoint.go:33-46 | `QueryBuilder`, `Select`, then any chain gives a state that does not depend on the previous query. |
| Endpoint.JoinAfterSelect | endpoint.go:44-55 | `Join` right after `Select` writes its upper-cased join type directly after the table alias, with no space. |
| Fixture.IdDescriptor | annotation.go:69-87 | The tags of `Model.ID` give type varchar(35), primary key "true" and null string "not null". |
| Fixture.TimeDescriptor | annotation.go:88-109 | A time.TIME field with null:"false" and a default gives type datetime, null string "not null", and the default. |
| Fixture.IdDefinition | repository.go:522-532 | `Model.ID` renders as "    id varchar(35) NOT NULL PRIMARY KEY". |
| Fixture.TimeDefinition | repository.go:533-540 | Such a time field renders as four spaces, the column, and " DATETIME NOT NULL DEFAULT NOW()". |
| Fixture.CreatedDefinition | struct.go:85 | `Model.Created` renders as "    created DATETIME NOT NULL DEFAULT NOW()". |
| Fixture.UpdatedDefinition | struct.go:86 | `Model.Updated` renders as "    updated DATETIME NOT NULL DEFAULT NOW()". |
| Fixture.NullableRendersNotNull | repository.go:571-573 | A string field tagged null:"true" is described as "null" and still renders " NOT NULL". |
| Fixture.ModelColumns | struct.go:83-87 | `Model`, registered by value, is read both as written and corrected as its three descriptors, in field order, under "Model". |
| Fixture.ModelTableName | repository.go:439 | The key "Model" is normalised to "model". |
| Fixture.ModelTable | repository.go:379-440 | The `Model` entry adds exactly CREATE TABLE IF NOT EXISTS model with its three rendered definitions. It adds no join table and no foreign key. |

## Left out

- Every database round trip is left out: `Repository.Select`, `SelectIn`, `Take`, `Find`, `All`, `Update`, `Insert`, `Delete`, `GetChildIds`, `GetChildren`, `handleSQLError`, `DB.Take`, `Connect` and `GetCfg`. So is the DDL execution phase of `CreateTables` (repository.go:443-490). They are I/O against a driver.
- The graph persister `Save`/`SaveAll`/`SaveChildren` is left out. Every step is a database call, and its nested errors are dropped.
- The reflection helpers `GetColumns`, `GetPlaceholders`, `GetValues` and `GetField` are left out. They need runtime reflection of values.
- The one-line query formats `insertQuery`, `selectQuery`, `selectInQuery` and `deleteQuery` are left out, and so is `CreateTableSQLFromAnnotations`, which always returns "". They are trivial formats with nothing to prove.
- `NewFieldDataType`, `NewFieldDataTypes`, `RegisterTable` and the getters and setters of struct.go are left out as plain field plumbing.
- The goroutines, the wait group and the channel of `readAnnotations` are not modelled. The order in which maps arrive is an input (`arrival`), and so is the iteration order of each map (`orders`).
- Reflection is abstracted. A struct's fields are a `Kind.Struct` value, and Go's kinds are merged where the code treats them alike: Int8..Int as `Int`, Uint8..Uint as `Uint`, Float32/64 as `Float`, and every kind without a case as `Other`.
- A tag string with a duplicated key, where Go's `Lookup` returns the first occurrence, is not represented: tags are a map.
- The `recover` in `processTypeForColumns` is not modelled. Nothing in the modelled walk panics.
- Render.ParseJoin: the index panic on a malformed `join` tag is not modelled. A precondition (`WellFormedJoin`) states what the code assumes: a comma, and a colon on each side.
- Text.ToUpper: upper-casing covers ASCII letters only, not Go's full Unicode `strings.ToUpper`.
- The connection handle of `DB` is an opaque number. `Select` returns the rewritten column list rather than mutating the caller's slice.
- Synthesis.KeyStep: its own ensures states only that the three lists are extended. The statement it adds is stated by `Synthesis.KeyStepTables` and the counts by `Synthesis.KeyStepCounts`.
- Extraction.CreateTables: its own ensures covers only the empty registry and the all-pointer registry (`Extraction.PointerRegistryEmitsNothing`). The counts and statements follow from the `Synthesis` lemmas applied to `Synthesize(orders)`.

## Findings

| source | as written | input that shows it | evidently intended | confidence | as-written member | corrected member |
|---|---|---|---|---|---|---|
| repository.go:588-595 | `readAnnotations` takes the table name from the pointed-to struct, but passes the pointer type itself to `processTypeForColumns`. That function does nothing for a type that is not a struct. | `User` with field ``Name string `column:"name"` ``, registered as `&User{}` | The walk looks through the pointer, as the name lookup does, and yields the `name` descriptor under "User". | not executed | Extraction.ReadEntityAsWritten, Extraction.PointerEntityExample, Extraction.PointerRegistryEmitsNothing | Extraction.ReadEntity, Extraction.ReadEntityAgrees, Extraction.ReadAnnotationsCorrected, Extraction.ReadAnnotationsCorrectedByValue |

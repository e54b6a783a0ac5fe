# CustomColumnTypeText, modelled in Dafny

COPS (Calibre OPDS PHP Server) serves a Calibre library over OPDS, including
the custom columns the library defines.
The class `CustomColumnTypeText` is one handler that serves three kinds of
value-list column: free text (`text`), enumeration (`enumeration`) and series
(`series`, a value with a position shown as `value [extra]`). This project
models that handler:

- Construction validates the declared datatype. It writes the kind into the
  class-wide slot `self::$type` before validating, and initialises the parent
  twice, the second time always with TEXT.
- Table naming derives the value table `custom_column_<id>` and the link table
  `books_custom_column_<id>_link` from the column id. The link column is `value`.
- It builds the books-by-value query, the lookup-by-id query, the all-values
  query and the per-kind value-for-book query.
- It maps result rows to values (`CustomColumn`) and to catalog entries (`Entry`).
- It picks the description branch by kind, and it reports that every column is
  searchable.

The database is replaced by the rows a query yields: every operation that runs
a query takes those rows (`id`, `name`, `extra`, `count`) as an input sequence.
The class-wide slot is the one mutable object, `TypeSlot`. Operations that read
it (`GetDescription`, `GetCustomByBook`) take its current value as a parameter,
`slotType`.

Files:
- `wrappers.dfy`: Option and Result.
- `numerals.dfy`: decimal rendering of ids and its inverse.
- `format.dfy`: a stand-in for the `str_format` placeholder helper.
- `custom_column_type_text.dfy`: the handler.
- `declared_kind.dfy`: the lookup with a per-column kind, for the finding below.

Three facts about the code that a reader may not expect:
- The table names are `custom_column_<id>` and `books_custom_column_<id>_link`.
- A constructed column's parent datatype is always TEXT; the double
  initialisation is modelled as written.
- The SERIES template takes `name` from the link table (`{1}.{2}`), while the
  other two templates take it from the value table (`{0}.{2}`).

The per-book templates are held as lists of clauses. The clauses concatenate
to the handler's three literal strings.

## Model

| member | source | states |
|---|---|---|
| `CustomColumnTypeText.KindOf` | lib/CustomColumnTypeText.php:20-32 | a datatype tag is accepted exactly when it is one of the three kinds' tags, and the kind found has that tag |
| `CustomColumnTypeText.NewColumn` | lib/CustomColumnTypeText.php:15-34 | the shared slot holds the declared datatype afterwards, even when construction fails; it succeeds exactly for TEXT, ENUM and SERIES; a constructed column records TEXT as its datatype |
| `Numerals.Decimal` | lib/CustomColumnTypeText.php:43 | an interpolated id is a non-empty string of digits without a leading zero (id 0 is the single digit `0`) |
| `Numerals.ParseDecimal` | lib/CustomColumnTypeText.php:43 | parsing an id's decimal rendering gives the id back |
| `Numerals.DecimalInjective` | lib/CustomColumnTypeText.php:43 | distinct ids render differently |
| `CustomColumnTypeText.TableName` | lib/CustomColumnTypeText.php:41-44 | the value-table name starts with `custom_column_` and the rest of it parses back to the column id, written as the id's decimal digits with no leading zero (so id 0 gives exactly one `0`) |
| `CustomColumnTypeText.TableLinkName` | lib/CustomColumnTypeText.php:52-55 | the link-table name starts with `books_custom_column_`, ends with `_link`, and what lies between parses back to the column id, written as the id's decimal digits with no leading zero (so id 0 gives exactly one `0`) |
| `CustomColumnTypeText.TableLinkColumn` | lib/CustomColumnTypeText.php:62-65 | the link column is always `value`, whatever the column |
| `CustomColumnTypeText.TableNameRoundTrip` | lib/CustomColumnTypeText.php:41-44 | the value-table name is `custom_column_` followed by a rendering from which the column id is recovered |
| `CustomColumnTypeText.LinkNameRoundTrip` | lib/CustomColumnTypeText.php:52-55 | the link-table name is `books_custom_column_`, the id's digits and `_link`, and the id is recovered from it |
| `CustomColumnTypeText.TableNamesDetermineId` | lib/CustomColumnTypeText.php:41-55 | two columns share a value-table name, or a link-table name, exactly when they share an id |
| `CustomColumnTypeText.TableAndLinkNamesDistinct` | lib/CustomColumnTypeText.php:41-55 | no value-table name equals any link-table name |
| `CustomColumnTypeText.GetQuery` | lib/CustomColumnTypeText.php:67-71 | the books-by-value query's parameter list is exactly `[id]` |
| `CustomColumnTypeText.QueryIdOnlyInParams` | lib/CustomColumnTypeText.php:67-71 | the query text does not depend on the id; only the parameter does |
| `CustomColumnTypeText.LookupQuery` | lib/CustomColumnTypeText.php:75-76 | the lookup statement is bound to exactly `[id]` |
| `CustomColumnTypeText.GetCustom` | lib/CustomColumnTypeText.php:73-81 | None exactly when there is no row; otherwise the requested id, the first row's name and this column |
| `CustomColumnTypeText.AllValuesQuery` | lib/CustomColumnTypeText.php:85-88 | the all-values query is run with no bound parameters |
| `CustomColumnTypeText.EntryOf` | lib/CustomColumnTypeText.php:92-95 | an entry's title is its row's name, its count the row's count, its content type the column's datatype |
| `CustomColumnTypeText.GetAllCustomValuesFromDatabase` | lib/CustomColumnTypeText.php:83-100 | exactly one entry per row, in row order, each the entry of its row |
| `CustomColumnTypeText.GetDescription` | lib/CustomColumnTypeText.php:102-117 | throws exactly for an unsupported slot value; TEXT gives the stored description unless it is NULL or PHP-empty ("" or "0"), in which case the default; ENUM and SERIES give the count phrase under key `customcolumn.description.<tag>` |
| `CustomColumnTypeText.BookClauses` | lib/CustomColumnTypeText.php:121-133 | every per-book template starts by selecting the value id and holds the FROM, the join and the book filter clauses |
| `CustomColumnTypeText.BookQuery` | lib/CustomColumnTypeText.php:134-136 | the per-book query binds no parameters |
| `CustomColumnTypeText.BookTemplateShape` | lib/CustomColumnTypeText.php:121-133 | only TEXT orders by value; only SERIES selects `extra` and takes `name` from the link table; TEXT and ENUM take `name` from the value table; all select the id first and filter on the book |
| `CustomColumnTypeText.DisplayName` | lib/CustomColumnTypeText.php:139-145 | TEXT and ENUM show the row's name unchanged; SERIES shows the name, then " [", then `extra`, then "]" |
| `CustomColumnTypeText.GetCustomByBook` | lib/CustomColumnTypeText.php:119-151 | throws exactly for an unsupported slot value; runs the slot kind's template; with no row it gives the sentinel (no id, empty name); otherwise the first row's id and display name; the id is absent exactly when there is no row |
| `CustomColumnTypeText.OnlyFirstRowMatters` | lib/CustomColumnTypeText.php:137-150 | rows after the first never change the result |
| `CustomColumnTypeText.TextAndEnumAgree` | lib/CustomColumnTypeText.php:139-142 | TEXT and ENUM make the same value from the same rows |
| `CustomColumnTypeText.EnumLookupRoundTrip` | lib/CustomColumnTypeText.php:73-81 | an ENUM value for a book, looked up by its id where the store holds the same name, is the same value |
| `CustomColumnTypeText.SeriesLookupDiffers` | lib/CustomColumnTypeText.php:143-144 | a SERIES value never survives that round trip, because of its suffix |
| `CustomColumnTypeText.AbsentValueShapes` | lib/CustomColumnTypeText.php:73-150 | with no row, lookup by id gives None while lookup by book gives the sentinel |
| `CustomColumnTypeText.DispatchesAgree` | lib/CustomColumnTypeText.php:102-133 | the description and the per-book lookup throw for the same slot values |
| `CustomColumnTypeText.IsSearchable` | lib/CustomColumnTypeText.php:153-156 | every column is searchable |
| `DeclaredKind.Declare` | lib/CustomColumnTypeText.php:15-34 | construction that keeps the declared kind: it succeeds exactly for the three tags, and the kind kept has the declared tag |
| `DeclaredKind.CustomByBook` | lib/CustomColumnTypeText.php:119-151 | the per-book lookup driven by the column's own kind: it runs that kind's query; a SERIES column always shows " [extra]", the others the bare name; a found value carries the first row's id and this column; with no row it gives the sentinel (no id, empty name) |
| `DeclaredKind.SeriesKeepsSuffix` | lib/CustomColumnTypeText.php:143-144 | a column declared SERIES always shows the first row's name with " [extra]", because its kind is held with the column |
| `DeclaredKind.AgreesWhileSlotIsOwnKind` | lib/CustomColumnTypeText.php:121-150 | while the slot holds the column's own kind, the handler and the per-column lookup agree |
| `DeclaredKind.SharedSlotCounterexample` | lib/CustomColumnTypeText.php:13-18 | SERIES column, then TEXT column: the SERIES value reads "Foundation" instead of "Foundation [3]"; after a failed construction the lookup throws |

## Left out

- Running queries (`getDb`, `prepare`, `execute`, `query`, `fetchObject`): each query's rows are an input sequence.
- The meaning of the SQL (joins, `GROUP BY`, `count(*)`, `ORDER BY`) belongs to the database. The model states only which clauses each template holds.
- `str_format` is not part of this model. `Format.StrFormat` is a stand-in, and no property of its output is stated.
- `SQL_BOOKS_BY_CUSTOM` is not part of this model. It is a parameter of `GetQuery`.
- `localize`, `getUri` and `getEntryId` are foreign calls. They are function parameters (`Collaborators`), and `LinkNavigation` is reduced to its URI.
- `getDatabaseDescription`, `getTitle` and `getDistinctValueCount` are foreign calls. `GetDescription` takes the stored description as a parameter and returns which branch is taken, not the localized wording.
- The parent class `CustomColumnType` is not part of this model. Only the id and datatype passed to its initialiser are recorded. The three tag strings are that class's constants.
- The slot `self::$type` is shared by the whole process. It is one `TypeSlot` object here, and concurrent requests are not modelled.
- PHP's `switch` compares loosely (`==`). Tags are compared as exact strings, which matches for the three non-numeric tags.
- Ids are natural numbers. Ids arriving as strings are not modelled.
- A `CustomColumn` refers to its column by value, not by object identity.
- The injection safety of interpolating the book id into the per-book query is not modelled.
- BookTemplateShape: states which clauses each template is assembled from, not substring facts about the raw text.

## Findings

| source | as written | input that shows it | evidently intended | confidence | as-written member | corrected member |
|---|---|---|---|---|---|---|
| lib/CustomColumnTypeText.php:13-18 | the kind lives in one class-wide slot that every construction overwrites, and `getCustomByBook` reads the slot | construct SERIES column 4, then TEXT column 5, then look up column 4's value for a book whose first row is ("Foundation", extra "3"): the name is "Foundation" | each column answers by its own declared kind: "Foundation [3]" | medium, not executed | `DeclaredKind.SharedSlotCounterexample` | `DeclaredKind.CustomByBook` |

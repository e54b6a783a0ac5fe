/**
 * The custom-column handler for the three value-list kinds of a Calibre
 * custom column: free text, enumeration and series. One handler class serves
 * all three; the kind it acts on is kept in a slot shared by every instance
 * of the class (a PHP static), written each time a column is constructed.
 *
 * The database is replaced by the rows a query returns: every operation that
 * runs a query takes those rows as an input sequence, in the order the store
 * yields them.
 */
module CustomColumnTypeText {
  import opened Wrappers
  import opened Numerals
  import opened Format

  // ---------------------------------------------------------------------
  // Kinds
  // ---------------------------------------------------------------------

  // Datatype tags declared by the parent class CustomColumnType.
  const CUSTOM_TYPE_TEXT: string := "text"
  const CUSTOM_TYPE_ENUM: string := "enumeration"
  const CUSTOM_TYPE_SERIES: string := "series"

  /** The three column kinds this handler serves. */
  datatype Kind = Text | Enum | Series

  function TagOf(kind: Kind): string {
    match kind
    case Text => CUSTOM_TYPE_TEXT
    case Enum => CUSTOM_TYPE_ENUM
    case Series => CUSTOM_TYPE_SERIES
  }

  /** The kind a datatype tag names, or None for a tag this handler does not serve. */
  function KindOf(tag: string): (r: Option<Kind>)
    ensures r.Some? ==> TagOf(r.value) == tag
    ensures r.None? <==> forall kind: Kind :: TagOf(kind) != tag
  {
    if tag == CUSTOM_TYPE_TEXT then Some(Text)
    else if tag == CUSTOM_TYPE_ENUM then Some(Enum)
    else if tag == CUSTOM_TYPE_SERIES then Some(Series)
    else None
  }

  predicate IsSupported(tag: string) {
    KindOf(tag).Some?
  }

  /** The exception every switch over the kind throws in its default branch. */
  datatype ColumnError = UnexpectedValue

  // ---------------------------------------------------------------------
  // Construction
  // ---------------------------------------------------------------------

  /** What the parent initialiser records about a column. */
  datatype Column = Column(customId: nat, dataType: string)

  /** The slot `self::$type`: one per process, shared by every column of this class. */
  class TypeSlot {
    var tag: string

    constructor (initial: string)
      ensures tag == initial
    {
      tag := initial;
    }
  }

  /**
   * Constructs a column. The shared slot is overwritten with the declared
   * datatype before it is validated, so it keeps an unsupported tag when
   * construction fails. The parent is initialised first with the declared
   * kind and then once more with TEXT, so a constructed column always records
   * TEXT as its datatype.
   */
  method NewColumn(statics: TypeSlot, pcustomId: nat, pdatatype: string)
    returns (r: Result<Column, ColumnError>)
    modifies statics
    ensures statics.tag == pdatatype
    ensures r.Success? <==> IsSupported(pdatatype)
    ensures r.Success? ==> r.value == Column(pcustomId, CUSTOM_TYPE_TEXT)
  {
    statics.tag := pdatatype;
    var parent: Column;
    match KindOf(pdatatype) {
      case None =>
        return Failure(UnexpectedValue);
      case Some(kind) =>
        parent := Column(pcustomId, TagOf(kind));
    }
    parent := Column(pcustomId, CUSTOM_TYPE_TEXT);
    return Success(parent);
  }

  // ---------------------------------------------------------------------
  // Table names
  // ---------------------------------------------------------------------

  const TABLE_PREFIX: string := "custom_column_"
  const LINK_PREFIX: string := "books_custom_column_"
  const LINK_SUFFIX: string := "_link"

  /** The sqlite table holding the column's distinct values. */
  function TableName(column: Column): (r: string)
    ensures |r| > |TABLE_PREFIX| && r[..|TABLE_PREFIX|] == TABLE_PREFIX
    ensures ParseNat(r[|TABLE_PREFIX|..]) == Some(column.customId)
    ensures r[|TABLE_PREFIX|] == '0' ==> column.customId == 0 && |r| == |TABLE_PREFIX| + 1
  {
    ParseDecimal(column.customId);
    var r := TABLE_PREFIX + Decimal(column.customId);
    assert r[|TABLE_PREFIX|..] == Decimal(column.customId);
    r
  }

  /** The sqlite table linking books to the column's values. */
  function TableLinkName(column: Column): (r: string)
    ensures |r| > |LINK_PREFIX| + |LINK_SUFFIX|
    ensures r[..|LINK_PREFIX|] == LINK_PREFIX && r[|r| - |LINK_SUFFIX|..] == LINK_SUFFIX
    ensures ParseNat(r[|LINK_PREFIX|..|r| - |LINK_SUFFIX|]) == Some(column.customId)
    ensures r[|LINK_PREFIX|] == '0' ==> column.customId == 0 && |r| == |LINK_PREFIX| + 1 + |LINK_SUFFIX|
  {
    ParseDecimal(column.customId);
    var r := LINK_PREFIX + Decimal(column.customId) + LINK_SUFFIX;
    assert r[|LINK_PREFIX|..|r| - |LINK_SUFFIX|] == Decimal(column.customId);
    r
  }

  /** The column of the link table that refers to a value row. */
  function TableLinkColumn(): (r: string)
    ensures r == "value"
  {
    "value"
  }

  /** The column id a value-table name was derived from, if it is such a name. */
  function TableIdOf(name: string): Option<nat> {
    var p := |TABLE_PREFIX|;
    if |name| >= p && name[..p] == TABLE_PREFIX then ParseNat(name[p..]) else None
  }

  /** The column id a link-table name was derived from, if it is such a name. */
  function LinkIdOf(name: string): Option<nat> {
    var p, q := |LINK_PREFIX|, |LINK_SUFFIX|;
    if |name| >= p + q && name[..p] == LINK_PREFIX && name[|name| - q..] == LINK_SUFFIX
    then ParseNat(name[p..|name| - q])
    else None
  }

  lemma TableNameRoundTrip(column: Column)
    ensures TableIdOf(TableName(column)) == Some(column.customId)
  {
  }

  lemma LinkNameRoundTrip(column: Column)
    ensures LinkIdOf(TableLinkName(column)) == Some(column.customId)
  {
  }

  /** Both names identify the column id exactly: equal names, equal ids. */
  lemma TableNamesDetermineId(a: Column, b: Column)
    ensures TableName(a) == TableName(b) <==> a.customId == b.customId
    ensures TableLinkName(a) == TableLinkName(b) <==> a.customId == b.customId
  {
  }

  /** No value table of one column is the link table of another. */
  lemma TableAndLinkNamesDistinct(a: Column, b: Column)
    ensures TableName(a) != TableLinkName(b)
  {
  }

  // ---------------------------------------------------------------------
  // Queries that are handed back to the caller or run with a parameter
  // ---------------------------------------------------------------------

  /** An SQL text with its positional parameters. */
  datatype Query = Query(sql: string, params: seq<nat>)

  /**
   * The books-by-value query; `booksByCustom` is the shared template the
   * caller's SQL file defines. Placeholders {0} and {1} are passed through for
   * the caller to fill.
   */
  function GetQuery(column: Column, booksByCustom: string, id: nat): (r: Query)
    ensures r.params == [id]
  {
    Query(StrFormat(booksByCustom, ["{0}", "{1}", TableLinkName(column), TableLinkColumn()]), [id])
  }

  /** The id reaches the query only as a parameter, never in its text. */
  lemma QueryIdOnlyInParams(column: Column, booksByCustom: string, a: nat, b: nat)
    ensures GetQuery(column, booksByCustom, a).sql == GetQuery(column, booksByCustom, b).sql
    ensures GetQuery(column, booksByCustom, a).params != GetQuery(column, booksByCustom, b).params <==> a != b
  {
  }

  // ---------------------------------------------------------------------
  // Values
  // ---------------------------------------------------------------------

  /** One row a query yields: its `id`, `name`, `extra` and `count` fields. */
  datatype Row = Row(id: nat, name: string, extra: string, count: nat)

  /** A value of a custom column, tied to the column it belongs to. */
  datatype CustomColumn = CustomColumn(id: Option<nat>, name: string, customColumnType: Column)

  const LOOKUP_FORMAT: string := "SELECT id, value AS name FROM {0} WHERE id = ?"

  /** The prepared statement that looks a value up by id. */
  function LookupQuery(column: Column, id: nat): (r: Query)
    ensures r.params == [id]
  {
    Query(StrFormat(LOOKUP_FORMAT, [TableName(column)]), [id])
  }

  /**
   * The value with the given id, from the rows LookupQuery yields: the first
   * row's name under the REQUESTED id, or None when there is no row.
   */
  function GetCustom(column: Column, id: nat, rows: seq<Row>): (r: Option<CustomColumn>)
    ensures r.None? <==> rows == []
    ensures r.Some? ==> r.value.id == Some(id) && r.value.name == rows[0].name
    ensures r.Some? ==> r.value.customColumnType == column
  {
    if rows == [] then None else Some(CustomColumn(Some(id), rows[0].name, column))
  }

  // ---------------------------------------------------------------------
  // All values of the column, as catalog entries
  // ---------------------------------------------------------------------

  const ALL_VALUES_FORMAT: string :=
    "SELECT {0}.id AS id, {0}.value AS name, count(*) AS count FROM {0}, {1} WHERE {0}.id = {1}.{2} GROUP BY {0}.id, {0}.value ORDER BY {0}.value"

  /** The query whose rows GetAllCustomValuesFromDatabase consumes; it is run without parameters. */
  function AllValuesQuery(column: Column): (r: Query)
    ensures r.params == []
  {
    Query(StrFormat(ALL_VALUES_FORMAT, [TableName(column), TableLinkName(column), TableLinkColumn()]), [])
  }

  datatype LinkNavigation = LinkNavigation(href: string)

  /** A catalog entry: title, id, content, content type, links, class, count. */
  datatype Entry = Entry(
    title: string,
    id: string,
    content: string,
    contentType: string,
    linkArray: seq<LinkNavigation>,
    className: string,
    numberOfElement: nat)

  /**
   * The collaborators an entry is built with: the localized "n books"
   * phrase, the navigation URI of a value and the entry id of a value.
   */
  datatype Collaborators = Collaborators(
    bookCount: nat -> string,
    uri: nat -> string,
    entryId: nat -> string)

  /** The entry one row of AllValuesQuery becomes. */
  function EntryOf(column: Column, c: Collaborators, post: Row): (e: Entry)
    ensures e.title == post.name && e.numberOfElement == post.count
    ensures e.contentType == column.dataType
  {
    Entry(post.name, c.entryId(post.id), c.bookCount(post.count), column.dataType,
          [LinkNavigation(c.uri(post.id))], "", post.count)
  }

  /**
   * Fetches rows one at a time and appends one entry per row, so the entries
   * are exactly the rows' entries, in row order.
   */
  method GetAllCustomValuesFromDatabase(column: Column, c: Collaborators, rows: seq<Row>)
    returns (entryArray: seq<Entry>)
    ensures |entryArray| == |rows|
    ensures forall i :: 0 <= i < |rows| ==> entryArray[i] == EntryOf(column, c, rows[i])
  {
    entryArray := [];
    var result := rows;
    while result != []
      invariant |entryArray| + |result| == |rows|
      invariant result == rows[|entryArray|..]
      invariant forall i :: 0 <= i < |entryArray| ==> entryArray[i] == EntryOf(column, c, rows[i])
    {
      var post := result[0];
      result := result[1..];
      var entryPContent := c.bookCount(post.count);
      var entryPLinkArray := [LinkNavigation(c.uri(post.id))];
      var entry := Entry(post.name, c.entryId(post.id), entryPContent, column.dataType,
                         entryPLinkArray, "", post.count);
      entryArray := entryArray + [entry];
    }
  }

  // ---------------------------------------------------------------------
  // Description
  // ---------------------------------------------------------------------

  /** Which description the column shows; the localized wording is not modelled. */
  datatype Description =
    | StoredDescription(text: string)   // the description stored in the database
    | DefaultDescription                // "customcolumn.description" with the column title
    | CountDescription(localeKey: string) // a per-kind phrase with the distinct value count

  /** PHP's `empty()` on a string: true for "" and for "0". */
  predicate PhpEmpty(s: string) {
    s == "" || s == "0"
  }

  /** The description branch the kind in the shared slot selects. */
  function GetDescription(slotType: string, databaseDescription: Option<string>)
    : (r: Result<Description, ColumnError>)
    ensures r.Failure? <==> !IsSupported(slotType)
    ensures r.Success? && r.value.StoredDescription? ==>
      slotType == CUSTOM_TYPE_TEXT && databaseDescription == Some(r.value.text) && !PhpEmpty(r.value.text)
    ensures r == Success(DefaultDescription) <==>
      slotType == CUSTOM_TYPE_TEXT && (databaseDescription.None? || PhpEmpty(databaseDescription.value))
    ensures (r.Success? && r.value.CountDescription?) <==>
      (slotType == CUSTOM_TYPE_ENUM || slotType == CUSTOM_TYPE_SERIES)
    ensures r.Success? && r.value.CountDescription? ==>
      r.value.localeKey == "customcolumn.description." + slotType
  {
    match KindOf(slotType)
    case None => Failure(UnexpectedValue)
    case Some(Text) =>
      if databaseDescription.None? || PhpEmpty(databaseDescription.value)
      then Success(DefaultDescription)
      else Success(StoredDescription(databaseDescription.value))
    case Some(_) => Success(CountDescription("customcolumn.description." + slotType))
  }

  // ---------------------------------------------------------------------
  // The value of the column for one book
  // ---------------------------------------------------------------------

  datatype Book = Book(id: nat)

  // The clauses the per-book templates are assembled from.
  const SELECT_ID: string := "SELECT {0}.id AS id"
  const NAME_FROM_VALUES: string := ", {0}.{2} AS name"
  const NAME_FROM_LINKS: string := ", {1}.{2} AS name"
  const EXTRA_FROM_LINKS: string := ", {1}.extra AS extra"
  const FROM_TABLES: string := " FROM {0}, {1}"
  const WHERE_LINKED: string := " WHERE {0}.id = {1}.{2}"
  const AND_BOOK: string := " AND {1}.book = {3}"
  const ORDER_BY_VALUE: string := " ORDER BY {0}.value"

  /**
   * The clauses of the per-kind query template for "the value of this
   * column for a book", in the order the handler spells them: {0} is the
   * value table, {1} the link table, {2} the link column, {3} the book id.
   */
  function BookClauses(kind: Kind): (r: seq<string>)
    ensures |r| >= 5 && r[0] == SELECT_ID
    ensures FROM_TABLES in r && WHERE_LINKED in r && AND_BOOK in r
  {
    match kind
    case Text => [SELECT_ID, NAME_FROM_VALUES, FROM_TABLES, WHERE_LINKED, AND_BOOK, ORDER_BY_VALUE]
    case Enum => [SELECT_ID, NAME_FROM_VALUES, FROM_TABLES, WHERE_LINKED, AND_BOOK]
    case Series => [SELECT_ID, NAME_FROM_LINKS, EXTRA_FROM_LINKS, FROM_TABLES, WHERE_LINKED, AND_BOOK]
  }

  function Concat(parts: seq<string>): string {
    if parts == [] then "" else parts[0] + Concat(parts[1..])
  }

  /** The per-kind query template, as one string. */
  function BookQueryFormat(kind: Kind): string {
    Concat(BookClauses(kind))
  }

  /** The query run for a book: the book id is interpolated into the text, and nothing is bound. */
  function BookQuery(column: Column, kind: Kind, book: Book): (r: Query)
    ensures r.params == []
  {
    Query(StrFormat(BookQueryFormat(kind), [TableName(column), TableLinkName(column), TableLinkColumn(), Decimal(book.id)]), [])
  }

  /**
   * Only the TEXT template orders by value; only the SERIES template selects
   * `extra`, and it takes `name` from the link table where the others take it
   * from the value table; every template selects the value id first and
   * filters on the book.
   */
  lemma BookTemplateShape(kind: Kind)
    ensures ORDER_BY_VALUE in BookClauses(kind) <==> kind == Text
    ensures EXTRA_FROM_LINKS in BookClauses(kind) <==> kind == Series
    ensures NAME_FROM_LINKS in BookClauses(kind) <==> kind == Series
    ensures NAME_FROM_VALUES in BookClauses(kind) <==> kind != Series
    ensures BookClauses(kind)[0] == SELECT_ID && AND_BOOK in BookClauses(kind)
  {
  }

  /** The name shown for a row: SERIES appends " [extra]", the others show the row's name. */
  function DisplayName(kind: Kind, post: Row): (r: string)
    ensures kind != Series ==> r == post.name
    ensures kind == Series ==>
      var n := |post.name|;
      |r| == n + |post.extra| + 3 && r[..n] == post.name && r[n..n + 2] == " ["
      && r[n + 2..|r| - 1] == post.extra && r[|r| - 1] == ']'
  {
    if kind == Series then post.name + " [" + post.extra + "]" else post.name
  }

  /** The sentinel for "no value": no id and an empty name, never None. */
  function NoValue(column: Column): CustomColumn {
    CustomColumn(None, "", column)
  }

  /** The query run for a book and the value made from the first row it yields. */
  datatype BookLookup = BookLookup(query: Query, custom: CustomColumn)

  /**
   * The value of the column for a book, from the rows BookQuery yields, with
   * the kind read from the shared slot: the first row's value with the kind's
   * display name, or the sentinel when there is no row.
   */
  function GetCustomByBook(column: Column, slotType: string, book: Book, rows: seq<Row>)
    : (r: Result<BookLookup, ColumnError>)
    ensures r.Failure? <==> !IsSupported(slotType)
    ensures r.Success? ==> r.value.query == BookQuery(column, KindOf(slotType).value, book)
    ensures r.Success? ==> r.value.custom.customColumnType == column
    ensures r.Success? ==> (r.value.custom.id.None? <==> rows == [])
    ensures r.Success? && rows == [] ==> r.value.custom == NoValue(column)
    ensures r.Success? && rows != [] ==>
      r.value.custom.id == Some(rows[0].id)
      && r.value.custom.name == DisplayName(KindOf(slotType).value, rows[0])
  {
    match KindOf(slotType)
    case None => Failure(UnexpectedValue)
    case Some(kind) =>
      var custom := if rows == [] then NoValue(column)
                    else CustomColumn(Some(rows[0].id), DisplayName(kind, rows[0]), column);
      Success(BookLookup(BookQuery(column, kind, book), custom))
  }

  /** Only the first row is consumed: rows after it never change the result. */
  lemma OnlyFirstRowMatters(column: Column, slotType: string, book: Book, rows: seq<Row>, more: seq<Row>)
    requires rows != []
    ensures GetCustomByBook(column, slotType, book, rows) == GetCustomByBook(column, slotType, book, rows[..1] + more)
  {
  }

  /** TEXT and ENUM make the same value from the same rows. */
  lemma TextAndEnumAgree(column: Column, book: Book, rows: seq<Row>)
    ensures GetCustomByBook(column, CUSTOM_TYPE_TEXT, book, rows).value.custom
         == GetCustomByBook(column, CUSTOM_TYPE_ENUM, book, rows).value.custom
  {
  }

  /**
   * An ENUM value for a book, looked up again by its id in a store that
   * holds the same name under that id, is the same value.
   */
  lemma EnumLookupRoundTrip(column: Column, book: Book, bookRows: seq<Row>, lookupRows: seq<Row>)
    requires bookRows != [] && lookupRows != []
    requires lookupRows[0].name == bookRows[0].name
    ensures var v := GetCustomByBook(column, CUSTOM_TYPE_ENUM, book, bookRows).value.custom;
            v.id.Some? && GetCustom(column, v.id.value, lookupRows) == Some(v)
  {
  }

  /** A SERIES value never survives the same round trip: its name carries the suffix. */
  lemma SeriesLookupDiffers(column: Column, book: Book, bookRows: seq<Row>, lookupRows: seq<Row>)
    requires bookRows != [] && lookupRows != []
    requires lookupRows[0].name == bookRows[0].name
    ensures var v := GetCustomByBook(column, CUSTOM_TYPE_SERIES, book, bookRows).value.custom;
            v.id.Some? && GetCustom(column, v.id.value, lookupRows) != Some(v)
  {
  }

  /** With no row, lookup by id answers None while lookup by book answers the sentinel. */
  lemma AbsentValueShapes(column: Column, slotType: string, book: Book, id: nat)
    requires IsSupported(slotType)
    ensures GetCustom(column, id, []) == None
    ensures GetCustomByBook(column, slotType, book, []).value.custom == NoValue(column)
  {
  }

  /** The description and the per-book lookup throw for exactly the same slot values. */
  lemma DispatchesAgree(slotType: string, databaseDescription: Option<string>, column: Column, book: Book, rows: seq<Row>)
    ensures GetDescription(slotType, databaseDescription).Failure?
        <==> GetCustomByBook(column, slotType, book, rows).Failure?
  {
  }

  /** Every column of this class can be searched. */
  function IsSearchable(column: Column): (r: bool)
    ensures r
  {
    true
  }
}

/**
 * The per-book lookup with the kind held by each column instead of by the
 * process-wide slot, and the input on which the two differ.
 *
 * In the handler every column of the class shares one kind slot, and every
 * construction overwrites it. A SERIES column built before a TEXT column
 * therefore looks its values up as TEXT: the " [extra]" suffix is lost, and
 * a failed construction in between leaves every column unable to answer.
 */
module DeclaredKind {
  import opened Wrappers
  import opened CustomColumnTypeText

  /** A column together with the kind it was declared with. */
  datatype DeclaredColumn = DeclaredColumn(column: Column, kind: Kind)

  /** Construction that keeps the declared kind with the column it belongs to. */
  function Declare(pcustomId: nat, pdatatype: string): (r: Result<DeclaredColumn, ColumnError>)
    ensures r.Success? <==> IsSupported(pdatatype)
    ensures r.Success? ==> TagOf(r.value.kind) == pdatatype
    ensures r.Success? ==> r.value.column == Column(pcustomId, CUSTOM_TYPE_TEXT)
  {
    match KindOf(pdatatype)
    case None => Failure(UnexpectedValue)
    case Some(kind) => Success(DeclaredColumn(Column(pcustomId, CUSTOM_TYPE_TEXT), kind))
  }

  /** The per-book lookup driven by the column's own kind; it cannot fail. */
  function CustomByBook(declared: DeclaredColumn, book: Book, rows: seq<Row>): (r: BookLookup)
    ensures r.query == BookQuery(declared.column, declared.kind, book)
    ensures r.custom.customColumnType == declared.column
    ensures r.custom.id.None? <==> rows == []
    ensures rows == [] ==> r.custom == NoValue(declared.column)
    ensures rows != [] ==> r.custom.id == Some(rows[0].id)
    ensures declared.kind == Series && rows != [] ==>
      r.custom.name == rows[0].name + " [" + rows[0].extra + "]"
    ensures declared.kind != Series && rows != [] ==> r.custom.name == rows[0].name
  {
    var custom := if rows == [] then NoValue(declared.column)
                  else CustomColumn(Some(rows[0].id), DisplayName(declared.kind, rows[0]), declared.column);
    BookLookup(BookQuery(declared.column, declared.kind, book), custom)
  }

  /**
   * A column declared SERIES always shows the first row's name with its
   * " [extra]" suffix, because its kind is held with the column.
   */
  lemma SeriesKeepsSuffix(pcustomId: nat, book: Book, rows: seq<Row>)
    requires rows != []
    ensures Declare(pcustomId, CUSTOM_TYPE_SERIES).Success?
    ensures CustomByBook(Declare(pcustomId, CUSTOM_TYPE_SERIES).value, book, rows).custom.name
         == rows[0].name + " [" + rows[0].extra + "]"
  {
  }

  /** While the slot still holds the column's own kind, the handler gives the same answer. */
  lemma AgreesWhileSlotIsOwnKind(declared: DeclaredColumn, book: Book, rows: seq<Row>)
    ensures GetCustomByBook(declared.column, TagOf(declared.kind), book, rows)
         == Success(CustomByBook(declared, book, rows))
  {
  }

  /**
   * The handler as written: construct a SERIES column, then a TEXT column,
   * and look up the SERIES column's value for a book whose first row is
   * ("Foundation", extra "3"); the name comes back without " [3]". Then fail
   * to construct a column of an unsupported datatype and look up again: the
   * lookup throws.
   */
  method SharedSlotCounterexample()
    returns (series: Column, afterText: Result<BookLookup, ColumnError>, afterInvalid: Result<BookLookup, ColumnError>)
    ensures afterText.Success? && afterText.value.custom.name == "Foundation"
    ensures afterText.value.custom.name != "Foundation [3]"
    ensures afterInvalid.Failure?
  {
    var statics := new TypeSlot(CUSTOM_TYPE_TEXT);
    var built := NewColumn(statics, 4, CUSTOM_TYPE_SERIES);
    series := built.value;
    var other := NewColumn(statics, 5, CUSTOM_TYPE_TEXT);
    var rows := [Row(7, "Foundation", "3", 1)];
    afterText := GetCustomByBook(series, statics.tag, Book(1), rows);
    var failed := NewColumn(statics, 6, "rating");
    afterInvalid := GetCustomByBook(series, statics.tag, Book(1), rows);
  }
}

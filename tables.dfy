/** The data frame the pipeline steps pass along: named columns in order, and
    rows that map column names to cells, a cell being missing (NaN) or a value. */
module Tables {
  import opened Wrappers

  datatype Value = Text(s: string) | Number(x: real)

  type Row = map<string, Option<Value>>

  datatype Table = Table(columns: seq<string>, rows: seq<Row>)

  /** The cell of `row` in column `c`; a column the row has no entry for reads
      as missing. */
  function Cell(row: Row, c: string): Option<Value> {
    if c in row then row[c] else None
  }

  /** `notna()` on column `c`, as a predicate on rows. */
  function HasCell(c: string): Row -> bool {
    row => Cell(row, c).Some?
  }
}

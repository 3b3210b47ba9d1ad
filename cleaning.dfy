/** `CleanDataStep.process` (pipeline/steps/clean_data_step.py): drop the
    non-informative columns, drop the rows whose Priority is missing, and fill
    the missing cells of five known columns. */
module Cleaning {
  import opened Wrappers
  import opened Tables

  const ColumnsToDrop: seq<string> := [
    "Incident_ID", "number_cnt", "Alert_Status", "CI_Name", "Related_Interaction",
    "Related_Change", "Reopen_Time", "No_of_Related_Incidents", "No_of_Related_Changes",
    "KB_number", "WBS"
  ]

  const Priority: string := "Priority"

  /** Categorical columns whose missing cells become "Unknown". */
  const CategoricalFillColumns: seq<string> := ["CI_Cat", "CI_Subcat", "Closure_Code"]

  /** Count columns whose missing cells become 0. */
  const Reassignments: string := "No_of_Reassignments"
  const RelatedInteractions: string := "No_of_Related_Interactions"

  const Unknown: Value := Text("Unknown")
  const Zero: Value := Number(0.0)

  /** `dropped_columns`: the listed columns the table has, in list order. */
  function DroppedColumns(columns: seq<string>): (r: seq<string>)
    ensures forall c :: c in r <==> c in ColumnsToDrop && c in columns
    ensures IsSubsequence(r, ColumnsToDrop)
  {
    Filter(ColumnsToDrop, c => c in columns)
  }

  /** `data.drop(columns=names, errors="ignore")`: every other column stays, in
      order, with its cells; names the table lacks are ignored. */
  function DropColumns(t: Table, names: seq<string>): (r: Table)
    ensures forall c :: c in r.columns <==> c in t.columns && c !in names
    ensures IsSubsequence(r.columns, t.columns)
    ensures |r.columns| == Count(t.columns, c => c !in names)
    ensures |r.rows| == |t.rows|
    ensures forall i, c :: 0 <= i < |r.rows| && c !in names ==> Cell(r.rows[i], c) == Cell(t.rows[i], c)
    ensures forall i, c :: 0 <= i < |r.rows| && c in names ==> Cell(r.rows[i], c).None?
  {
    var keep := (c: string) => c !in names;
    Table(Filter(t.columns, keep),
          seq(|t.rows|, i requires 0 <= i < |t.rows| => map c | c in t.rows[i] && c !in names :: t.rows[i][c]))
  }

  /** `data[data[c].notna()]`: the rows whose cell in `c` is present, in their
      original order, all of them and no other. */
  function DropMissing(t: Table, c: string): (r: Table)
    ensures r.columns == t.columns
    ensures forall row :: row in r.rows <==> row in t.rows && Cell(row, c).Some?
    ensures IsSubsequence(r.rows, t.rows)
    ensures |r.rows| == Count(t.rows, HasCell(c))
  {
    Table(t.columns, Filter(t.rows, HasCell(c)))
  }

  /** One row with its missing cell in `c` set to `v`. */
  function FillCell(row: Row, c: string, v: Value): (r: Row)
    ensures Cell(r, c) == if Cell(row, c).None? then Some(v) else Cell(row, c)
    ensures forall c' :: c' != c ==> Cell(r, c') == Cell(row, c')
  {
    if Cell(row, c).None? then row[c := Some(v)] else row
  }

  /** `if c in data.columns: data[c] = data[c].fillna(v)`. */
  function FillColumn(t: Table, c: string, v: Value): (r: Table)
    ensures r.columns == t.columns && |r.rows| == |t.rows|
    ensures c !in t.columns ==> r == t
  {
    if c !in t.columns then t
    else Table(t.columns, seq(|t.rows|, i requires 0 <= i < |t.rows| => FillCell(t.rows[i], c, v)))
  }

  /** Filling a present column sets its missing cells to `v` and keeps its
      present cells; every other column is untouched. */
  lemma FillColumnCells(t: Table, c: string, v: Value)
    ensures var r := FillColumn(t, c, v);
      forall i, c' :: 0 <= i < |r.rows| ==>
        Cell(r.rows[i], c') ==
          if c' == c && c in t.columns && Cell(t.rows[i], c).None? then Some(v) else Cell(t.rows[i], c')
  {
  }

  /** The fill loop over `cols`, in list order. */
  function FillColumns(t: Table, cols: seq<string>, v: Value): (r: Table)
    ensures r.columns == t.columns && |r.rows| == |t.rows|
  {
    if cols == [] then t
    else FillColumn(FillColumns(t, cols[..|cols| - 1], v), cols[|cols| - 1], v)
  }

  /** One more round of the fill loop fills one more column. */
  lemma FillColumnsPrefix(t: Table, cols: seq<string>, k: nat, v: Value)
    requires k < |cols|
    ensures FillColumns(t, cols[..k + 1], v) == FillColumn(FillColumns(t, cols[..k], v), cols[k], v)
  {
    assert cols[..k + 1][..k] == cols[..k];
  }

  /** After the fill loop, the listed columns the table has hold no missing
      cell; their present cells and all other columns are unchanged. */
  lemma {:induction false} FillColumnsCells(t: Table, cols: seq<string>, v: Value)
    ensures var r := FillColumns(t, cols, v);
      forall i, c :: 0 <= i < |r.rows| ==>
        Cell(r.rows[i], c) ==
          if c in cols && c in t.columns && Cell(t.rows[i], c).None? then Some(v) else Cell(t.rows[i], c)
  {
    if cols != [] {
      var init, last := cols[..|cols| - 1], cols[|cols| - 1];
      var mid := FillColumns(t, init, v);
      var r := FillColumns(t, cols, v);
      assert r == FillColumn(mid, last, v);
      FillColumnsCells(t, init, v);
      FillColumnCells(mid, last, v);
      assert cols == init + [last];
      forall i, c | 0 <= i < |r.rows|
        ensures Cell(r.rows[i], c) ==
          if c in cols && c in t.columns && Cell(t.rows[i], c).None? then Some(v) else Cell(t.rows[i], c)
      {
        assert c in cols <==> c in init || c == last;
      }
    }
  }

  /** The rows step: only when the table has a Priority column. */
  function DropMissingPriority(t: Table): (r: Table)
    ensures r.columns == t.columns
    ensures Priority !in t.columns ==> r == t
  {
    if Priority in t.columns then DropMissing(t, Priority) else t
  }

  /** The table after the column and row steps, before any filling. */
  function Kept(t: Table): (r: Table)
    ensures forall c :: c in r.columns <==> c in t.columns && c !in ColumnsToDrop
    ensures IsSubsequence(r.columns, t.columns)
    ensures |r.columns| == Count(t.columns, c => c !in ColumnsToDrop)
  {
    var dropped := DroppedColumns(t.columns);
    CountPointwise(t.columns, t.columns, c => c !in dropped, c => c !in ColumnsToDrop);
    DropMissingPriority(DropColumns(t, dropped))
  }

  /** The three fill steps of the cleaning, in order. */
  function FillAll(k: Table): (r: Table)
    ensures r.columns == k.columns && |r.rows| == |k.rows|
  {
    var filled := FillColumns(k, CategoricalFillColumns, Unknown);
    FillColumn(FillColumn(filled, Reassignments, Zero), RelatedInteractions, Zero)
  }

  /** The whole step, as a function of the input table. */
  function Clean(t: Table): (r: Table)
    ensures forall c :: c in r.columns <==> c in t.columns && c !in ColumnsToDrop
    ensures IsSubsequence(r.columns, t.columns)
    ensures |r.columns| == Count(t.columns, c => c !in ColumnsToDrop)
  {
    FillAll(Kept(t))
  }

  /** Priority is not one of the dropped columns. */
  lemma PriorityIsKept()
    ensures Priority !in ColumnsToDrop
  {
  }

  /** The row step keeps every row when there is no Priority column, and
      otherwise exactly the rows whose Priority is present. */
  lemma KeptRows(t: Table)
    ensures var r := Kept(t);
      && |r.rows| <= |t.rows|
      && (Priority !in t.columns ==> |r.rows| == |t.rows|)
      && (Priority in t.columns ==>
            |r.rows| == Count(t.rows, HasCell(Priority)) &&
            forall i :: 0 <= i < |r.rows| ==> Cell(r.rows[i], Priority).Some?)
  {
    var dropped := DropColumns(t, DroppedColumns(t.columns));
    var r := Kept(t);
    assert r == DropMissingPriority(dropped);
    PriorityIsKept();
    assert Priority in t.columns <==> Priority in dropped.columns;
    if Priority in t.columns {
      assert r == DropMissing(dropped, Priority);
      forall i | 0 <= i < |t.rows|
        ensures HasCell(Priority)(t.rows[i]) == HasCell(Priority)(dropped.rows[i])
      {
      }
      CountPointwise(t.rows, dropped.rows, HasCell(Priority), HasCell(Priority));
      forall i | 0 <= i < |r.rows|
        ensures Cell(r.rows[i], Priority).Some?
      {
        assert r.rows[i] in r.rows;
      }
    } else {
      assert r == dropped;
    }
  }

  /** Cell by cell, the fills turn every missing cell of a present categorical
      column into "Unknown" and of a present count column into 0, and change
      nothing else. */
  lemma FillAllCells(k: Table)
    ensures var r := FillAll(k);
      && (forall i, c :: 0 <= i < |r.rows| && c in CategoricalFillColumns && c in k.columns ==>
            Cell(r.rows[i], c) == Some(Cell(k.rows[i], c).GetOr(Unknown)))
      && (forall i :: 0 <= i < |r.rows| && Reassignments in k.columns ==>
            Cell(r.rows[i], Reassignments) == Some(Cell(k.rows[i], Reassignments).GetOr(Zero)))
      && (forall i :: 0 <= i < |r.rows| && RelatedInteractions in k.columns ==>
            Cell(r.rows[i], RelatedInteractions) == Some(Cell(k.rows[i], RelatedInteractions).GetOr(Zero)))
      && (forall i, c ::
            0 <= i < |r.rows| && c !in CategoricalFillColumns && c != Reassignments && c != RelatedInteractions ==>
            Cell(r.rows[i], c) == Cell(k.rows[i], c))
  {
    var filled := FillColumns(k, CategoricalFillColumns, Unknown);
    var once := FillColumn(filled, Reassignments, Zero);
    FilledColumnsDistinct();
    FillColumnsCells(k, CategoricalFillColumns, Unknown);
    FillColumnCells(filled, Reassignments, Zero);
    FillColumnCells(once, RelatedInteractions, Zero);
  }

  /** The cleaned table never has more rows than the input; it loses none
      without a Priority column; with one, it keeps exactly as many rows as
      have a Priority, and every row it keeps has one. */
  lemma CleanRows(t: Table)
    ensures var r := Clean(t);
      && |r.rows| <= |t.rows|
      && (Priority !in t.columns ==> |r.rows| == |t.rows|)
      && (Priority in t.columns ==>
            |r.rows| == Count(t.rows, HasCell(Priority)) &&
            forall i :: 0 <= i < |r.rows| ==> Cell(r.rows[i], Priority).Some?)
  {
    KeptRows(t);
    FillAllKeepsPriority(Kept(t));
  }

  /** The fills leave the Priority cells as they are. */
  lemma FillAllKeepsPriority(k: Table)
    ensures var r := FillAll(k);
      forall i :: 0 <= i < |r.rows| ==> Cell(r.rows[i], Priority) == Cell(k.rows[i], Priority)
  {
    FillAllCells(k);
    FilledColumnsDistinct();
  }

  /** After the fills, the five filled columns, where present, have no
      missing cell. */
  lemma FillAllNoMissing(k: Table)
    ensures var r := FillAll(k);
      && (forall i, c :: 0 <= i < |r.rows| && c in CategoricalFillColumns && c in r.columns ==>
            Cell(r.rows[i], c).Some?)
      && (forall i :: 0 <= i < |r.rows| && Reassignments in r.columns ==>
            Cell(r.rows[i], Reassignments).Some?)
      && (forall i :: 0 <= i < |r.rows| && RelatedInteractions in r.columns ==>
            Cell(r.rows[i], RelatedInteractions).Some?)
  {
    FillAllCells(k);
  }

  /** In the cleaned table, the five filled columns, where present, have no
      missing cell. */
  lemma CleanFillsColumns(t: Table)
    ensures var r := Clean(t);
      && (forall i, c :: 0 <= i < |r.rows| && c in CategoricalFillColumns && c in r.columns ==>
            Cell(r.rows[i], c).Some?)
      && (forall i :: 0 <= i < |r.rows| && Reassignments in r.columns ==>
            Cell(r.rows[i], Reassignments).Some?)
      && (forall i :: 0 <= i < |r.rows| && RelatedInteractions in r.columns ==>
            Cell(r.rows[i], RelatedInteractions).Some?)
  {
    FillAllNoMissing(Kept(t));
  }

  /** Priority is not one of the filled columns, and the two count columns
      are distinct and not categorical. */
  lemma FilledColumnsDistinct()
    ensures Priority !in CategoricalFillColumns
    ensures Priority != Reassignments && Priority != RelatedInteractions
    ensures Reassignments !in CategoricalFillColumns && RelatedInteractions !in CategoricalFillColumns
    ensures Reassignments != RelatedInteractions
  {
  }

  /** Two equally long sequences whose elements agree on `p` position by
      position have the same count. */
  lemma {:induction false} CountPointwise<T, U>(a: seq<T>, b: seq<U>, p: T -> bool, q: U -> bool)
    requires |a| == |b|
    requires forall i :: 0 <= i < |a| ==> p(a[i]) == q(b[i])
    ensures Count(a, p) == Count(b, q)
  {
    if a != [] {
      CountPointwise(a[1..], b[1..], p, q);
    }
  }

  /** The step as the source runs it: columns are dropped, rows filtered and
      columns overwritten one after another. */
  method Process(data: Table) returns (r: Table)
    ensures r == Clean(data)
  {
    var droppedColumns := DroppedColumns(data.columns);
    r := DropColumns(data, droppedColumns);
    if Priority in r.columns {
      r := DropMissing(r, Priority);
    }
    assert r == Kept(data);
    r := FillCategoricals(r);
    r := FillColumn(r, Reassignments, Zero);
    r := FillColumn(r, RelatedInteractions, Zero);
  }

  /** The loop over `cat_fill_cols`, one column per round. */
  method FillCategoricals(t: Table) returns (r: Table)
    ensures r == FillColumns(t, CategoricalFillColumns, Unknown)
  {
    r := t;
    for k := 0 to |CategoricalFillColumns|
      invariant r == FillColumns(t, CategoricalFillColumns[..k], Unknown)
    {
      FillColumnsPrefix(t, CategoricalFillColumns, k, Unknown);
      r := FillColumn(r, CategoricalFillColumns[k], Unknown);
    }
    assert CategoricalFillColumns[..|CategoricalFillColumns|] == CategoricalFillColumns;
  }
}

/** What the result table shows (pump.py:440-486, 557, 594-597): the list of display columns built
    up in a fixed order of groups, the projection of the shown rows onto it, and the models of the
    shown rows that have curve data. */
module Display {
  import opened Wrappers
  import opened Seqs
  import opened Table
  import opened Columns
  import opened Config

  /** `cols` extended, in order, by each candidate that `admit` accepts and `cols` does not hold yet. */
  function AppendNew(cols: seq<string>, candidates: seq<string>, admit: string -> bool): (r: seq<string>)
    ensures |cols| <= |r| && r[..|cols|] == cols
    ensures forall c :: c in r <==> c in cols || (c in candidates && admit(c))
    ensures NoDuplicates(cols) ==> NoDuplicates(r)
  {
    if candidates == [] then cols
    else
      var prev := AppendNew(cols, candidates[..|candidates| - 1], admit);
      var c := candidates[|candidates| - 1];
      assert candidates == candidates[..|candidates| - 1] + [c];
      if admit(c) && c !in prev then prev + [c] else prev
  }

  /** The loop shape of pump.py:445-447, 458-470 and 473-475: each candidate in turn is appended when
      it passes the loop's test and is not listed yet. */
  method AppendEach(cols: seq<string>, candidates: seq<string>, admit: string -> bool)
    returns (r: seq<string>)
    ensures r == AppendNew(cols, candidates, admit)
  {
    r := cols;
    for i := 0 to |candidates|
      invariant r == AppendNew(cols, candidates[..i], admit)
    {
      var c := candidates[i];
      assert candidates[..i + 1][..i] == candidates[..i];
      if admit(c) && c !in r {
        r := r + [c];
      }
    }
    assert candidates[..|candidates|] == candidates;
  }

  /** The test of the essential-columns loop: present and not `DB ID`. */
  function PresentExcept(present: seq<string>, excluded: string): string -> bool {
    (c: string) => c in present && c != excluded
  }

  /** The test of the group loops: selected and present. */
  function SelectedPresent(present: seq<string>, selected: seq<string>): string -> bool {
    (c: string) => c in selected && c in present
  }

  /** The columns among `present` that the identification step puts first. */
  function Identification(present: seq<string>): seq<string> {
    if MODEL in present then [MODEL] else if MODEL_NO in present then [MODEL_NO] else []
  }

  /** Steps 1 and 2: identification, then the other essential columns. */
  function EssentialPart(present: seq<string>): seq<string> {
    AppendNew(Identification(present), ESSENTIAL_COLUMNS, PresentExcept(present, DB_ID))
  }

  /** Step 3: `Category` when selected and present, appended without a duplicate test. */
  function WithCategory(cols: seq<string>, present: seq<string>, selected: seq<string>): seq<string> {
    if CATEGORY in selected && CATEGORY in present then cols + [CATEGORY] else cols
  }

  /** Steps 4 to 6: the selected performance, electrical and physical columns in their group order. */
  function GroupPart(cols: seq<string>, present: seq<string>, selected: seq<string>): seq<string> {
    var admit := SelectedPresent(present, selected);
    AppendNew(AppendNew(AppendNew(cols, PERFORMANCE_COLUMNS, admit), ELECTRICAL_COLUMNS, admit), PHYSICAL_COLUMNS, admit)
  }

  /** Step 8: `Product Link` when selected and present, appended without a duplicate test. */
  function WithProductLink(cols: seq<string>, present: seq<string>, selected: seq<string>): seq<string> {
    if PRODUCT_LINK in selected && PRODUCT_LINK in present then cols + [PRODUCT_LINK] else cols
  }

  /** The display columns as pump.py:440-479 assembles them from the columns of the shown rows and
      the selected optional columns. */
  function DisplayColumns(present: seq<string>, selected: seq<string>): seq<string> {
    var grouped := GroupPart(WithCategory(EssentialPart(present), present, selected), present, selected);
    WithProductLink(AppendNew(grouped, selected, PresentExcept(present, PRODUCT_LINK)), present, selected)
  }

  /** pump.py:440-479. */
  method ColumnsToShow(present: seq<string>, selected: seq<string>) returns (cols: seq<string>)
    ensures cols == DisplayColumns(present, selected)
  {
    cols := [];
    if MODEL in present {
      cols := cols + [MODEL];
    } else if MODEL_NO in present {
      cols := cols + [MODEL_NO];
    }
    assert cols == Identification(present);
    cols := AppendEach(cols, ESSENTIAL_COLUMNS, PresentExcept(present, DB_ID));
    ghost var essential := cols;
    if CATEGORY in selected && CATEGORY in present {
      cols := cols + [CATEGORY];
    }
    assert cols == WithCategory(essential, present, selected);
    var admit := SelectedPresent(present, selected);
    cols := AppendEach(cols, PERFORMANCE_COLUMNS, admit);
    cols := AppendEach(cols, ELECTRICAL_COLUMNS, admit);
    cols := AppendEach(cols, PHYSICAL_COLUMNS, admit);
    cols := AppendEach(cols, selected, PresentExcept(present, PRODUCT_LINK));
    ghost var others := cols;
    if PRODUCT_LINK in selected && PRODUCT_LINK in present {
      cols := cols + [PRODUCT_LINK];
    }
    assert cols == WithProductLink(others, present, selected);
  }

  lemma AppendNewFirst(cols: seq<string>, candidates: seq<string>, admit: string -> bool)
    requires cols != []
    ensures AppendNew(cols, candidates, admit)[0] == cols[0]
  {
    var r := AppendNew(cols, candidates, admit);
    assert r[..|cols|][0] == r[0];
  }

  /** The essential part lists exactly the present essential columns, without repeats. */
  lemma EssentialPartSpec(present: seq<string>)
    ensures NoDuplicates(EssentialPart(present))
    ensures forall c :: c in EssentialPart(present) <==> c in present && c in ESSENTIAL_COLUMNS
  {
  }

  /** The display list before `Product Link`: the groups and then the other selected columns. */
  function Others(present: seq<string>, selected: seq<string>): seq<string> {
    var grouped := GroupPart(WithCategory(EssentialPart(present), present, selected), present, selected);
    AppendNew(grouped, selected, PresentExcept(present, PRODUCT_LINK))
  }

  lemma DisplayColumnsAreOthers(present: seq<string>, selected: seq<string>)
    ensures DisplayColumns(present, selected) == WithProductLink(Others(present, selected), present, selected)
  {
  }

  /** An appended column not listed before keeps the list free of repeats. */
  lemma AppendFresh(cols: seq<string>, c: string)
    requires NoDuplicates(cols) && c !in cols
    ensures NoDuplicates(cols + [c])
  {
    var r := cols + [c];
    forall i, j | 0 <= i < j < |r| ensures r[i] != r[j] {
      assert r[i] == cols[i];
      if j < |cols| {
        assert r[j] == cols[j];
      }
    }
  }

  /** `Category` and `Product Link` belong to none of the groups they are kept apart from, and
      `DB ID` is not essential. */
  lemma SeparateColumns()
    ensures CATEGORY !in ESSENTIAL_COLUMNS && DB_ID !in ESSENTIAL_COLUMNS
    ensures PRODUCT_LINK !in ESSENTIAL_COLUMNS && PRODUCT_LINK !in PERFORMANCE_COLUMNS
    ensures PRODUCT_LINK !in ELECTRICAL_COLUMNS && PRODUCT_LINK !in PHYSICAL_COLUMNS
  {
    assert PRODUCT_LINK[0] == 'P' && PERFORMANCE_COLUMNS[1][0] == 'H' && PERFORMANCE_COLUMNS[3][0] == 'M';
    assert DB_ID[0] == 'D' && MODEL[0] == 'M';
  }

  /** Every column the groups and the other selected columns contribute is present and selected. */
  lemma OthersMembers(present: seq<string>, selected: seq<string>)
    ensures forall c :: c in Others(present, selected) <==>
      c in present && (c in ESSENTIAL_COLUMNS || (c in selected && c != PRODUCT_LINK))
  {
    SeparateColumns();
    var admit := SelectedPresent(present, selected);
    var e := EssentialPart(present);
    EssentialPartSpec(present);
    var w := WithCategory(e, present, selected);
    assert forall c :: c in w ==> c in present && (c in ESSENTIAL_COLUMNS || (c in selected && c != PRODUCT_LINK));
    var g1 := AppendNew(w, PERFORMANCE_COLUMNS, admit);
    var g2 := AppendNew(g1, ELECTRICAL_COLUMNS, admit);
    var g3 := AppendNew(g2, PHYSICAL_COLUMNS, admit);
    assert forall c :: c in g3 ==> c in present && (c in ESSENTIAL_COLUMNS || (c in selected && c != PRODUCT_LINK));
    assert forall c :: c in e ==> c in g3;
    assert Others(present, selected) == AppendNew(g3, selected, PresentExcept(present, PRODUCT_LINK));
  }

  /** The columns the result table shows are exactly the present columns that are essential or
      selected. */
  lemma DisplayColumnsMembers(present: seq<string>, selected: seq<string>)
    ensures forall c :: c in DisplayColumns(present, selected) <==>
      c in present && (c in ESSENTIAL_COLUMNS || c in selected)
  {
    OthersMembers(present, selected);
    DisplayColumnsAreOthers(present, selected);
  }

  /** No column is shown twice. */
  lemma DisplayColumnsDistinct(present: seq<string>, selected: seq<string>)
    ensures NoDuplicates(DisplayColumns(present, selected))
  {
    SeparateColumns();
    var essential := EssentialPart(present);
    EssentialPartSpec(present);
    if CATEGORY in selected && CATEGORY in present {
      AppendFresh(essential, CATEGORY);
    }
    var others := Others(present, selected);
    OthersMembers(present, selected);
    DisplayColumnsAreOthers(present, selected);
    if PRODUCT_LINK in selected && PRODUCT_LINK in present {
      AppendFresh(others, PRODUCT_LINK);
    }
  }

  /** `Model`, failing that `Model No.`, is the first column shown. */
  lemma DisplayColumnsFirst(present: seq<string>, selected: seq<string>)
    requires MODEL in present || MODEL_NO in present
    ensures DisplayColumns(present, selected)[0] == if MODEL in present then MODEL else MODEL_NO
  {
    var ident := Identification(present);
    var essential := EssentialPart(present);
    AppendNewFirst(ident, ESSENTIAL_COLUMNS, PresentExcept(present, DB_ID));
    var withCategory := WithCategory(essential, present, selected);
    assert withCategory[0] == essential[0];
    var admit := SelectedPresent(present, selected);
    var g1 := AppendNew(withCategory, PERFORMANCE_COLUMNS, admit);
    var g2 := AppendNew(g1, ELECTRICAL_COLUMNS, admit);
    var grouped := AppendNew(g2, PHYSICAL_COLUMNS, admit);
    AppendNewFirst(withCategory, PERFORMANCE_COLUMNS, admit);
    AppendNewFirst(g1, ELECTRICAL_COLUMNS, admit);
    AppendNewFirst(g2, PHYSICAL_COLUMNS, admit);
    AppendNewFirst(grouped, selected, PresentExcept(present, PRODUCT_LINK));
    var others := Others(present, selected);
    assert others[0] == ident[0];
    DisplayColumnsAreOthers(present, selected);
    var cols := WithProductLink(others, present, selected);
    assert cols[0] == others[0];
  }

  /** `Product Link`, when shown, is the last column. */
  lemma DisplayColumnsLast(present: seq<string>, selected: seq<string>)
    ensures var cols := DisplayColumns(present, selected);
      PRODUCT_LINK in cols ==> cols[|cols| - 1] == PRODUCT_LINK
  {
    var others := Others(present, selected);
    DisplayColumnsAreOthers(present, selected);
    if !(PRODUCT_LINK in selected && PRODUCT_LINK in present) {
      assert PRODUCT_LINK !in others by {
        SeparateColumns();
        OthersMembers(present, selected);
      }
    }
  }

  /** The optional columns offered for selection (pump.py:187-190): every catalogue column except
      `DB ID` and the essential ones. */
  function OptionalColumns(catalogueColumns: seq<string>): (r: seq<string>)
    ensures forall c :: c in r <==> c in catalogueColumns && c != DB_ID && c !in ESSENTIAL_COLUMNS
  {
    Keep(catalogueColumns, (c: string) => c != DB_ID && c !in ESSENTIAL_COLUMNS)
  }

  /** A selection drawn from the offered optional columns never brings `DB ID` into the table. */
  lemma DatabaseIdHidden(present: seq<string>, catalogueColumns: seq<string>, selected: seq<string>)
    requires forall c :: c in selected ==> c in OptionalColumns(catalogueColumns)
    ensures DB_ID !in DisplayColumns(present, selected)
  {
    SeparateColumns();
    assert DB_ID !in selected;
    DisplayColumnsMembers(present, selected);
  }

  /** `displayed_results[columns_to_show]`: the shown rows cut down to the display columns, or
      `None` when the list is empty and only a warning is shown (pump.py:481-486). */
  function Project(shown: Frame, cols: seq<string>): (r: Option<Frame>)
    ensures cols == [] <==> r.None?
    ensures r.Some? ==> r.value.columns == cols && |r.value.rows| == |shown.rows|
    ensures r.Some? ==> forall i, c :: 0 <= i < |shown.rows| && c in cols ==> Get(r.value.rows[i], c) == Get(shown.rows[i], c)
    ensures r.Some? ==> forall i, c :: 0 <= i < |shown.rows| && c !in cols ==> c !in r.value.rows[i]
  {
    if cols == [] then None
    else Some(Frame(cols, MapRows(shown.rows, cols)))
  }

  function Restrict(r: Row, cols: seq<string>): Row {
    map c | c in r && c in cols :: r[c]
  }

  function MapRows(rows: seq<Row>, cols: seq<string>): (r: seq<Row>)
    ensures |r| == |rows|
    ensures forall i :: 0 <= i < |rows| ==> r[i] == Restrict(rows[i], cols)
  {
    if rows == [] then [] else [Restrict(rows[0], cols)] + MapRows(rows[1..], cols)
  }

  /** The cells of column `col`, row by row. */
  function ColumnCells(rows: seq<Row>, col: string): (r: seq<Cell>)
    ensures |r| == |rows|
    ensures forall i :: 0 <= i < |rows| ==> r[i] == Get(rows[i], col)
  {
    if rows == [] then [] else [Get(rows[0], col)] + ColumnCells(rows[1..], col)
  }

  /** Some row holds `m` in column `col`. */
  predicate InColumn(rows: seq<Row>, col: string, m: Cell) {
    exists i :: 0 <= i < |rows| && Get(rows[i], col) == m
  }

  lemma ColumnCellsMembers(rows: seq<Row>, col: string)
    ensures forall m :: m in ColumnCells(rows, col) <==> InColumn(rows, col, m)
  {
    var cells := ColumnCells(rows, col);
    forall m | m in cells ensures exists i :: 0 <= i < |rows| && Get(rows[i], col) == m {
      var i :| 0 <= i < |cells| && cells[i] == m;
    }
  }

  /** The column the table identifies pumps by (pump.py:557). */
  function ModelColumn(columns: seq<string>): string {
    if MODEL in columns then MODEL else MODEL_NO
  }

  function NotMissing(): Cell -> bool {
    (c: Cell) => c != Null
  }

  /** `series.dropna().unique()`: the non-missing values, each once, in first-occurrence order. */
  function DistinctValues(cells: seq<Cell>): (r: seq<Cell>)
    ensures NoDuplicates(r)
    ensures forall c :: c in r <==> c in cells && c != Null
    ensures ByFirstOccurrence(r, cells)
  {
    var d := Unique(cells);
    KeepNoDuplicates(d, NotMissing());
    UniqueOrder(cells);
    KeepByFirstOccurrence(d, NotMissing(), cells);
    Keep(d, NotMissing())
  }

  /** pump.py:594-597: the models of the displayed rows that also have rows in the curve table, in
      the order they first appear; `None` when the displayed table has no model column. */
  function ModelsWithCurves(displayed: Frame, curves: Frame): (r: Option<seq<Cell>>)
    requires MODEL_NO in curves.columns
    ensures r.None? <==> ModelColumn(displayed.columns) !in displayed.columns
    ensures r.Some? ==> NoDuplicates(r.value)
    ensures r.Some? ==> forall m :: m in r.value <==>
      m != Null && InColumn(displayed.rows, ModelColumn(displayed.columns), m) && InColumn(curves.rows, MODEL_NO, m)
    ensures r.Some? ==> ByFirstOccurrence(r.value, ColumnCells(displayed.rows, ModelColumn(displayed.columns)))
  {
    var col := ModelColumn(displayed.columns);
    if col !in displayed.columns then None
    else
      var available := DistinctValues(ColumnCells(displayed.rows, col));
      var curveModels := DistinctValues(ColumnCells(curves.rows, MODEL_NO));
      ColumnCellsMembers(displayed.rows, col);
      ColumnCellsMembers(curves.rows, MODEL_NO);
      KeepNoDuplicates(available, InCells(curveModels));
      KeepByFirstOccurrence(available, InCells(curveModels), ColumnCells(displayed.rows, col));
      IntersectMembers(available, curveModels);
      Some(Keep(available, InCells(curveModels)))
  }

  lemma IntersectMembers(available: seq<Cell>, others: seq<Cell>)
    ensures forall m :: m in Keep(available, InCells(others)) <==> m in available && m != Null && m in others
  {
  }

  /** Membership in an array of model numbers, as numpy's `in` tests it: a missing value equals
      nothing. */
  function InCells(cells: seq<Cell>): Cell -> bool {
    (m: Cell) => m != Null && m in cells
  }

  /** pump.py:633-636: the selected models that have rows in the curve table, in selection order. */
  method AvailableCurveModels(selected: seq<Cell>, curves: Frame) returns (available: seq<Cell>)
    requires MODEL_NO in curves.columns
    ensures available == Keep(selected, InCells(ColumnCells(curves.rows, MODEL_NO)))
  {
    var values := ColumnCells(curves.rows, MODEL_NO);
    available := [];
    for i := 0 to |selected|
      invariant available == Keep(selected[..i], InCells(values))
    {
      var model := selected[i];
      KeepSnoc(selected[..i], model, InCells(values));
      assert selected[..i + 1] == selected[..i] + [model];
      if model != Null && model in values {
        available := available + [model];
      }
    }
    assert selected[..|selected|] == selected;
  }

  /** The selected models the charts are drawn for: each has curve rows, and every selected model
      with curve rows is among them. */
  lemma AvailableCurveModelsSpec(selected: seq<Cell>, curves: Frame)
    ensures forall m :: m in Keep(selected, InCells(ColumnCells(curves.rows, MODEL_NO))) <==>
      m in selected && m != Null && InColumn(curves.rows, MODEL_NO, m)
  {
    ColumnCellsMembers(curves.rows, MODEL_NO);
    IntersectMembers(selected, ColumnCells(curves.rows, MODEL_NO));
  }
}

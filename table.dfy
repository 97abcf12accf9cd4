/** A pandas dataframe as values: named columns and rows mapping column names to cells. */
module Table {
  import opened Wrappers
  import opened Strings
  import opened Sorting

  /** One cell: a number, a string, or a missing value (NaN or None). */
  datatype Cell = Num(x: real) | Text(s: string) | Null

  /** One row of a table, by column name. */
  type Row = map<string, Cell>

  /** A table: its column names in order and its rows in order. */
  datatype Frame = Frame(columns: seq<string>, rows: seq<Row>)

  /** A string-to-number conversion that may fail: Python's `float()` on a string, or what pandas'
      `to_numeric` makes of one. Their exact grammars are not part of this model. */
  type Parser = string -> Option<real>

  /** The cell of `r` in column `c`; a cell the row does not hold reads as missing. */
  function Get(r: Row, c: string): Cell {
    if c in r then r[c] else Null
  }

  /** `pd.to_numeric(cell, errors="coerce")`: a number, or `None` for NaN. */
  function ToNumeric(c: Cell, parse: Parser): (r: Option<real>)
    ensures c.Num? ==> r == Some(c.x)
    ensures c.Null? ==> r == None
  {
    match c
    case Num(x) => Some(x)
    case Text(s) => parse(s)
    case Null => None
  }

  /** The coerced cell written back into a column: `to_numeric(...)`, then `.fillna(0)` when `fillZero`. */
  function Coerce(c: Cell, parse: Parser, fillZero: bool): (r: Cell)
    ensures r.Num? || r.Null?
    ensures fillZero ==> r.Num?
    ensures ToNumeric(c, parse).Some? ==> r == Num(ToNumeric(c, parse).value)
  {
    match ToNumeric(c, parse)
    case Some(x) => Num(x)
    case None => if fillZero then Num(0.0) else Null
  }

  /** Coercing an already coerced cell changes nothing. */
  lemma CoerceIdempotent(c: Cell, parse: Parser, fillZero: bool)
    ensures Coerce(Coerce(c, parse, fillZero), parse, fillZero) == Coerce(c, parse, fillZero)
  {
  }

  /** The numeric value of a cell after `to_numeric(...).fillna(0)`. */
  function NumberOrZero(c: Cell, parse: Parser): real {
    ToNumeric(c, parse).GetOr(0.0)
  }

  /** The order pandas' `sort_values` puts a column in: numbers ascending, strings by code point,
      missing values last. */
  predicate CellLe(a: Cell, b: Cell) {
    match (a, b)
    case (Null, _) => b.Null?
    case (_, Null) => true
    case (Num(x), Num(y)) => x <= y
    case (Num(_), Text(_)) => true
    case (Text(_), Num(_)) => false
    case (Text(s), Text(t)) => StrLe(s, t)
  }

  lemma CellLeTotalPreorder()
    ensures TotalPreorder(CellLe)
  {
    forall a, b ensures CellLe(a, b) || CellLe(b, a) {
      if a.Text? && b.Text? {
        StrLeTotal(a.s, b.s);
      }
    }
    forall a, b, c | CellLe(a, b) && CellLe(b, c) ensures CellLe(a, c) {
      if a.Text? && b.Text? && c.Text? {
        StrLeTransitive(a.s, b.s, c.s);
      }
    }
  }

  /** The order of rows by the cells of column `col`. */
  function ColumnLe(col: string): (Row, Row) -> bool {
    (a: Row, b: Row) => CellLe(Get(a, col), Get(b, col))
  }

  lemma ColumnLeTotalPreorder(col: string)
    ensures TotalPreorder(ColumnLe(col))
  {
    CellLeTotalPreorder();
    var le := ColumnLe(col);
    forall a, b ensures le(a, b) || le(b, a) {
      assert CellLe(Get(a, col), Get(b, col)) || CellLe(Get(b, col), Get(a, col));
    }
    forall a, b, c | le(a, b) && le(b, c) ensures le(a, c) {
      assert CellLe(Get(a, col), Get(b, col)) && CellLe(Get(b, col), Get(c, col));
    }
  }

  /** The row's cell in column `col` replaced by `v`; every other cell is kept. */
  function SetCell(r: Row, col: string, v: Cell): (r': Row)
    ensures Get(r', col) == v
    ensures forall c :: c != col ==> Get(r', c) == Get(r, c)
  {
    r[col := v]
  }

  /** The row update of `df[col] = f(df[col])`. */
  function ColumnUpdate(col: string, f: Cell -> Cell): Row -> Row {
    (row: Row) => SetCell(row, col, f(Get(row, col)))
  }

  /** The cell update of `pd.to_numeric(..., errors="coerce")`, followed by `.fillna(0)` when `fillZero`. */
  function Coercion(parse: Parser, fillZero: bool): Cell -> Cell {
    (c: Cell) => Coerce(c, parse, fillZero)
  }
}

/** A dataframe whose columns are overwritten in place, as `df[col] = ...` does. */
module Frames {
  import opened Table
  import opened Seqs

  /** Every row's cell in `col` replaced by `f` of its old value. */
  function MapColumn(rows: seq<Row>, col: string, f: Cell -> Cell): (r: seq<Row>)
    ensures |r| == |rows|
    ensures forall i :: 0 <= i < |rows| ==> r[i] == SetCell(rows[i], col, f(Get(rows[i], col)))
    ensures forall i :: 0 <= i < |rows| ==> Get(r[i], col) == f(Get(rows[i], col))
    ensures forall i, c :: 0 <= i < |rows| && c != col ==> Get(r[i], c) == Get(rows[i], c)
  {
    MapSeq(rows, ColumnUpdate(col, f))
  }

  class DataFrame {
    var columns: seq<string>
    var rows: seq<Row>

    constructor (f: Frame)
      ensures columns == f.columns && rows == f.rows
    {
      columns := f.columns;
      rows := f.rows;
    }

    /** `df.copy()`: the current contents as a value. */
    function Snapshot(): (f: Frame)
      reads this
      ensures f.columns == columns && f.rows == rows
    {
      Frame(columns, rows)
    }

    /** `df[col] = f(df[col])` for a column the frame has. */
    method OverwriteColumn(col: string, f: Cell -> Cell)
      requires col in columns
      modifies this
      ensures columns == old(columns)
      ensures rows == MapColumn(old(rows), col, f)
    {
      rows := MapColumn(rows, col, f);
    }
  }
}

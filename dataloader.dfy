/** The checks the loaded tables pass before the search uses them (data_loader.py:101-140): the
    required columns must be present, and the catalogue's two rated columns are coerced to
    numbers in place. */
module Validation {
  import opened Wrappers
  import opened Strings
  import opened Seqs
  import opened Table
  import opened Frames
  import opened Columns
  import Ranking

  /** The columns the pump catalogue must have, in the order a missing one is reported. */
  const PUMP_REQUIRED: seq<string> := [MODEL, Q_RATED, HEAD_RATED]

  /** The columns the curve table must have. */
  const CURVE_REQUIRED: seq<string> := [MODEL_NO]

  const MISSING_PREFIX: string := "Missing required columns: "

  /** The outcome `(is_valid, error_message)`. */
  datatype Verdict = Verdict(valid: bool, message: Option<string>)

  function Absent(columns: seq<string>): string -> bool {
    (c: string) => c !in columns
  }

  /** The required columns the table lacks, in the order they are required. */
  function MissingColumns(required: seq<string>, columns: seq<string>): (missing: seq<string>)
    ensures forall c :: c in missing <==> c in required && c !in columns
    ensures missing == [] <==> forall c :: c in required ==> c in columns
  {
    var missing := Keep(required, Absent(columns));
    assert missing != [] ==> missing[0] in missing;
    missing
  }

  /** The verdict on a table with these columns: invalid with the list of missing columns, or
      valid with no message. */
  function Judge(required: seq<string>, columns: seq<string>): (v: Verdict)
    ensures v.valid <==> forall c :: c in required ==> c in columns
    ensures v.valid <==> v.message.None?
  {
    var missing := MissingColumns(required, columns);
    if missing != [] then Verdict(false, Some(MISSING_PREFIX + Join(missing, ", ")))
    else Verdict(true, None)
  }

  /** A missing-columns message names exactly the missing columns, in the required order,
      separated by a comma and a space. */
  lemma JudgeMessage(required: seq<string>, columns: seq<string>)
    ensures var v := Judge(required, columns);
      !v.valid ==> v.message == Some(MISSING_PREFIX + Join(MissingColumns(required, columns), ", "))
  {
  }

  /** The missing pump columns are listed as `Model`, `Q Rated/LPM`, `Head Rated/M` are. */
  lemma {:induction false} PumpMissingInOrder(columns: seq<string>)
    ensures MissingColumns(PUMP_REQUIRED, columns) ==
      (if MODEL in columns then [] else [MODEL])
      + ((if Q_RATED in columns then [] else [Q_RATED])
      + (if HEAD_RATED in columns then [] else [HEAD_RATED]))
  {
    KeepThree(MODEL, Q_RATED, HEAD_RATED, Absent(columns));
  }

  /** The catalogue after a successful validation: both rated columns coerced, unparseable cells
      becoming missing (the source does not fill them with zero here). */
  function CoercedRated(rows: seq<Row>, parse: Parser): (r: seq<Row>)
    ensures |r| == |rows|
  {
    MapColumn(MapColumn(rows, Q_RATED, Coercion(parse, false)), HEAD_RATED, Coercion(parse, false))
  }

  /** `validate_pump_data` on a table as values: the verdict and the table it leaves behind. */
  function PumpValidation(f: Frame, parse: Parser): (Verdict, Frame) {
    var v := Judge(PUMP_REQUIRED, f.columns);
    if v.valid then (v, Frame(f.columns, CoercedRated(f.rows, parse))) else (v, f)
  }

  /** The validation keeps the row count and the column list, changes no cell outside the two
      rated columns and leaves each rated cell a number or missing, as `to_numeric` makes it; an
      invalid table is left as it was. */
  lemma PumpValidationEffect(f: Frame, parse: Parser)
    ensures var (v, g) := PumpValidation(f, parse);
      && g.columns == f.columns && |g.rows| == |f.rows|
      && (!v.valid ==> g == f)
      && (v.valid ==> forall i, c :: 0 <= i < |f.rows| && c != Q_RATED && c != HEAD_RATED ==> Get(g.rows[i], c) == Get(f.rows[i], c))
      && (v.valid ==> forall i :: 0 <= i < |f.rows| ==>
            Get(g.rows[i], Q_RATED) == Coerce(Get(f.rows[i], Q_RATED), parse, false)
            && Get(g.rows[i], HEAD_RATED) == Coerce(Get(f.rows[i], HEAD_RATED), parse, false))
  {
    var once := MapColumn(f.rows, Q_RATED, Coercion(parse, false));
    var twice := MapColumn(once, HEAD_RATED, Coercion(parse, false));
    assert Q_RATED != HEAD_RATED;
    assert forall i :: 0 <= i < |f.rows| ==> Get(twice[i], Q_RATED) == Get(once[i], Q_RATED);
  }

  /** An update that leaves every cell of a column as it is leaves the rows as they are. */
  lemma MapColumnFixed(rows: seq<Row>, col: string, f: Cell -> Cell)
    requires forall i :: 0 <= i < |rows| ==> col in rows[i] && f(rows[i][col]) == rows[i][col]
    ensures MapColumn(rows, col, f) == rows
  {
    var r := MapColumn(rows, col, f);
    forall i | 0 <= i < |rows| ensures r[i] == rows[i] {
      assert r[i] == rows[i][col := f(rows[i][col])];
    }
  }

  /** A catalogue that passed is valid again on a second pass and is left as the first left it. */
  lemma {:induction false} PumpValidationIdempotent(f: Frame, parse: Parser)
    ensures var (v, g) := PumpValidation(f, parse);
      v.valid ==> PumpValidation(g, parse) == (v, g)
  {
    var (v, g) := PumpValidation(f, parse);
    if v.valid {
      PumpValidationEffect(f, parse);
      forall i | 0 <= i < |g.rows|
        ensures Q_RATED in g.rows[i] && Coerce(g.rows[i][Q_RATED], parse, false) == g.rows[i][Q_RATED]
        ensures HEAD_RATED in g.rows[i] && Coerce(g.rows[i][HEAD_RATED], parse, false) == g.rows[i][HEAD_RATED]
      {
        CoerceIdempotent(Get(f.rows[i], Q_RATED), parse, false);
        CoerceIdempotent(Get(f.rows[i], HEAD_RATED), parse, false);
      }
      MapColumnFixed(g.rows, Q_RATED, Coercion(parse, false));
      MapColumnFixed(g.rows, HEAD_RATED, Coercion(parse, false));
    }
  }

  /** Since `Model` is required, a validated catalogue always has a column to sort the results by. */
  lemma ValidatedHasSortColumn(f: Frame, parse: Parser)
    requires PumpValidation(f, parse).0.valid
    ensures Ranking.SortColumn(PumpValidation(f, parse).1.columns).Some?
  {
    assert MODEL in PUMP_REQUIRED;
    Ranking.SortColumnCases(f.columns);
  }

  /** data_loader.py:101-123: reports the missing required columns or coerces the two rated
      columns of the catalogue in place. */
  method ValidatePumpData(df: DataFrame, parse: Parser) returns (valid: bool, message: Option<string>)
    modifies df
    ensures (Verdict(valid, message), df.Snapshot()) == PumpValidation(old(df.Snapshot()), parse)
  {
    var missing := MissingColumns(PUMP_REQUIRED, df.columns);
    if missing != [] {
      return false, Some(MISSING_PREFIX + Join(missing, ", "));
    }
    df.OverwriteColumn(Q_RATED, Coercion(parse, false));
    df.OverwriteColumn(HEAD_RATED, Coercion(parse, false));
    return true, None;
  }

  /** data_loader.py:125-140: the curve table is valid iff it has `Model No.`; it is not changed. */
  function CurveValidation(f: Frame): (v: Verdict)
    ensures v.valid <==> MODEL_NO in f.columns
    ensures !v.valid ==> v.message == Some(MISSING_PREFIX + MODEL_NO)
  {
    Judge(CURVE_REQUIRED, f.columns)
  }
}

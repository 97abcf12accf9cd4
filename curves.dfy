/** The series data behind the pump curve charts (visualization.py): the head curve read off the
    head columns of a pump's curve row, up to three pressure points, the operating-point marker,
    and the per-model series of the comparison chart. Figures and their layout are not modelled;
    each chart is the data it would plot. */
module Curves {
  import opened Wrappers
  import opened Strings
  import opened Sorting
  import opened Seqs
  import opened Table
  import opened Columns
  import opened Config

  /** A plotted point, `(flow, head)`. */
  type Point = (real, real)

  const MAX_HEAD: string := "Max Head(M)"
  const PRESSURE_UNIT: string := "Kg/cm²"
  /** Only this many pressure columns are examined. */
  const MAX_PRESSURE_CURVES: nat := 3
  /** Metres of head per kg/cm² used for the pressure points. */
  const METRES_PER_KG_CM2: real := 10.0

  /** A column holding flows at a fixed head, named by that head: it ends in `M` and is not the
      maximum-head column. */
  predicate IsHeadColumn(col: string) {
    EndsWith(col, "M") && col != MAX_HEAD
  }

  function HeadColumnTest(): string -> bool {
    (col: string) => IsHeadColumn(col)
  }

  function HeadColumns(columns: seq<string>): (r: seq<string>)
    ensures forall c :: c in r <==> c in columns && IsHeadColumn(c)
  {
    Keep(columns, HeadColumnTest())
  }

  function PressureColumnTest(): string -> bool {
    (col: string) => Contains(col, PRESSURE_UNIT)
  }

  /** The columns examined for pressure points: the first three whose name contains `Kg/cm²`. */
  function PressureColumns(columns: seq<string>): (r: seq<string>)
    ensures |r| <= MAX_PRESSURE_CURVES
  {
    var all := Keep(columns, PressureColumnTest());
    if |all| <= MAX_PRESSURE_CURVES then all else all[..MAX_PRESSURE_CURVES]
  }

  /** The examined columns are columns of the table whose name contains `Kg/cm²`, the first three
      of them in table order. */
  lemma PressureColumnsSpec(columns: seq<string>)
    ensures forall c :: c in PressureColumns(columns) ==> c in columns && Contains(c, PRESSURE_UNIT)
    ensures PressureColumns(columns) == Keep(columns, PressureColumnTest())[..|PressureColumns(columns)|]
    ensures var all := Keep(columns, PressureColumnTest());
      |PressureColumns(columns)| == if |all| <= MAX_PRESSURE_CURVES then |all| else MAX_PRESSURE_CURVES
  {
    var all := Keep(columns, PressureColumnTest());
    assert forall c :: c in all[..|PressureColumns(columns)|] ==> c in all;
  }

  /** The flow a curve row holds in `col`, when it reads as a positive number. */
  function PositiveFlow(row: Row, col: string, parse: Parser): Option<real> {
    match ToNumeric(Get(row, col), parse)
    case Some(f) => if f > 0.0 then Some(f) else None
    case None => None
  }

  /** What head column `col` gives for a pump row: its positive flow with the head its name stands
      for once the `M`s are removed, or nothing when either is missing (`floatOf` is Python's
      `float()`, whose failure the source catches and skips). */
  function HeadSample(row: Row, col: string, parse: Parser, floatOf: Parser): Option<Point> {
    match floatOf(RemoveChar(col, 'M'))
    case None => None
    case Some(h) =>
      match PositiveFlow(row, col, parse)
      case None => None
      case Some(f) => Some((f, h))
  }

  /** The samples of the head columns `cols` in column order. */
  function Samples(row: Row, cols: seq<string>, parse: Parser, floatOf: Parser): (r: seq<Point>)
    ensures |r| <= |cols|
  {
    if cols == [] then []
    else
      var c := cols[|cols| - 1];
      var front := cols[..|cols| - 1];
      assert cols == front + [c];
      var prev := Samples(row, front, parse, floatOf);
      match HeadSample(row, c, parse, floatOf)
      case None => prev
      case Some(p) => prev + [p]
  }

  /** Each sample is what some head column gives, every column's sample is there, and every flow
      is positive. */
  lemma {:induction false} SamplesMembers(row: Row, cols: seq<string>, parse: Parser, floatOf: Parser)
    ensures forall p :: p in Samples(row, cols, parse, floatOf) ==> p.0 > 0.0
    ensures forall p :: p in Samples(row, cols, parse, floatOf) <==>
      exists c :: c in cols && HeadSample(row, c, parse, floatOf) == Some(p)
  {
    if cols != [] {
      var c := cols[|cols| - 1];
      var front := cols[..|cols| - 1];
      assert cols == front + [c];
      SamplesMembers(row, front, parse, floatOf);
    }
  }

  function Zip(flows: seq<real>, heads: seq<real>): (r: seq<Point>)
    requires |flows| == |heads|
    ensures |r| == |flows|
  {
    if flows == [] then [] else Zip(flows[..|flows| - 1], heads[..|heads| - 1]) + [(flows[|flows| - 1], heads[|heads| - 1])]
  }

  /** `zip(flows, heads)` pairs the two lists position by position. */
  lemma {:induction false} ZipAt(flows: seq<real>, heads: seq<real>)
    requires |flows| == |heads|
    ensures forall i :: 0 <= i < |flows| ==> Zip(flows, heads)[i] == (flows[i], heads[i])
  {
    if flows != [] {
      ZipAt(flows[..|flows| - 1], heads[..|heads| - 1]);
    }
  }

  lemma ZipSnoc(flows: seq<real>, heads: seq<real>, f: real, h: real)
    requires |flows| == |heads|
    ensures Zip(flows + [f], heads + [h]) == Zip(flows, heads) + [(f, h)]
  {
    assert (flows + [f])[..|flows|] == flows && (heads + [h])[..|heads|] == heads;
  }

  /** One more column adds its sample, if it gives one. */
  lemma SamplesStep(row: Row, cols: seq<string>, i: nat, parse: Parser, floatOf: Parser)
    requires i < |cols|
    ensures Samples(row, cols[..i + 1], parse, floatOf) == Samples(row, cols[..i], parse, floatOf)
      + (match HeadSample(row, cols[i], parse, floatOf) case None => [] case Some(p) => [p])
  {
    assert cols[..i + 1][..i] == cols[..i];
  }

  /** visualization.py:47-59 (and 155-167): the flows and heads lists filled column by column. */
  method CollectSamples(row: Row, cols: seq<string>, parse: Parser, floatOf: Parser)
    returns (flows: seq<real>, heads: seq<real>)
    ensures |flows| == |heads|
    ensures Zip(flows, heads) == Samples(row, cols, parse, floatOf)
  {
    flows, heads := [], [];
    for i := 0 to |cols|
      invariant |flows| == |heads|
      invariant Zip(flows, heads) == Samples(row, cols[..i], parse, floatOf)
    {
      var col := cols[i];
      ghost var before := Samples(row, cols[..i], parse, floatOf);
      SamplesStep(row, cols, i, parse, floatOf);
      var headValue := floatOf(RemoveChar(col, 'M'));
      if headValue.Some? {
        var flowValue := ToNumeric(Get(row, col), parse);
        if flowValue.Some? && flowValue.value > 0.0 {
          assert HeadSample(row, col, parse, floatOf) == Some((flowValue.value, headValue.value));
          assert Samples(row, cols[..i + 1], parse, floatOf) == before + [(flowValue.value, headValue.value)];
          ZipSnoc(flows, heads, flowValue.value, headValue.value);
          flows := flows + [flowValue.value];
          heads := heads + [headValue.value];
        } else {
          assert HeadSample(row, col, parse, floatOf).None?;
        }
      } else {
        assert HeadSample(row, col, parse, floatOf).None?;
      }
    }
    assert cols[..|cols|] == cols;
  }

  /** Python's tuple order on points: by flow, then by head. */
  function PointLe(): (Point, Point) -> bool {
    (a: Point, b: Point) => a.0 < b.0 || (a.0 == b.0 && a.1 <= b.1)
  }

  lemma PointLeTotalOrder()
    ensures TotalPreorder(PointLe())
    ensures forall a, b :: PointLe()(a, b) && PointLe()(b, a) ==> a == b
  {
  }

  /** `sorted(zip(flows, heads))`. */
  function HeadCurve(row: Row, cols: seq<string>, parse: Parser, floatOf: Parser): seq<Point> {
    Sort(Samples(row, cols, parse, floatOf), PointLe())
  }

  /** The head curve is the samples in ascending tuple order, and no other arrangement of them is. */
  lemma HeadCurveSpec(row: Row, cols: seq<string>, parse: Parser, floatOf: Parser)
    ensures var curve := HeadCurve(row, cols, parse, floatOf);
      && Sorted(curve, PointLe())
      && multiset(curve) == multiset(Samples(row, cols, parse, floatOf))
      && forall other: seq<Point> :: Sorted(other, PointLe()) && multiset(other) == multiset(curve) ==> other == curve
  {
    PointLeTotalOrder();
    var curve := HeadCurve(row, cols, parse, floatOf);
    SortSorted(Samples(row, cols, parse, floatOf), PointLe());
    forall other: seq<Point> | Sorted(other, PointLe()) && multiset(other) == multiset(curve) ensures other == curve {
      SortedUnique(other, curve, PointLe());
    }
  }

  /** The pressure point column `col` gives: `(flow, pressure * 10)`, the pressure being the number
      before `Kg/cm²` in its name. */
  function PressureSample(row: Row, col: string, parse: Parser, floatOf: Parser): Option<Point> {
    match floatOf(SplitFirst(col, PRESSURE_UNIT))
    case None => None
    case Some(p) =>
      match PositiveFlow(row, col, parse)
      case None => None
      case Some(f) => Some((f, p * METRES_PER_KG_CM2))
  }

  function PressureSamples(row: Row, cols: seq<string>, parse: Parser, floatOf: Parser): (r: seq<Point>)
    ensures |r| <= |cols|
  {
    if cols == [] then []
    else
      var c := cols[|cols| - 1];
      var front := cols[..|cols| - 1];
      assert cols == front + [c];
      var prev := PressureSamples(row, front, parse, floatOf);
      match PressureSample(row, c, parse, floatOf)
      case None => prev
      case Some(q) => prev + [q]
  }

  /** Each pressure point is what some examined column gives, with a positive flow. */
  lemma {:induction false} PressureMembers(row: Row, cols: seq<string>, parse: Parser, floatOf: Parser)
    ensures forall q :: q in PressureSamples(row, cols, parse, floatOf) ==> q.0 > 0.0
    ensures forall q :: q in PressureSamples(row, cols, parse, floatOf) <==>
      exists c :: c in cols && PressureSample(row, c, parse, floatOf) == Some(q)
  {
    if cols != [] {
      var c := cols[|cols| - 1];
      var front := cols[..|cols| - 1];
      assert cols == front + [c];
      PressureMembers(row, front, parse, floatOf);
    }
  }

  /** One more column adds its pressure point, if it gives one. */
  lemma PressureSamplesStep(row: Row, cols: seq<string>, i: nat, parse: Parser, floatOf: Parser)
    requires i < |cols|
    ensures PressureSamples(row, cols[..i + 1], parse, floatOf) == PressureSamples(row, cols[..i], parse, floatOf)
      + (match PressureSample(row, cols[i], parse, floatOf) case None => [] case Some(p) => [p])
  {
    assert cols[..i + 1][..i] == cols[..i];
  }

  /** visualization.py:76-91: one point per examined pressure column that yields one; at most three. */
  method PressurePoints(row: Row, columns: seq<string>, parse: Parser, floatOf: Parser)
    returns (points: seq<Point>)
    ensures points == PressureSamples(row, PressureColumns(columns), parse, floatOf)
    ensures |points| <= MAX_PRESSURE_CURVES
  {
    var cols := PressureColumns(columns);
    points := [];
    for i := 0 to |cols|
      invariant points == PressureSamples(row, cols[..i], parse, floatOf)
    {
      var col := cols[i];
      PressureSamplesStep(row, cols, i, parse, floatOf);
      var pressureValue := floatOf(SplitFirst(col, PRESSURE_UNIT));
      if pressureValue.Some? {
        var flowValue := ToNumeric(Get(row, col), parse);
        if flowValue.Some? && flowValue.value > 0.0 {
          points := points + [(flowValue.value, pressureValue.value * METRES_PER_KG_CM2)];
        }
      }
    }
    assert cols[..|cols|] == cols;
  }

  /** The operating point of visualization.py:94 and 184, drawn only when both the user's flow and
      head are positive. */
  function Marker(userFlow: real, userHead: real): (m: Option<Point>)
    ensures m.Some? <==> userFlow > 0.0 && userHead > 0.0
    ensures m.Some? ==> m.value == (userFlow, userHead)
  {
    if userFlow > 0.0 && userHead > 0.0 then Some((userFlow, userHead)) else None
  }

  /** `curve_data['Model No.'] == model_no`: a missing model number matches no row. */
  predicate IsModel(row: Row, model: Cell) {
    model != Null && Get(row, MODEL_NO) == model
  }

  /** `pump_data.iloc[0]`: the first curve row of the model, if it has one. */
  function FirstRow(rows: seq<Row>, model: Cell): (r: Option<Row>)
    ensures r.Some? ==> exists i :: (0 <= i < |rows| && rows[i] == r.value && IsModel(rows[i], model)
      && (forall j :: 0 <= j < i ==> !IsModel(rows[j], model)))
    ensures r.None? <==> forall j :: 0 <= j < |rows| ==> !IsModel(rows[j], model)
  {
    if rows == [] then None
    else if IsModel(rows[0], model) then Some(rows[0])
    else
      var rest := FirstRow(rows[1..], model);
      if rest.Some? then
        var i :| 0 <= i < |rows[1..]| && rows[1..][i] == rest.value && IsModel(rows[1..][i], model)
          && (forall j :: 0 <= j < i ==> !IsModel(rows[1..][j], model));
        assert rows[i + 1] == rest.value;
        assert forall j :: 1 <= j < i + 1 ==> rows[j] == rows[1..][j - 1];
        rest
      else
        assert forall j :: 1 <= j < |rows| ==> rows[j] == rows[1..][j - 1];
        rest
  }

  /** The single-pump chart as data: the head curve (empty when no head column yields a sample),
      the pressure points and the optional operating point. */
  datatype PumpChart = PumpChart(headCurve: seq<Point>, pressure: seq<Point>, marker: Option<Point>)

  /** `create_pump_curve_chart` (visualization.py:9-119) without the figure: `None` for a model with
      no curve row, and for a curve table without the model-number column, whose lookup raises. */
  method PumpCurveChart(curves: Frame, model: Cell, parse: Parser, floatOf: Parser, userFlow: real, userHead: real)
    returns (chart: Option<PumpChart>)
    ensures chart.None? <==> MODEL_NO !in curves.columns || FirstRow(curves.rows, model).None?
    ensures chart.Some? ==>
      var row := FirstRow(curves.rows, model).value;
      && chart.value.headCurve == HeadCurve(row, HeadColumns(curves.columns), parse, floatOf)
      && chart.value.pressure == PressureSamples(row, PressureColumns(curves.columns), parse, floatOf)
      && chart.value.marker == Marker(userFlow, userHead)
  {
    if MODEL_NO !in curves.columns {
      return None;
    }
    var headColumns := HeadColumns(curves.columns);
    var pumpRow := FirstRow(curves.rows, model);
    if pumpRow.None? {
      return None;
    }
    var row := pumpRow.value;
    var curve := [];
    if headColumns != [] {
      var flows, heads := CollectSamples(row, headColumns, parse, floatOf);
      if flows != [] {
        curve := Sort(Zip(flows, heads), PointLe());
      }
    }
    var points := PressurePoints(row, curves.columns, parse, floatOf);
    chart := Some(PumpChart(curve, points, Marker(userFlow, userHead)));
  }

  /** One model's line in the comparison chart. */
  datatype Series = Series(model: Cell, color: string, points: seq<Point>)

  /** The series the model at input position `i` contributes: its head curve in the colour of its
      position, or none when it has no curve row or no usable sample. */
  function Entry(curves: Frame, models: seq<Cell>, i: nat, parse: Parser, floatOf: Parser): Option<Series>
    requires i < |models|
  {
    match FirstRow(curves.rows, models[i])
    case None => None
    case Some(row) =>
      var points := HeadCurve(row, HeadColumns(curves.columns), parse, floatOf);
      if points == [] then None else Some(Series(models[i], CHART_COLORS[i % |CHART_COLORS|], points))
  }

  /** The possible series of every input model, by input position. */
  function EntryOptions(curves: Frame, models: seq<Cell>, parse: Parser, floatOf: Parser): (r: seq<Option<Series>>)
    ensures |r| == |models|
    ensures forall i :: 0 <= i < |models| ==> r[i] == Entry(curves, models, i, parse, floatOf)
  {
    seq(|models|, (i: int) requires 0 <= i < |models| => Entry(curves, models, i, parse, floatOf))
  }

  /** The series of the input models, in input order. */
  function Entries(curves: Frame, models: seq<Cell>, parse: Parser, floatOf: Parser): seq<Series> {
    Somes(EntryOptions(curves, models, parse, floatOf))
  }

  /** The comparison chart as data: one series per drawable model and the optional operating point. */
  datatype ComparisonChart = ComparisonChart(series: seq<Series>, marker: Option<Point>)

  /** visualization.py:143-181: the series of the model at input position `i`, looked up, sampled
      and sorted as the loop body does it. */
  method SeriesOf(curves: Frame, models: seq<Cell>, i: nat, parse: Parser, floatOf: Parser)
    returns (entry: Option<Series>)
    requires i < |models|
    ensures entry == Entry(curves, models, i, parse, floatOf)
  {
    var pumpRow := FirstRow(curves.rows, models[i]);
    if pumpRow.None? {
      return None;
    }
    var row := pumpRow.value;
    var color := CHART_COLORS[i % |CHART_COLORS|];
    var headColumns := HeadColumns(curves.columns);
    var flows, heads := CollectSamples(row, headColumns, parse, floatOf);
    ghost var curve := HeadCurve(row, headColumns, parse, floatOf);
    assert |curve| == |flows|;
    if flows == [] {
      return None;
    }
    var points := Sort(Zip(flows, heads), PointLe());
    assert points == curve;
    return Some(Series(models[i], color, points));
  }

  /** `create_comparison_chart` (visualization.py:121-209) without the figure. The curve table's
      `Model No.` column is read only inside the loop over the models, so its absence makes the
      function return nothing only when there is a model to look up. */
  method ComparisonChartOf(curves: Frame, models: seq<Cell>, parse: Parser, floatOf: Parser,
                           userFlow: real, userHead: real)
    returns (chart: Option<ComparisonChart>)
    ensures chart.None? <==> MODEL_NO !in curves.columns && |models| > 0
    ensures chart.Some? ==> chart.value.series == Entries(curves, models, parse, floatOf)
    ensures chart.Some? ==> chart.value.marker == Marker(userFlow, userHead)
  {
    if MODEL_NO !in curves.columns && |models| > 0 {
      return None;
    }
    ghost var options := EntryOptions(curves, models, parse, floatOf);
    var series := [];
    for i := 0 to |models|
      invariant series == Somes(options[..i])
    {
      var entry := SeriesOf(curves, models, i, parse, floatOf);
      SomesPrefixStep(options, i);
      if entry.Some? {
        series := series + [entry.value];
      }
    }
    assert options[..|models|] == options;
    chart := Some(ComparisonChart(series, Marker(userFlow, userHead)));
  }

  /** The series of the comparison come from the input models in input order, one at most each. */
  lemma EntriesMembers(curves: Frame, models: seq<Cell>, parse: Parser, floatOf: Parser)
    ensures |Entries(curves, models, parse, floatOf)| <= |models|
    ensures forall s :: s in Entries(curves, models, parse, floatOf) <==>
      exists i :: 0 <= i < |models| && Entry(curves, models, i, parse, floatOf) == Some(s)
  {
    SomesMembers(EntryOptions(curves, models, parse, floatOf));
  }

  /** The model at input position `i` is drawn exactly when it has a curve row with a usable sample,
      in the colour of its position (counted over skipped models too), with the head curve the
      single-pump chart draws for it. */
  lemma EntrySpec(curves: Frame, models: seq<Cell>, i: nat, parse: Parser, floatOf: Parser)
    requires i < |models|
    ensures Entry(curves, models, i, parse, floatOf).Some? <==>
      FirstRow(curves.rows, models[i]).Some?
      && HeadCurve(FirstRow(curves.rows, models[i]).value, HeadColumns(curves.columns), parse, floatOf) != []
    ensures Entry(curves, models, i, parse, floatOf).Some? ==>
      Entry(curves, models, i, parse, floatOf).value ==
        Series(models[i], CHART_COLORS[i % 8],
               HeadCurve(FirstRow(curves.rows, models[i]).value, HeadColumns(curves.columns), parse, floatOf))
  {
  }

  lemma SortedThree(a: Point, b: Point, c: Point, le: (Point, Point) -> bool)
    requires le(a, b) && le(b, c) && le(a, c)
    ensures Sorted([a, b, c], le)
  {
    var s := [a, b, c];
    forall i, j | 0 <= i < j < |s| ensures le(s[i], s[j]) {
      if i == 0 && j == 1 {
      } else if i == 0 {
        assert s[j] == c;
      } else {
        assert s[i] == b && s[j] == c;
      }
    }
  }

  /** The head column `col` whose name without `M`s is `name` gives its flow `f` with the head
      `floatOf(name)`. */
  lemma HeadSampleOf(row: Row, col: string, name: string, f: real, h: real, parse: Parser, floatOf: Parser)
    requires RemoveChar(col, 'M') == name && floatOf(name) == Some(h)
    requires Get(row, col) == Num(f) && f > 0.0
    ensures HeadSample(row, col, parse, floatOf) == Some((f, h))
  {
  }

  /** The example columns without their unit letter. */
  lemma ExampleNames()
    ensures RemoveChar("10M", 'M') == "10" && RemoveChar("20M", 'M') == "20" && RemoveChar("5M", 'M') == "5"
  {
    assert "10M"[1..] == "0M" && "0M"[1..] == "M" && "M"[1..] == [];
    assert "20M"[1..] == "0M";
    assert "5M"[1..] == "M";
  }

  /** The parsed head of each example column. */
  lemma ExampleHeads(floatOf: Parser, parse: Parser)
    requires floatOf("10") == Some(10.0) && floatOf("20") == Some(20.0) && floatOf("5") == Some(5.0)
    ensures HeadSample(map["10M" := Num(40.0), "20M" := Num(30.0), "5M" := Num(50.0)], "10M", parse, floatOf) == Some((40.0, 10.0))
    ensures HeadSample(map["10M" := Num(40.0), "20M" := Num(30.0), "5M" := Num(50.0)], "20M", parse, floatOf) == Some((30.0, 20.0))
    ensures HeadSample(map["10M" := Num(40.0), "20M" := Num(30.0), "5M" := Num(50.0)], "5M", parse, floatOf) == Some((50.0, 5.0))
  {
    var row := map["10M" := Num(40.0), "20M" := Num(30.0), "5M" := Num(50.0)];
    ExampleNames();
    assert "10M" != "20M" && "10M" != "5M" && "20M" != "5M";
    HeadSampleOf(row, "10M", "10", 40.0, 10.0, parse, floatOf);
    HeadSampleOf(row, "20M", "20", 30.0, 20.0, parse, floatOf);
    HeadSampleOf(row, "5M", "5", 50.0, 5.0, parse, floatOf);
  }

  /** Three head columns that each give a sample give those samples in order. */
  lemma SamplesOfThree(row: Row, c0: string, c1: string, c2: string, p0: Point, p1: Point, p2: Point,
                       parse: Parser, floatOf: Parser)
    requires HeadSample(row, c0, parse, floatOf) == Some(p0)
    requires HeadSample(row, c1, parse, floatOf) == Some(p1)
    requires HeadSample(row, c2, parse, floatOf) == Some(p2)
    ensures Samples(row, [c0, c1, c2], parse, floatOf) == [p0, p1, p2]
  {
    var cols := [c0, c1, c2];
    assert cols[..0] == [] && cols[..3] == cols;
    SamplesStep(row, cols, 0, parse, floatOf);
    SamplesStep(row, cols, 1, parse, floatOf);
    SamplesStep(row, cols, 2, parse, floatOf);
  }

  /** The samples of the example row, in column order. */
  lemma ExampleSamples(floatOf: Parser, parse: Parser)
    requires floatOf("10") == Some(10.0) && floatOf("20") == Some(20.0) && floatOf("5") == Some(5.0)
    ensures Samples(map["10M" := Num(40.0), "20M" := Num(30.0), "5M" := Num(50.0)], ["10M", "20M", "5M"], parse, floatOf)
      == [(40.0, 10.0), (30.0, 20.0), (50.0, 5.0)]
  {
    ExampleHeads(floatOf, parse);
    SamplesOfThree(map["10M" := Num(40.0), "20M" := Num(30.0), "5M" := Num(50.0)], "10M", "20M", "5M",
      (40.0, 10.0), (30.0, 20.0), (50.0, 5.0), parse, floatOf);
  }

  /** Any sorted arrangement of a row's samples is its head curve. */
  lemma CurveFromSamples(row: Row, cols: seq<string>, parse: Parser, floatOf: Parser, expected: seq<Point>)
    requires Sorted(expected, PointLe())
    requires multiset(expected) == multiset(Samples(row, cols, parse, floatOf))
    ensures HeadCurve(row, cols, parse, floatOf) == expected
  {
    HeadCurveSpec(row, cols, parse, floatOf);
  }

  lemma SwapFirstTwo<T>(a: T, b: T, c: T)
    ensures multiset([a, b, c]) == multiset([b, a, c])
  {
  }

  /** visualization.py:29 and 50-64 on the example of a row with 40, 30 and 50 L/min under the
      columns `10M`, `20M` and `5M`: the curve is (30, 20), (40, 10), (50, 5). */
  lemma HeadCurveExample(floatOf: Parser, parse: Parser)
    requires floatOf("10") == Some(10.0) && floatOf("20") == Some(20.0) && floatOf("5") == Some(5.0)
    ensures HeadCurve(map["10M" := Num(40.0), "20M" := Num(30.0), "5M" := Num(50.0)], ["10M", "20M", "5M"], parse, floatOf)
      == [(30.0, 20.0), (40.0, 10.0), (50.0, 5.0)]
  {
    ExampleSamples(floatOf, parse);
    SwapFirstTwo((30.0, 20.0), (40.0, 10.0), (50.0, 5.0));
    SortedThree((30.0, 20.0), (40.0, 10.0), (50.0, 5.0), PointLe());
    CurveFromSamples(map["10M" := Num(40.0), "20M" := Num(30.0), "5M" := Num(50.0)], ["10M", "20M", "5M"], parse, floatOf,
      [(30.0, 20.0), (40.0, 10.0), (50.0, 5.0)]);
  }
}

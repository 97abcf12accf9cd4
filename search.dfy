/** The search of pump.py:333-392: the catalogue copy is narrowed stage by stage. Three kinds of stage
    occur, in this order: numeric coercions of the frequency and phase columns, equality masks on
    frequency, phase and category, coercions of rated flow and head with missing values read as 0,
    threshold masks on rated flow and head, and a coercion and threshold on the solid-passage
    diameter. */
module Filter {
  import opened Wrappers
  import opened Seqs
  import opened Table
  import opened Frames
  import opened Columns
  import opened Units
  import opened Translations

  /** The choices in force when Search is pressed. `frequency` and `phase` are `None` for the
      "Show All" entries; `category` is the category the dropdown maps the shown text to;
      `session` is the session language, which decides the "All Categories" text. */
  datatype Query = Query(
    frequency: Option<real>,
    phase: Option<int>,
    category: string,
    flowValue: real, flowUnit: string,
    headValue: real, headUnit: string,
    particleSize: real,
    session: Option<string>)

  /** Everything a stage depends on: the catalogue's columns, the query, the number parser and the
      text of the "All Categories" entry in the session language. */
  datatype Setting = Setting(columns: seq<string>, query: Query, parse: Parser, allCategories: string)

  function SettingOf(catalogue: Frame, q: Query, parse: Parser): (st: Setting)
    ensures st.allCategories == GetText(q.session, ALL_CATEGORIES)
  {
    Setting(catalogue.columns, q, parse, GetText(q.session, ALL_CATEGORIES))
  }

  function FlowLpm(q: Query): real {
    FlowToLpm(q.flowValue, q.flowUnit)
  }

  function HeadM(q: Query): real {
    HeadToMetres(q.headValue, q.headUnit)
  }

  /** Without both columns the `try` block of pump.py:336-364 stops at the first missing one, so
      both equality masks run only when both are there. */
  predicate FrequencyPhaseRun(columns: seq<string>) {
    FREQUENCY in columns && PHASE in columns
  }

  predicate CategoryRuns(st: Setting) {
    st.query.category != st.allCategories
  }

  predicate ParticleRuns(st: Setting) {
    st.query.particleSize > 0.0 && PASS_SOLID in st.columns
  }

  /** The row mask `df[col] == v`. */
  function Equals(col: string, v: Cell): Row -> bool {
    (r: Row) => Get(r, col) == v
  }

  /** The row mask `df[col] >= bound` over a coerced column. */
  function AtLeast(col: string, bound: real): Row -> bool {
    (r: Row) => Get(r, col).Num? && Get(r, col).x >= bound
  }

  function Identity(): Row -> Row {
    (r: Row) => r
  }

  function Always(): Row -> bool {
    (r: Row) => true
  }

  /** The eleven stages in source order: 0 and 1 coerce frequency and phase, 2, 3 and 4 mask on
      frequency, phase and category, 5 and 6 coerce rated flow and head, 7 and 8 are their thresholds,
      9 coerces the solid-passage diameter and 10 is its threshold. */
  const STAGES: nat := 11

  predicate IsUpdateStage(k: nat) {
    k == 0 || k == 1 || k == 5 || k == 6 || k == 9
  }

  /** The coercion stage `k` applies to each row; the identity when `k` is a mask or does not run. */
  function Update(k: nat, st: Setting): Row -> Row {
    if k == 0 && FREQUENCY in st.columns then ColumnUpdate(FREQUENCY, Coercion(st.parse, false))
    else if k == 1 && PHASE in st.columns then ColumnUpdate(PHASE, Coercion(st.parse, false))
    else if k == 5 then ColumnUpdate(Q_RATED, Coercion(st.parse, true))
    else if k == 6 then ColumnUpdate(HEAD_RATED, Coercion(st.parse, true))
    else if k == 9 && ParticleRuns(st) then ColumnUpdate(PASS_SOLID, Coercion(st.parse, true))
    else Identity()
  }

  /** The mask stage `k` keeps rows by; always true when `k` is a coercion or does not run. */
  function Mask(k: nat, st: Setting): Row -> bool {
    var q := st.query;
    if k == 2 && FrequencyPhaseRun(st.columns) && q.frequency.Some? then Equals(FREQUENCY, Num(q.frequency.value))
    else if k == 3 && FrequencyPhaseRun(st.columns) && q.phase.Some? then Equals(PHASE, Num(q.phase.value as real))
    else if k == 4 && CategoryRuns(st) then Equals(CATEGORY, Text(q.category))
    else if k == 7 && FlowLpm(q) > 0.0 then AtLeast(Q_RATED, FlowLpm(q))
    else if k == 8 && HeadM(q) > 0.0 then AtLeast(HEAD_RATED, HeadM(q))
    else if k == 10 && ParticleRuns(st) then AtLeast(PASS_SOLID, q.particleSize)
    else Always()
  }

  /** A row after the coercions of the first `k` stages. */
  function PreparedUpTo(r: Row, k: nat, st: Setting): Row {
    if k == 0 then r else Update(k - 1, st)(PreparedUpTo(r, k - 1, st))
  }

  /** The (prepared) row passes the masks of the first `k` stages. */
  predicate AdmittedUpTo(r: Row, k: nat, st: Setting) {
    k == 0 || (AdmittedUpTo(r, k - 1, st) && Mask(k - 1, st)(r))
  }

  function PreparedBy(k: nat, st: Setting): Row -> Row {
    (r: Row) => PreparedUpTo(r, k, st)
  }

  function AdmittedBy(k: nat, st: Setting): Row -> bool {
    (r: Row) => AdmittedUpTo(r, k, st)
  }

  /** The frame after the first `k` stages, as a specification: every row coerced, then the
      admitted ones kept in order. */
  function Selected(rows: seq<Row>, k: nat, st: Setting): seq<Row> {
    Keep(MapSeq(rows, PreparedBy(k, st)), AdmittedBy(k, st))
  }

  /** The result of the whole filter: each row as the coercions leave it, kept when every running
      predicate admits it, in catalogue order. */
  function Filtered(rows: seq<Row>, st: Setting): seq<Row> {
    Selected(rows, STAGES, st)
  }

  function Prepared(r: Row, st: Setting): Row {
    PreparedUpTo(r, STAGES, st)
  }

  predicate Admitted(r: Row, st: Setting) {
    AdmittedUpTo(r, STAGES, st)
  }

  /** The column stage `k` coerces, or "" when it coerces none. */
  function Written(k: nat, st: Setting): string {
    if k == 0 && FREQUENCY in st.columns then FREQUENCY
    else if k == 1 && PHASE in st.columns then PHASE
    else if k == 5 then Q_RATED
    else if k == 6 then HEAD_RATED
    else if k == 9 && ParticleRuns(st) then PASS_SOLID
    else ""
  }

  /** The column stage `k` masks on, or "" when it masks on none. */
  function Read(k: nat): string {
    if k == 2 then FREQUENCY
    else if k == 3 then PHASE
    else if k == 4 then CATEGORY
    else if k == 7 then Q_RATED
    else if k == 8 then HEAD_RATED
    else if k == 10 then PASS_SOLID
    else ""
  }

  lemma UpdateWritesOneColumn(r: Row, k: nat, st: Setting)
    ensures forall c :: c != Written(k, st) ==> Get(Update(k, st)(r), c) == Get(r, c)
    ensures Written(k, st) == "" ==> Update(k, st)(r) == r
  {
    var u := Update(k, st);
    if u != Identity() {
      var col := Written(k, st);
      var f := Coercion(st.parse, k >= 5);
      assert u(r) == SetCell(r, col, f(Get(r, col)));
    }
  }

  lemma MaskReadsOneColumn(r: Row, r': Row, j: nat, st: Setting)
    requires Get(r, Read(j)) == Get(r', Read(j))
    ensures Mask(j, st)(r) == Mask(j, st)(r')
  {
  }

  /** No coercion changes a column an earlier mask reads. */
  lemma UpdateKeepsEarlierMasks(r: Row, j: nat, k: nat, st: Setting)
    requires j < k
    ensures Mask(j, st)(Update(k, st)(r)) == Mask(j, st)(r)
  {
    UpdateWritesOneColumn(r, k, st);
    if Read(j) == "" {
      assert Mask(j, st) == Always();
    } else {
      assert Read(j) != Written(k, st);
      MaskReadsOneColumn(Update(k, st)(r), r, j, st);
    }
  }

  lemma {:induction false} UpdateKeepsAdmission(r: Row, j: nat, k: nat, st: Setting)
    requires j <= k
    ensures AdmittedUpTo(Update(k, st)(r), j, st) == AdmittedUpTo(r, j, st)
  {
    if j > 0 {
      UpdateKeepsAdmission(r, j - 1, k, st);
      UpdateKeepsEarlierMasks(r, j - 1, k, st);
    }
  }

  /** What stage `k` does to a frame, as pump.py writes it: a column overwrite, a mask, or nothing
      when the stage does not run. */
  function Stage(s: seq<Row>, k: nat, st: Setting): seq<Row> {
    var q := st.query;
    if k == 0 then
      if FREQUENCY in st.columns then MapColumn(s, FREQUENCY, Coercion(st.parse, false)) else s
    else if k == 1 then
      if PHASE in st.columns then MapColumn(s, PHASE, Coercion(st.parse, false)) else s
    else if k == 2 then
      if FrequencyPhaseRun(st.columns) && q.frequency.Some? then Keep(s, Equals(FREQUENCY, Num(q.frequency.value))) else s
    else if k == 3 then
      if FrequencyPhaseRun(st.columns) && q.phase.Some? then Keep(s, Equals(PHASE, Num(q.phase.value as real))) else s
    else if k == 4 then
      if CategoryRuns(st) then Keep(s, Equals(CATEGORY, Text(q.category))) else s
    else if k == 5 then MapColumn(s, Q_RATED, Coercion(st.parse, true))
    else if k == 6 then MapColumn(s, HEAD_RATED, Coercion(st.parse, true))
    else if k == 7 then
      if FlowLpm(q) > 0.0 then Keep(s, AtLeast(Q_RATED, FlowLpm(q))) else s
    else if k == 8 then
      if HeadM(q) > 0.0 then Keep(s, AtLeast(HEAD_RATED, HeadM(q))) else s
    else if k == 9 then
      if ParticleRuns(st) then MapColumn(s, PASS_SOLID, Coercion(st.parse, true)) else s
    else if k == 10 then
      if ParticleRuns(st) then Keep(s, AtLeast(PASS_SOLID, q.particleSize)) else s
    else s
  }

  lemma CoercionCase(s: seq<Row>, k: nat, st: Setting, col: string, fillZero: bool)
    requires Update(k, st) == ColumnUpdate(col, Coercion(st.parse, fillZero)) && Mask(k, st) == Always()
    ensures Keep(MapSeq(s, Update(k, st)), Mask(k, st)) == MapColumn(s, col, Coercion(st.parse, fillZero))
  {
    KeepAll(MapSeq(s, Update(k, st)), Always());
  }

  lemma MaskCase(s: seq<Row>, k: nat, st: Setting, m: Row -> bool)
    requires Update(k, st) == Identity() && Mask(k, st) == m
    ensures Keep(MapSeq(s, Update(k, st)), Mask(k, st)) == Keep(s, m)
  {
    MapIdentity(s);
  }

  lemma SkipCase(s: seq<Row>, k: nat, st: Setting)
    requires Update(k, st) == Identity() && Mask(k, st) == Always()
    ensures Keep(MapSeq(s, Update(k, st)), Mask(k, st)) == s
  {
    MapIdentity(s);
    KeepAll(s, Always());
  }

  /** Every stage coerces each row by its update and then keeps the rows its mask admits. */
  lemma StageIsMaskedUpdate(s: seq<Row>, k: nat, st: Setting)
    ensures Stage(s, k, st) == Keep(MapSeq(s, Update(k, st)), Mask(k, st))
  {
    var q := st.query;
    if k == 0 {
      if FREQUENCY in st.columns { CoercionCase(s, k, st, FREQUENCY, false); } else { SkipCase(s, k, st); }
    } else if k == 1 {
      if PHASE in st.columns { CoercionCase(s, k, st, PHASE, false); } else { SkipCase(s, k, st); }
    } else if k == 2 {
      if FrequencyPhaseRun(st.columns) && q.frequency.Some? {
        MaskCase(s, k, st, Equals(FREQUENCY, Num(q.frequency.value)));
      } else {
        SkipCase(s, k, st);
      }
    } else if k == 3 {
      if FrequencyPhaseRun(st.columns) && q.phase.Some? {
        MaskCase(s, k, st, Equals(PHASE, Num(q.phase.value as real)));
      } else {
        SkipCase(s, k, st);
      }
    } else if k == 4 {
      if CategoryRuns(st) { MaskCase(s, k, st, Equals(CATEGORY, Text(q.category))); } else { SkipCase(s, k, st); }
    } else if k == 5 {
      CoercionCase(s, k, st, Q_RATED, true);
    } else if k == 6 {
      CoercionCase(s, k, st, HEAD_RATED, true);
    } else if k == 7 {
      if FlowLpm(q) > 0.0 { MaskCase(s, k, st, AtLeast(Q_RATED, FlowLpm(q))); } else { SkipCase(s, k, st); }
    } else if k == 8 {
      if HeadM(q) > 0.0 { MaskCase(s, k, st, AtLeast(HEAD_RATED, HeadM(q))); } else { SkipCase(s, k, st); }
    } else if k == 9 {
      if ParticleRuns(st) { CoercionCase(s, k, st, PASS_SOLID, true); } else { SkipCase(s, k, st); }
    } else if k == 10 {
      if ParticleRuns(st) { MaskCase(s, k, st, AtLeast(PASS_SOLID, q.particleSize)); } else { SkipCase(s, k, st); }
    } else {
      SkipCase(s, k, st);
    }
  }

  /** Running stage `k` on the specification of the first `k` stages gives that of the first `k + 1`:
      masks commute with the later coercions, and consecutive masks form their conjunction. */
  lemma StageStep(rows: seq<Row>, k: nat, st: Setting)
    ensures Selected(rows, k + 1, st) == Stage(Selected(rows, k, st), k, st)
  {
    var pk, ak, u, m := PreparedBy(k, st), AdmittedBy(k, st), Update(k, st), Mask(k, st);
    var s := MapSeq(rows, pk);
    var sel := Keep(s, ak);
    assert Stage(sel, k, st) == Keep(MapSeq(sel, u), m) by {
      StageIsMaskedUpdate(sel, k, st);
    }
    assert MapSeq(sel, u) == Keep(MapSeq(s, u), ak) by {
      forall x ensures ak(u(x)) == ak(x) {
        UpdateKeepsAdmission(x, k, k, st);
      }
      MapKeep(s, ak, u);
    }
    assert MapSeq(s, u) == MapSeq(rows, PreparedBy(k + 1, st)) by {
      MapMap(rows, pk, u, PreparedBy(k + 1, st));
    }
    assert Keep(Keep(MapSeq(s, u), ak), m) == Keep(MapSeq(s, u), AdmittedBy(k + 1, st)) by {
      KeepKeep(MapSeq(s, u), ak, m, AdmittedBy(k + 1, st));
    }
  }

  lemma {:induction false} MapIdentity(s: seq<Row>)
    ensures MapSeq(s, Identity()) == s
  {
    if s != [] {
      MapIdentity(s[1..]);
    }
  }

  lemma FirstStages(rows: seq<Row>, st: Setting)
    ensures Selected(rows, 0, st) == rows
  {
    MapIdentity(rows);
    assert MapSeq(rows, PreparedBy(0, st)) == MapSeq(rows, Identity());
    KeepAll(rows, AdmittedBy(0, st));
  }

  /** `k` steps of `step`, the `j`-th applied as step `j`. */
  function Iterate(s: seq<Row>, k: nat, step: (seq<Row>, nat) -> seq<Row>): seq<Row> {
    if k == 0 then s else step(Iterate(s, k - 1, step), k - 1)
  }

  /** Iterating a step that carries `spec(j)` to `spec(j + 1)` from `spec(0)` reaches `spec(k)`. */
  lemma {:induction false} IterateFollows(s: seq<Row>, k: nat, step: (seq<Row>, nat) -> seq<Row>,
                                          spec: nat -> seq<Row>)
    requires spec(0) == s
    requires forall j: nat :: step(spec(j), j) == spec(j + 1)
    ensures Iterate(s, k, step) == spec(k)
  {
    if k > 0 {
      IterateFollows(s, k - 1, step, spec);
    }
  }

  function StageFunction(st: Setting): (seq<Row>, nat) -> seq<Row> {
    (s: seq<Row>, k: nat) => Stage(s, k, st)
  }

  /** The first `k` stages run one after the other, as the method does. */
  function Staged(rows: seq<Row>, k: nat, st: Setting): seq<Row> {
    Iterate(rows, k, StageFunction(st))
  }

  lemma StagedNext(rows: seq<Row>, k: nat, st: Setting)
    ensures Staged(rows, k + 1, st) == Stage(Staged(rows, k, st), k, st)
  {
  }

  /** Running the eleven stages one by one gives their specification. */
  lemma StagedIsSelected(rows: seq<Row>, st: Setting)
    ensures Staged(rows, STAGES, st) == Filtered(rows, st)
  {
    var spec := (j: nat) => Selected(rows, j, st);
    var step := StageFunction(st);
    FirstStages(rows, st);
    forall j: nat ensures step(spec(j), j) == spec(j + 1) {
      StageStep(rows, j, st);
    }
    IterateFollows(rows, STAGES, step, spec);
  }

  /** The `try` block of pump.py:336-364: stages 0 to 3. Without one of the two columns the block
      stops at line 338 or 339, so both equality masks run only when both columns are there. The
      catalogue the search copies has already had each of the two columns coerced in place when it
      exists (pump.py:168 and 176), so each column is coerced whenever it exists, even where the block
      stops before coercing it again; coercing twice is coercing once (`CoerceIdempotent`). */
  method FrequencyPhaseStages(s: seq<Row>, st: Setting) returns (filtered: seq<Row>)
    ensures filtered == Staged(s, 4, st)
  {
    var columns := st.columns;
    var q := st.query;
    filtered := s;
    assert filtered == Staged(s, 0, st);
    if FREQUENCY in columns {
      filtered := MapColumn(filtered, FREQUENCY, Coercion(st.parse, false));
    }
    assert filtered == Staged(s, 1, st) by {
      StagedNext(s, 0, st);
    }
    if PHASE in columns {
      filtered := MapColumn(filtered, PHASE, Coercion(st.parse, false));
    }
    assert filtered == Staged(s, 2, st) by {
      StagedNext(s, 1, st);
    }
    if FREQUENCY in columns && PHASE in columns && q.frequency.Some? {
      filtered := Keep(filtered, Equals(FREQUENCY, Num(q.frequency.value)));
    }
    assert filtered == Staged(s, 3, st) by {
      StagedNext(s, 2, st);
    }
    if FREQUENCY in columns && PHASE in columns && q.phase.Some? {
      filtered := Keep(filtered, Equals(PHASE, Num(q.phase.value as real)));
    }
    assert filtered == Staged(s, 4, st) by {
      StagedNext(s, 3, st);
    }
  }

  /** pump.py:378-388: stages 5 to 8, the coercions of the rated columns and the flow and head thresholds. */
  method RatedStages(s: seq<Row>, st: Setting, flowLpm: real, headM: real, ghost rows: seq<Row>)
    returns (filtered: seq<Row>)
    requires s == Staged(rows, 5, st)
    requires flowLpm == FlowLpm(st.query) && headM == HeadM(st.query)
    ensures filtered == Staged(rows, 9, st)
  {
    filtered := MapColumn(s, Q_RATED, Coercion(st.parse, true));
    ghost var s6 := filtered;
    assert s6 == Stage(s, 5, st);
    filtered := MapColumn(filtered, HEAD_RATED, Coercion(st.parse, true));
    ghost var s7 := filtered;
    assert s7 == Stage(s6, 6, st);
    if flowLpm > 0.0 {
      filtered := Keep(filtered, AtLeast(Q_RATED, flowLpm));
    }
    ghost var s8 := filtered;
    assert s8 == Stage(s7, 7, st);
    if headM > 0.0 {
      filtered := Keep(filtered, AtLeast(HEAD_RATED, headM));
    }
    assert filtered == Stage(s8, 8, st);
    StagedNext(rows, 5, st);
    StagedNext(rows, 6, st);
    StagedNext(rows, 7, st);
    StagedNext(rows, 8, st);
  }

  /** pump.py:389-392: the particle-size column coerced and masked, when a size is asked for and
      the catalogue has the column. */
  method ParticleStages(s: seq<Row>, st: Setting, ghost rows: seq<Row>) returns (filtered: seq<Row>)
    requires s == Staged(rows, 9, st)
    ensures filtered == Staged(rows, 11, st)
  {
    var q := st.query;
    filtered := s;
    if q.particleSize > 0.0 && PASS_SOLID in st.columns {
      filtered := MapColumn(filtered, PASS_SOLID, Coercion(st.parse, true));
    }
    ghost var s10 := filtered;
    assert s10 == Stage(s, 9, st);
    if q.particleSize > 0.0 && PASS_SOLID in st.columns {
      filtered := Keep(filtered, AtLeast(PASS_SOLID, q.particleSize));
    }
    assert filtered == Stage(s10, 10, st);
    StagedNext(rows, 9, st);
    StagedNext(rows, 10, st);
  }

  /** The filter of pump.py:333-392 over the catalogue (the copy made at line 333), together with the
      converted flow and head it compares against. */
  method FilterPumps(catalogue: Frame, q: Query, parse: Parser)
    returns (filtered: seq<Row>, flowLpm: real, headM: real)
    requires Q_RATED in catalogue.columns && HEAD_RATED in catalogue.columns
    requires q.category != GetText(q.session, ALL_CATEGORIES) ==> CATEGORY in catalogue.columns
    ensures flowLpm == FlowLpm(q) && headM == HeadM(q)
    ensures filtered == Filtered(catalogue.rows, SettingOf(catalogue, q, parse))
  {
    var st := SettingOf(catalogue, q, parse);
    filtered := FrequencyPhaseStages(catalogue.rows, st);
    // pump.py:367-368
    if q.category != st.allCategories {
      filtered := Keep(filtered, Equals(CATEGORY, Text(q.category)));
    }
    assert filtered == Staged(catalogue.rows, 5, st);
    // pump.py:371-376
    flowLpm := FlowToLpm(q.flowValue, q.flowUnit);
    headM := HeadToMetres(q.headValue, q.headUnit);
    filtered := RatedStages(filtered, st, flowLpm, headM, catalogue.rows);
    filtered := ParticleStages(filtered, st, catalogue.rows);
    StagedIsSelected(catalogue.rows, st);
  }

  /** The coercions of stages `j` to `k - 1` leave a column none of them writes as it was. */
  lemma {:induction false} PreparedKeeps(r: Row, j: nat, k: nat, st: Setting, c: string)
    requires j <= k
    requires forall i: nat :: j <= i < k ==> Written(i, st) == "" || Written(i, st) != c
    ensures Get(PreparedUpTo(r, k, st), c) == Get(PreparedUpTo(r, j, st), c)
  {
    if j < k {
      PreparedKeeps(r, j, k - 1, st, c);
      UpdateWritesOneColumn(PreparedUpTo(r, k - 1, st), k - 1, st);
    }
  }

  /** A column only stage `w` writes, with the cell update `f`, ends as `f` of the catalogue cell. */
  lemma PreparedCell(r: Row, w: nat, st: Setting, c: string, f: Cell -> Cell)
    requires w < STAGES && Update(w, st) == ColumnUpdate(c, f)
    requires forall i: nat :: i < STAGES && i != w ==> Written(i, st) == "" || Written(i, st) != c
    ensures Get(Prepared(r, st), c) == f(Get(r, c))
  {
    PreparedKeeps(r, 0, w, st, c);
    PreparedKeeps(r, w + 1, STAGES, st, c);
    var before := PreparedUpTo(r, w, st);
    assert PreparedUpTo(r, w + 1, st) == ColumnUpdate(c, f)(before);
  }

  /** The columns the filter coerces, as a kept row shows them; every other column is the
      catalogue's. */
  lemma PreparedColumns(r: Row, st: Setting)
    ensures Get(Prepared(r, st), Q_RATED) == Coerce(Get(r, Q_RATED), st.parse, true)
    ensures Get(Prepared(r, st), HEAD_RATED) == Coerce(Get(r, HEAD_RATED), st.parse, true)
    ensures Get(Prepared(r, st), FREQUENCY) ==
      if FREQUENCY in st.columns then Coerce(Get(r, FREQUENCY), st.parse, false) else Get(r, FREQUENCY)
    ensures Get(Prepared(r, st), PHASE) ==
      if PHASE in st.columns then Coerce(Get(r, PHASE), st.parse, false) else Get(r, PHASE)
    ensures Get(Prepared(r, st), PASS_SOLID) ==
      if ParticleRuns(st) then Coerce(Get(r, PASS_SOLID), st.parse, true) else Get(r, PASS_SOLID)
    ensures forall c :: c !in {FREQUENCY, PHASE, Q_RATED, HEAD_RATED, PASS_SOLID} ==>
      Get(Prepared(r, st), c) == Get(r, c)
  {
    PreparedCell(r, 5, st, Q_RATED, Coercion(st.parse, true));
    PreparedCell(r, 6, st, HEAD_RATED, Coercion(st.parse, true));
    if FREQUENCY in st.columns {
      PreparedCell(r, 0, st, FREQUENCY, Coercion(st.parse, false));
    } else {
      PreparedKeeps(r, 0, STAGES, st, FREQUENCY);
    }
    if PHASE in st.columns {
      PreparedCell(r, 1, st, PHASE, Coercion(st.parse, false));
    } else {
      PreparedKeeps(r, 0, STAGES, st, PHASE);
    }
    if ParticleRuns(st) {
      PreparedCell(r, 9, st, PASS_SOLID, Coercion(st.parse, true));
    } else {
      PreparedKeeps(r, 0, STAGES, st, PASS_SOLID);
    }
    forall c | c !in {FREQUENCY, PHASE, Q_RATED, HEAD_RATED, PASS_SOLID}
      ensures Get(Prepared(r, st), c) == Get(r, c)
    {
      PreparedKeeps(r, 0, STAGES, st, c);
    }
  }

  /** What the search asks of a catalogue row, stated on the row as the catalogue holds it: the
      chosen frequency and phase as numbers, the chosen category, and rated flow, rated head and
      solid-passage diameter (missing or unreadable counted as 0) at least the positive thresholds. */
  predicate Qualifies(r: Row, st: Setting) {
    var q := st.query;
    && (FrequencyPhaseRun(st.columns) && q.frequency.Some? ==> ToNumeric(Get(r, FREQUENCY), st.parse) == Some(q.frequency.value))
    && (FrequencyPhaseRun(st.columns) && q.phase.Some? ==> ToNumeric(Get(r, PHASE), st.parse) == Some(q.phase.value as real))
    && (CategoryRuns(st) ==> Get(r, CATEGORY) == Text(q.category))
    && (FlowLpm(q) > 0.0 ==> NumberOrZero(Get(r, Q_RATED), st.parse) >= FlowLpm(q))
    && (HeadM(q) > 0.0 ==> NumberOrZero(Get(r, HEAD_RATED), st.parse) >= HeadM(q))
    && (ParticleRuns(st) ==> NumberOrZero(Get(r, PASS_SOLID), st.parse) >= q.particleSize)
  }

  lemma {:induction false} AdmittedUpToAll(p: Row, k: nat, st: Setting)
    ensures AdmittedUpTo(p, k, st) <==> forall j: nat :: j < k ==> Mask(j, st)(p)
  {
    if k > 0 {
      AdmittedUpToAll(p, k - 1, st);
    }
  }

  lemma CoerceIsNumber(c: Cell, parse: Parser, v: real)
    ensures Coerce(c, parse, false) == Num(v) <==> ToNumeric(c, parse) == Some(v)
    ensures Coerce(c, parse, true) == Num(NumberOrZero(c, parse))
  {
  }

  /** The frequency, phase and category masks on a coerced row compare the catalogue row's cells. */
  lemma EarlyMasks(r: Row, st: Setting)
    ensures var p, q := Prepared(r, st), st.query;
      && (Mask(2, st)(p) <==> (FrequencyPhaseRun(st.columns) && q.frequency.Some? ==>
            ToNumeric(Get(r, FREQUENCY), st.parse) == Some(q.frequency.value)))
      && (Mask(3, st)(p) <==> (FrequencyPhaseRun(st.columns) && q.phase.Some? ==>
            ToNumeric(Get(r, PHASE), st.parse) == Some(q.phase.value as real)))
      && (Mask(4, st)(p) <==> (CategoryRuns(st) ==> Get(r, CATEGORY) == Text(q.category)))
  {
    var p, q := Prepared(r, st), st.query;
    PreparedColumns(r, st);
    assert Mask(2, st)(p) <==> (FrequencyPhaseRun(st.columns) && q.frequency.Some? ==>
      ToNumeric(Get(r, FREQUENCY), st.parse) == Some(q.frequency.value)) by {
      if q.frequency.Some? {
        CoerceIsNumber(Get(r, FREQUENCY), st.parse, q.frequency.value);
      }
    }
    assert Mask(3, st)(p) <==> (FrequencyPhaseRun(st.columns) && q.phase.Some? ==>
      ToNumeric(Get(r, PHASE), st.parse) == Some(q.phase.value as real)) by {
      if q.phase.Some? {
        CoerceIsNumber(Get(r, PHASE), st.parse, q.phase.value as real);
      }
    }
  }

  /** The flow, head and particle masks on a coerced row compare the catalogue row's numbers, a
      missing or unparseable one counting as zero. */
  lemma RatedMasks(r: Row, st: Setting)
    ensures var p, q := Prepared(r, st), st.query;
      && (Mask(7, st)(p) <==> (FlowLpm(q) > 0.0 ==> NumberOrZero(Get(r, Q_RATED), st.parse) >= FlowLpm(q)))
      && (Mask(8, st)(p) <==> (HeadM(q) > 0.0 ==> NumberOrZero(Get(r, HEAD_RATED), st.parse) >= HeadM(q)))
      && (Mask(10, st)(p) <==> (ParticleRuns(st) ==> NumberOrZero(Get(r, PASS_SOLID), st.parse) >= st.query.particleSize))
  {
    var p, q := Prepared(r, st), st.query;
    PreparedColumns(r, st);
    assert Mask(7, st)(p) <==> (FlowLpm(q) > 0.0 ==> NumberOrZero(Get(r, Q_RATED), st.parse) >= FlowLpm(q)) by {
      CoerceIsNumber(Get(r, Q_RATED), st.parse, 0.0);
    }
    assert Mask(8, st)(p) <==> (HeadM(q) > 0.0 ==> NumberOrZero(Get(r, HEAD_RATED), st.parse) >= HeadM(q)) by {
      CoerceIsNumber(Get(r, HEAD_RATED), st.parse, 0.0);
    }
    assert Mask(10, st)(p) <==> (ParticleRuns(st) ==> NumberOrZero(Get(r, PASS_SOLID), st.parse) >= q.particleSize) by {
      CoerceIsNumber(Get(r, PASS_SOLID), st.parse, 0.0);
    }
  }

  /** A coerced row passes every running mask exactly when its catalogue row qualifies. */
  lemma AdmittedIffQualifies(r: Row, st: Setting)
    ensures Admitted(Prepared(r, st), st) <==> Qualifies(r, st)
  {
    var p := Prepared(r, st);
    var m2, m3, m4 := Mask(2, st)(p), Mask(3, st)(p), Mask(4, st)(p);
    var m7, m8, m10 := Mask(7, st)(p), Mask(8, st)(p), Mask(10, st)(p);
    assert Admitted(p, st) <==> m2 && m3 && m4 && m7 && m8 && m10 by {
      AdmittedUpToAll(p, STAGES, st);
      if m2 && m3 && m4 && m7 && m8 && m10 {
        forall j: nat | j < STAGES ensures Mask(j, st)(p) {
          if j != 2 && j != 3 && j != 4 && j != 7 && j != 8 && j != 10 {
            assert Mask(j, st) == Always();
          }
        }
      }
    }
    EarlyMasks(r, st);
    RatedMasks(r, st);
  }

  /** The rows the search keeps are the coerced forms of the catalogue rows that qualify, and no
      more rows than the catalogue has. */
  lemma FilteredMembers(rows: seq<Row>, st: Setting)
    ensures |Filtered(rows, st)| <= |rows|
    ensures forall x :: x in Filtered(rows, st) <==>
      exists i :: 0 <= i < |rows| && x == Prepared(rows[i], st) && Qualifies(rows[i], st)
  {
    var prepared := MapSeq(rows, PreparedBy(STAGES, st));
    forall i | 0 <= i < |rows| ensures prepared[i] == Prepared(rows[i], st) {
    }
    forall x ensures x in Filtered(rows, st) <==>
      exists i :: 0 <= i < |rows| && x == Prepared(rows[i], st) && Qualifies(rows[i], st)
    {
      if x in Filtered(rows, st) {
        var i :| 0 <= i < |prepared| && prepared[i] == x;
        AdmittedIffQualifies(rows[i], st);
      }
      if exists i :: 0 <= i < |rows| && x == Prepared(rows[i], st) && Qualifies(rows[i], st) {
        var i :| 0 <= i < |rows| && x == Prepared(rows[i], st) && Qualifies(rows[i], st);
        AdmittedIffQualifies(rows[i], st);
        assert x == prepared[i];
      }
    }
  }

  /** Every kept row has numeric rated flow and rated head cells. */
  lemma FilteredRatedNumeric(rows: seq<Row>, st: Setting)
    ensures forall x :: x in Filtered(rows, st) ==> Get(x, Q_RATED).Num? && Get(x, HEAD_RATED).Num?
  {
    FilteredMembers(rows, st);
    forall x | x in Filtered(rows, st) ensures Get(x, Q_RATED).Num? && Get(x, HEAD_RATED).Num? {
      var i :| 0 <= i < |rows| && x == Prepared(rows[i], st) && Qualifies(rows[i], st);
      PreparedColumns(rows[i], st);
    }
  }

  /** With "Show All" frequency and phase, all categories, no flow, head or solid-size threshold,
      every catalogue row is kept, in order. */
  lemma IdleSearchKeepsAll(rows: seq<Row>, st: Setting)
    requires st.query.frequency.None? && st.query.phase.None? && !CategoryRuns(st)
    requires FlowLpm(st.query) <= 0.0 && HeadM(st.query) <= 0.0 && st.query.particleSize <= 0.0
    ensures Filtered(rows, st) == MapSeq(rows, PreparedBy(STAGES, st))
  {
    var prepared := MapSeq(rows, PreparedBy(STAGES, st));
    forall x | x in prepared ensures AdmittedBy(STAGES, st)(x) {
      AdmittedUpToAll(x, STAGES, st);
    }
    KeepAll(prepared, AdmittedBy(STAGES, st));
  }
}

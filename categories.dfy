/** The category column's clean-up and the category dropdown (pump.py:124-149): each category
    becomes its stripped text with the spellings of a missing value blanked out, the dropdown lists
    the distinct non-blank categories in sorted order behind an "All Categories" entry, each shown
    translated, and a reverse map takes the shown text back to the category. */
module Categories {
  import opened Wrappers
  import opened Strings
  import opened Sorting
  import opened Seqs
  import opened Table
  import opened Frames
  import opened Columns
  import opened Translations

  /** The texts `.replace(["nan", "None", "NaN"], "")` blanks out. */
  const MISSING_SPELLINGS: set<string> := {"nan", "None", "NaN"}

  /** pandas' `astype(str)` of a cell; `show` is Python's `str()` of a number. A missing value
      becomes "nan" (NaN) or "None" (None); both are blanked out next, so "nan" stands for either. */
  function AsText(c: Cell, show: real -> string): string {
    match c
    case Num(x) => show(x)
    case Text(s) => s
    case Null => "nan"
  }

  /** The cleaned category of a catalogue cell: stripped, then blank if it spells a missing value. */
  function NormalizeCategory(c: Cell, show: real -> string): (s: string)
    ensures s !in MISSING_SPELLINGS
    ensures Strip(s) == s
    ensures c.Null? ==> s == ""
    ensures c.Text? && Strip(c.s) !in MISSING_SPELLINGS ==> s == Strip(c.s)
    ensures c.Text? && Strip(c.s) in MISSING_SPELLINGS ==> s == ""
  {
    StripEmpty();
    if c.Null? then
      // "nan" or "None" after `astype(str)`, blanked by the replacement
      ""
    else
      var t := Strip(AsText(c, show));
      StripIdempotent(AsText(c, show));
      if t in MISSING_SPELLINGS then "" else t
  }

  /** The whole clean-up as one cell update. */
  function CleanCell(show: real -> string): Cell -> Cell {
    (c: Cell) => Text(NormalizeCategory(c, show))
  }

  /** Cleaning twice is cleaning once. */
  lemma NormalizeCategoryIdempotent(c: Cell, show: real -> string)
    ensures NormalizeCategory(Text(NormalizeCategory(c, show)), show) == NormalizeCategory(c, show)
  {
  }

  /** The text of every row's category cell (`astype(str)`), in row order. */
  function CategoryValues(rows: seq<Row>, show: real -> string): (r: seq<string>)
    ensures |r| == |rows|
    ensures forall i :: 0 <= i < |rows| ==> r[i] == AsText(Get(rows[i], CATEGORY), show)
  {
    if rows == [] then [] else [AsText(Get(rows[0], CATEGORY), show)] + CategoryValues(rows[1..], show)
  }

  /** The first statement's cell update: the text of the cell, stripped. */
  function StripCell(c: Cell, show: real -> string): (r: Cell)
    ensures r.Text?
  {
    Text(Strip(AsText(c, show)))
  }

  /** The second statement's cell update: a missing-value spelling becomes blank. */
  function BlankMissing(c: Cell): (r: Cell)
    ensures r.Text? ==> r.s !in MISSING_SPELLINGS
    ensures c.Text? && c.s !in MISSING_SPELLINGS ==> r == c
  {
    if c.Text? && c.s in MISSING_SPELLINGS then Text("") else c
  }

  /** The two updates together clean the category. */
  lemma CleanInTwoSteps(c: Cell, show: real -> string)
    ensures BlankMissing(StripCell(c, show)) == Text(NormalizeCategory(c, show))
  {
    if c.Null? {
      assert "nan"[0] == 'n' && "nan"[2] == 'n';
      StripUnpadded("nan");
      assert "nan" in MISSING_SPELLINGS;
    }
  }

  /** Overwriting a column twice is overwriting it once with the composed update. */
  lemma MapColumnTwice(rows: seq<Row>, col: string, f: Cell -> Cell, g: Cell -> Cell, gf: Cell -> Cell)
    requires forall c :: gf(c) == g(f(c))
    ensures MapColumn(MapColumn(rows, col, f), col, g) == MapColumn(rows, col, gf)
  {
    forall r: Row ensures ColumnUpdate(col, gf)(r) == ColumnUpdate(col, g)(ColumnUpdate(col, f)(r)) {
      var once := r[col := f(Get(r, col))];
      assert Get(once, col) == f(Get(r, col));
      assert once[col := g(f(Get(r, col)))] == r[col := gf(Get(r, col))];
    }
    MapMap(rows, ColumnUpdate(col, f), ColumnUpdate(col, g), ColumnUpdate(col, gf));
  }

  /** Both statements of pump.py:126-128, overwriting the category column in place. */
  method NormalizeCategories(df: DataFrame, show: real -> string)
    requires CATEGORY in df.columns
    modifies df
    ensures df.columns == old(df.columns)
    ensures df.rows == MapColumn(old(df.rows), CATEGORY, CleanCell(show))
  {
    df.OverwriteColumn(CATEGORY, (c: Cell) => StripCell(c, show));
    df.OverwriteColumn(CATEGORY, BlankMissing);
    forall c ensures BlankMissing(StripCell(c, show)) == Text(NormalizeCategory(c, show)) {
      CleanInTwoSteps(c, show);
    }
    MapColumnTwice(old(df.rows), CATEGORY, (c: Cell) => StripCell(c, show), BlankMissing,
                   CleanCell(show));
  }

  /** The test of the comprehension at pump.py:130. */
  predicate Listed(c: string) {
    c != "" && Strip(c) != "" && AsciiLower(c) != "nan" && AsciiLower(c) != "none"
  }

  /** The dropdown's categories: the listed distinct values in ascending order. */
  function DropdownCategories(values: seq<string>): seq<string> {
    Sort(Keep(Unique(values), Listed), StrLe)
  }

  lemma StrLeTotalPreorder()
    ensures TotalPreorder(StrLe)
  {
    forall a, b ensures StrLe(a, b) || StrLe(b, a) {
      StrLeTotal(a, b);
    }
    forall a, b, c | StrLe(a, b) && StrLe(b, c) ensures StrLe(a, c) {
      StrLeTransitive(a, b, c);
    }
  }

  /** The dropdown lists exactly the listed values, each once, in strictly ascending order. */
  lemma DropdownCategoriesSpec(values: seq<string>)
    ensures forall c :: c in DropdownCategories(values) <==> c in values && Listed(c)
    ensures NoDuplicates(DropdownCategories(values))
    ensures forall i, j :: 0 <= i < j < |DropdownCategories(values)| ==>
              StrLe(DropdownCategories(values)[i], DropdownCategories(values)[j])
              && DropdownCategories(values)[i] != DropdownCategories(values)[j]
  {
    var kept := Keep(Unique(values), Listed);
    var d := DropdownCategories(values);
    assert NoDuplicates(kept) by {
      forall i, j | 0 <= i < j < |kept| ensures kept[i] != kept[j] {
        KeepNoDuplicates(Unique(values), Listed);
      }
    }
    NoDuplicatesPermutation(kept, d);
    StrLeTotalPreorder();
    SortSorted(kept, StrLe);
    forall c ensures c in d <==> c in kept {
      assert c in d <==> c in multiset(d);
    }
  }

  /** What `translated_to_original[shown]` holds once the loop over `categories` has run: the last
      category shown as `shown`, or the "All Categories" text stored before the loop. */
  function ReverseEntry(categories: seq<string>, session: Option<string>, shown: string): string {
    ReverseEntryOf(categories, Translated(session), GetText(session, ALL_CATEGORIES), shown)
  }

  /** `get_text` in the session's language. */
  function Translated(session: Option<string>): string -> string {
    (key: string) => GetText(session, key)
  }

  /** The reverse map's entry for any way `text` of showing a category, with `all` stored first. */
  function ReverseEntryOf(categories: seq<string>, text: string -> string, all: string, shown: string): string {
    if categories == [] then all
    else if text(categories[|categories| - 1]) == shown then categories[|categories| - 1]
    else ReverseEntryOf(categories[..|categories| - 1], text, all, shown)
  }

  /** Each category's text, in order. */
  function ShownTexts(categories: seq<string>, text: string -> string): (r: seq<string>)
    ensures |r| == |categories|
  {
    if categories == [] then []
    else ShownTexts(categories[..|categories| - 1], text) + [text(categories[|categories| - 1])]
  }

  lemma {:induction false} ShownTextsAt(categories: seq<string>, text: string -> string)
    ensures forall k :: 0 <= k < |categories| ==> ShownTexts(categories, text)[k] == text(categories[k])
  {
    if categories != [] {
      var front := categories[..|categories| - 1];
      ShownTextsAt(front, text);
      assert forall k :: 0 <= k < |front| ==> categories[k] == front[k];
    }
  }

  lemma ReverseEntryStep(categories: seq<string>, text: string -> string, all: string, i: nat, shown: string)
    requires i < |categories|
    ensures ReverseEntryOf(categories[..i + 1], text, all, shown) ==
      if text(categories[i]) == shown then categories[i] else ReverseEntryOf(categories[..i], text, all, shown)
  {
    assert categories[..i + 1][..i] == categories[..i];
  }

  /** The dropdown options and the reverse map of pump.py:139-149, built over `categories` (the
      sorted dropdown categories). */
  method CategoryOptions(categories: seq<string>, session: Option<string>)
    returns (options: seq<string>, toOriginal: map<string, string>)
    ensures |options| == |categories| + 1
    ensures options[0] == GetText(session, ALL_CATEGORIES)
    ensures forall k :: 0 <= k < |categories| ==> options[k + 1] == GetText(session, categories[k])
    ensures forall o :: o in toOriginal <==> o in options
    ensures forall o :: o in toOriginal ==> toOriginal[o] == ReverseEntry(categories, session, o)
  {
    var all := GetText(session, ALL_CATEGORIES);
    ghost var text := Translated(session);
    options := [all];
    toOriginal := map[all := GetText(session, ALL_CATEGORIES)];
    for i := 0 to |categories|
      invariant options == [all] + ShownTexts(categories[..i], text)
      invariant forall o :: o in toOriginal <==> o in options
      invariant forall o :: o in toOriginal ==> toOriginal[o] == ReverseEntryOf(categories[..i], text, all, o)
    {
      var shown := GetText(session, categories[i]);
      assert shown == text(categories[i]);
      forall o ensures ReverseEntryOf(categories[..i + 1], text, all, o) ==
        if shown == o then categories[i] else ReverseEntryOf(categories[..i], text, all, o) {
        ReverseEntryStep(categories, text, all, i, o);
      }
      assert ShownTexts(categories[..i + 1], text) == ShownTexts(categories[..i], text) + [shown] by {
        assert categories[..i + 1][..i] == categories[..i];
      }
      options := options + [shown];
      toOriginal := toOriginal[shown := categories[i]];
    }
    assert categories[..|categories|] == categories;
    ShownTextsAt(categories, text);
  }

  /** When no two categories share a text, the reverse map takes each shown category back to itself. */
  lemma {:induction false} ReverseEntryRoundTrip(categories: seq<string>, text: string -> string, all: string, k: nat)
    requires k < |categories|
    requires forall i, j :: 0 <= i < j < |categories| ==> text(categories[i]) != text(categories[j])
    ensures ReverseEntryOf(categories, text, all, text(categories[k])) == categories[k]
  {
    var n := |categories|;
    if k != n - 1 {
      var init := categories[..n - 1];
      assert init[k] == categories[k];
      ReverseEntryRoundTrip(init, text, all, k);
    }
  }

  /** When no category shows as the "All Categories" text, that text maps back to itself. */
  lemma {:induction false} ReverseEntryAll(categories: seq<string>, text: string -> string, all: string)
    requires forall k :: 0 <= k < |categories| ==> text(categories[k]) != all
    ensures ReverseEntryOf(categories, text, all, all) == all
  {
    if categories != [] {
      ReverseEntryAll(categories[..|categories| - 1], text, all);
    }
  }

  /** Two different translated categories show differently, and neither as "All Categories". */
  lemma KnownTextsDiffer(a: string, b: string, session: Option<string>)
    requires a in CATEGORY_KEYS && b in CATEGORY_KEYS
    ensures a != b ==> GetText(session, a) != GetText(session, b)
    ensures GetText(session, a) != GetText(session, ALL_CATEGORIES)
  {
    CategoryTextsDistinct(session);
    var i :| 0 <= i < |CATEGORY_KEYS| && CATEGORY_KEYS[i] == a;
    var j :| 0 <= j < |CATEGORY_KEYS| && CATEGORY_KEYS[j] == b;
    assert a != b ==> i != j;
  }

  /** For categories drawn from the translated ones, in either language, the reverse map returns each
      listed category to itself and the "All Categories" entry to its own text. */
  lemma KnownCategoriesRoundTrip(categories: seq<string>, session: Option<string>)
    requires NoDuplicates(categories)
    requires forall c :: c in categories ==> c in CATEGORY_KEYS
    ensures forall k :: 0 <= k < |categories| ==>
              ReverseEntry(categories, session, GetText(session, categories[k])) == categories[k]
    ensures ReverseEntry(categories, session, GetText(session, ALL_CATEGORIES)) == GetText(session, ALL_CATEGORIES)
  {
    forall i, j | 0 <= i < j < |categories|
      ensures GetText(session, categories[i]) != GetText(session, categories[j])
    {
      KnownTextsDiffer(categories[i], categories[j], session);
    }
    forall k | 0 <= k < |categories|
      ensures ReverseEntry(categories, session, GetText(session, categories[k])) == categories[k]
    {
      ReverseEntryRoundTrip(categories, Translated(session), GetText(session, ALL_CATEGORIES), k);
    }
    forall k | 0 <= k < |categories| ensures GetText(session, categories[k]) != GetText(session, ALL_CATEGORIES) {
      KnownTextsDiffer(categories[k], categories[k], session);
    }
    ReverseEntryAll(categories, Translated(session), GetText(session, ALL_CATEGORIES));
  }

  /** The category the search filters on (pump.py:161-164): the reverse map's entry for the shown
      text, or the shown text itself. */
  function ChosenCategory(toOriginal: map<string, string>, shown: string): (c: string)
    ensures shown in toOriginal ==> c == toOriginal[shown]
    ensures shown !in toOriginal ==> c == shown
  {
    if shown in toOriginal then toOriginal[shown] else shown
  }

  /** Each catalogue row's category after the clean-up, in row order. */
  function CleanedCategories(rows: seq<Row>, show: real -> string): seq<string> {
    seq(|rows|, i requires 0 <= i < |rows| => NormalizeCategory(Get(rows[i], CATEGORY), show))
  }

  /** Reading the category column back after the clean-up gives each row's cleaned category. */
  lemma {:induction false} CategoryValuesAfterCleaning(rows: seq<Row>, show: real -> string)
    ensures CategoryValues(MapColumn(rows, CATEGORY, CleanCell(show)), show) == CleanedCategories(rows, show)
  {
    var cleaned := MapColumn(rows, CATEGORY, CleanCell(show));
    var values := CategoryValues(cleaned, show);
    forall i | 0 <= i < |rows| ensures values[i] == NormalizeCategory(Get(rows[i], CATEGORY), show) {
      assert Get(cleaned[i], CATEGORY) == CleanCell(show)(Get(rows[i], CATEGORY));
    }
  }

  /** The dropdown of pump.py:124-155. With a category column, the column is cleaned in place and
      the dropdown lists the catalogue's cleaned categories; without one it holds only the
      "All Categories" entry, mapped to itself, and the catalogue is untouched. */
  method CategoryDropdown(pumps: DataFrame, session: Option<string>, show: real -> string)
    returns (options: seq<string>, toOriginal: map<string, string>)
    modifies pumps
    ensures pumps.columns == old(pumps.columns)
    ensures CATEGORY !in pumps.columns ==>
              pumps.rows == old(pumps.rows)
              && options == [GetText(session, ALL_CATEGORIES)]
              && toOriginal == map[GetText(session, ALL_CATEGORIES) := GetText(session, ALL_CATEGORIES)]
    ensures CATEGORY in pumps.columns ==>
              && pumps.rows == MapColumn(old(pumps.rows), CATEGORY, CleanCell(show))
              && var cats := DropdownCategories(CleanedCategories(old(pumps.rows), show));
              && |options| == |cats| + 1
              && options[0] == GetText(session, ALL_CATEGORIES)
              && (forall k :: 0 <= k < |cats| ==> options[k + 1] == GetText(session, cats[k]))
              && (forall o :: o in toOriginal <==> o in options)
              && (forall o :: o in toOriginal ==> toOriginal[o] == ReverseEntry(cats, session, o))
  {
    if CATEGORY in pumps.columns {
      NormalizeCategories(pumps, show);
      CategoryValuesAfterCleaning(old(pumps.rows), show);
      options, toOriginal := CategoryOptions(DropdownCategories(CategoryValues(pumps.rows, show)), session);
    } else {
      var all := GetText(session, ALL_CATEGORIES);
      options := [all];
      toOriginal := map[all := GetText(session, ALL_CATEGORIES)];
    }
  }
}

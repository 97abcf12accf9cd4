# Pump selector: a Dafny model of the search core

The pump selector is a Streamlit application. A user describes a duty: a flow in one of several
units, a head in metres or feet, and optionally an application such as a booster set or pond
drainage. The application filters a pump catalogue down to the pumps that meet that duty, ranks
and truncates the result, and shows a table. It can also plot the head curve of one pump, or
compare several pumps, from a separate table of curve data.

This project models that core in Dafny:

- the conversion of the user's figures to litres per minute and metres;
- the advisory requirement derived from the application inputs;
- the clean-up of the catalogue's category column and the category dropdown;
- the staged row filter, the ranking and the percentage window;
- the list of columns the result table shows;
- the series data behind both curve charts;
- the two table validators;
- the translation lookup.

Tables are values: a `Frame` has column names and rows, a row maps column names to cells, and a
cell is a number, a text or missing (NaN/None). Where the source overwrites dataframe columns in
place, the model is imperative: a `DataFrame` class whose methods update its rows, or a `method`
that reassigns a local sequence stage by stage, each proved equal to a functional specification.

Python's string-to-float conversion and pandas' `to_numeric` on strings are parameters of type
`string -> Option<real>` (`parse`, `floatOf`). They are not interpreted. Python's `str()` of a
number is a parameter `show`. The session's language is an `Option<string>` argument.

Modules, one per concern:

- config.dfy (`Config`): the constant tables of config.py
- columns.dfy (`Columns`): the column names the core reads
- wrappers.dfy, strings.dfy, seqs.dfy, sorting.dfy (`Wrappers`, `Strings`, `Seqs`, `Sorting`): Python's `str.strip`, `str.replace`, `str.split`, `in`, `', '.join`, list comprehensions with a test, `unique()` and `sorted`
- table.dfy (`Table`, `Frames`): cells, rows, `to_numeric(errors="coerce")`, `fillna(0)`, `sort_values` order, `df[col] = f(df[col])`
- units.dfy (`Units`): pump.py:370-376
- requirements.dfy (`Requirements`): pump.py:221-223, 235-240, 262-264
- translations.dfy (`Translations`): translations.py
- categories.dfy (`Categories`): pump.py:124-164
- search.dfy (`Filter`): pump.py:333-392
- ranking.dfy (`Ranking`): pump.py:406-437
- display.dfy (`Display`): pump.py:187-190, 440-486, 557, 594-597, 633-636
- curves.dfy (`Curves`): visualization.py
- dataloader.dfy (`Validation`): data_loader.py:101-140

The filter is specified as `Filtered(rows, st)`:
- each catalogue row is coerced as the filter's column overwrites leave it (`Prepared`);
- the coerced rows that pass every running mask (`Admitted`) are kept, in catalogue order.

`Filter.FilterPumps` performs the eleven stages as the source does: frequency and phase
coercions, frequency, phase and category masks, rated flow and head coercions with missing values
read as 0, flow and head thresholds, and the solid-passage coercion and threshold. It is proved
equal to that specification. `Filter.AdmittedIffQualifies` restates admission on the catalogue
row itself (`Qualifies`), so the characterisation mentions no intermediate frame.

A head unit other than `"m"` is read as feet (pump.py:376). Only `"m"` and `"ft"` reach that
line (pump.py:253-258).

## Model

| member | source | states |
|---|---|---|
| Units.FlowToLpm | pump.py:371-373 | `L/sec` multiplies by 60, `m³/hr` by 1000/60, `m³/min` by 1000, `US gpm` by 3.785; any other token, `L/min` included, leaves the value as it is |
| Units.HeadToMetres | pump.py:376 | only the token `"m"` keeps the value; every other token multiplies it by 0.3048 |
| Units.FlowFactor | config.py:26-31 | every factor of the flow table, and the implicit factor 1, is positive |
| Units.FlowToLpmIsScaling | pump.py:371-373 | the flow conversion is multiplication by the unit's factor |
| Units.FlowRoundTrip | pump.py:371-373 | converting to L/min and back, or back and then to L/min, returns the original value |
| Units.ConversionsKeepSign | pump.py:370-376 | a positive figure stays positive and zero stays zero in both conversions, so a threshold is active exactly when the user's figure is positive |
| Requirements.PondFlow | pump.py:221-223 | with a positive drain time the flow times the minutes is the volume L·W·H·1000; otherwise the flow is 0 |
| Requirements.PondFlowNonNegative | pump.py:216-223 | non-negative pond dimensions give a non-negative drainage flow |
| Requirements.PondExample | pump.py:221-223 | a 2 × 1.5 × 1 m pond holds 3000 L, 2 h is 120 min, and the flow is 25 L/min |
| Requirements.AutoRequirement | pump.py:235-240 | for `Booster`, the flow is the larger of faucets·15 and the pond flow and the head the larger of floors·3.5 and the pond height; otherwise the flow is the pond flow and the head the pump depth if positive, else the pond height |
| Requirements.AutoRequirementNonNegative | pump.py:200-240 | non-negative inputs give a non-negative advisory flow and head |
| Requirements.BoosterExample | pump.py:235-237 | five faucets and ten floors with no pond ask for 75 L/min at 35 m |
| Requirements.RoundHalfEven | pump.py:263-264 | Python's `round`: within one half of the argument, and even on a tie |
| Requirements.EstimatedFloors | pump.py:263 | the floor count is within half a floor (1.75 m) of the head, even on a tie, and 0 for a head that is not positive |
| Requirements.EstimatedFaucets | pump.py:264 | the faucet count is within half a faucet (7.5 L/min) of the flow, even on a tie, and 0 for a flow that is not positive |
| Requirements.EstimateTieExample | pump.py:263-264 | a head of 8.75 m and a flow of 37.5 L/min, each halfway between two counts, both give 2 |
| Requirements.EstimateInvertsFloorHead | pump.py:263 | estimating the floors of the head proposed for n floors gives n back |
| Requirements.EstimateInvertsFaucetFlow | pump.py:264 | estimating the faucets of the flow proposed for n faucets gives n back |
| Translations.TableFor | translations.py:284-287 | the Chinese table is read exactly when the session language is `繁體中文`; every other case reads the English table |
| Translations.LanguageFallback | translations.py:284-287 | a session without a language, and one whose language has no table, read the English table |
| Translations.UnknownKeyIsItself | translations.py:290 | a key neither table holds is shown as itself |
| Translations.GetTextWith | translations.py:290-293 | without format arguments the looked-up text is returned verbatim; with arguments it is handed to `format` |
| Translations.EnglishCategoryTexts | translations.py:37-45 | the English table names each catalogue category by its own key |
| Translations.ChineseCategoryTexts | translations.py:168-176 | the Chinese table's category texts, in catalogue-category order |
| Translations.EnglishCategoryTextsDistinct | translations.py:25-45 | the English category texts are pairwise different and differ from the "All Categories" text |
| Translations.ChineseCategoryTextsDistinct | translations.py:156-176 | the Chinese category texts are pairwise different and differ from the "All Categories" text |
| Translations.CategoryTextsDistinct | translations.py:270-293 | in every session language the category texts are pairwise different and none is the "All Categories" text |
| Categories.NormalizeCategory | pump.py:126-128 | the cleaned category is stripped and never `nan`, `None` or `NaN`; a missing cell becomes blank; a text becomes its stripped form unless that spells a missing value, in which case it becomes blank |
| Categories.NormalizeCategoryIdempotent | pump.py:126-128 | cleaning a cleaned category changes nothing |
| Categories.CategoryValues | pump.py:126 | `astype(str)` of the category column, row by row |
| Categories.StripCell | pump.py:126 | the first overwrite always leaves a text |
| Categories.BlankMissing | pump.py:128 | the second overwrite leaves no missing-value spelling and keeps every other text |
| Categories.CleanInTwoSteps | pump.py:126-128 | the two overwrites together compute `NormalizeCategory` |
| Categories.NormalizeCategories | pump.py:124-128 | the in-place method keeps the columns and leaves every row's category cleaned, other cells unchanged |
| Categories.StrLeTotalPreorder | pump.py:143 | Python's string order, by code point, is a total preorder |
| Categories.DropdownCategoriesSpec | pump.py:130-143 | the dropdown lists exactly the distinct non-blank values that do not spell `nan`/`none` in any letter case, in strictly ascending order |
| Categories.CategoryOptions | pump.py:137-149 | the options are the "All Categories" text followed by each category's text in order; the reverse map's keys are exactly the options, each mapped to the last category shown by that text, or to the "All Categories" text |
| Categories.ReverseEntryRoundTrip | pump.py:143-149 | when the category texts are pairwise different, each shown category maps back to itself |
| Categories.ReverseEntryAll | pump.py:138-149 | when no category shows as the "All Categories" text, that text maps back to itself |
| Categories.KnownTextsDiffer | translations.py:37-45 | two different catalogue categories show differently, and neither as "All Categories" |
| Categories.KnownCategoriesRoundTrip | pump.py:143-149 | for distinct catalogue categories the reverse map returns each category and the "All Categories" entry to itself, in either language |
| Categories.ChosenCategory | pump.py:161-164 | the searched category is the reverse map's entry for the shown text, or the shown text itself |
| Categories.CategoryValuesAfterCleaning | pump.py:126-130 | reading the category column after the clean-up gives each row's cleaned category, in row order |
| Categories.CategoryDropdown | pump.py:124-155 | with a category column, the column is cleaned in place and the options and reverse map are those of `CategoryOptions` over the sorted listed cleaned categories of the catalogue; without one, the catalogue is untouched and only the "All Categories" entry is offered, mapped to itself |
| Filter.SettingOf | pump.py:367 | the category filter compares against the "All Categories" text of the session language |
| Filter.UpdateWritesOneColumn | pump.py:338-391 | each coercion stage changes only the column it overwrites, and a stage that coerces nothing changes nothing |
| Filter.MaskReadsOneColumn | pump.py:346-392 | each mask depends only on the cell of its own column |
| Filter.UpdateKeepsEarlierMasks | pump.py:333-392 | no coercion changes a column that an earlier mask reads |
| Filter.UpdateKeepsAdmission | pump.py:333-392 | a later coercion does not change whether a row passes the earlier masks |
| Filter.StageIsMaskedUpdate | pump.py:338-392 | every stage is a per-row update followed by a mask |
| Filter.StageStep | pump.py:333-392 | applying stage k to the specification of the first k stages gives the specification of the first k + 1 |
| Filter.FirstStages | pump.py:333 | before any stage the copy is the catalogue |
| Filter.StagedIsSelected | pump.py:333-392 | running the eleven stages one after another gives `Filtered` |
| Filter.FrequencyPhaseStages | pump.py:336-364 | the `try` block: each of frequency and phase is coerced when its column exists (the catalogue was coerced in place at lines 168 and 176 already), and both equality masks run only when both columns exist |
| Filter.RatedStages | pump.py:378-388 | coercions of rated flow and head with `fillna(0)`, then the threshold masks when the converted figures are positive |
| Filter.ParticleStages | pump.py:389-392 | coercion and threshold of the solid-passage diameter when a positive size is asked for and the column exists |
| Filter.FilterPumps | pump.py:333-392 | the staged filter returns `Filtered(catalogue rows)` together with the converted flow and head |
| Filter.PreparedColumns | pump.py:338-391 | in a kept row, rated flow and head are the coerced catalogue cells (missing as 0), frequency and phase are coerced when their columns exist, the diameter when its stage runs, and every other cell is the catalogue's |
| Filter.EarlyMasks | pump.py:342-368 | the frequency, phase and category masks on a coerced row test the catalogue row's parsed frequency, parsed phase and category |
| Filter.RatedMasks | pump.py:381-392 | the flow, head and diameter masks on a coerced row test the catalogue row's numbers, a missing or unreadable one counting as 0 |
| Filter.AdmittedIffQualifies | pump.py:333-392 | a coerced row passes every running mask exactly when its catalogue row meets every running condition |
| Filter.FilteredMembers | pump.py:333-392 | the result holds no more rows than the catalogue, and a row is in it exactly when it is the coerced form of a qualifying catalogue row |
| Filter.FilteredRatedNumeric | pump.py:381-382 | every kept row has numbers in its rated flow and head cells |
| Filter.IdleSearchKeepsAll | pump.py:342-389 | with no active condition every catalogue row is kept, in order |
| Ranking.Score | pump.py:415-419 | the match score is not negative, and is zero exactly when rated flow and head equal the request |
| Ranking.ScoreOrderTotalPreorder | pump.py:420 | ordering by match score is a total preorder |
| Ranking.FirstPresent | pump.py:426-433 | the first candidate column present, with none before it present; none exactly when no candidate is present |
| Ranking.SortColumnCases | pump.py:426-433 | the sort column is the one the `if`/`elif` chain picks: `id`, `ID`, `Model`, `Model No.` |
| Ranking.Recoerced | pump.py:409-412 | the ranking's coercion keeps the row count |
| Ranking.RankResults | pump.py:406-433 | the ranked rows are a permutation of the coerced results, sorted by the first identifier column present, or by match score when there is none |
| Ranking.RecoercedNumeric | pump.py:411-412 | the coercion changes no row whose rated cells are numbers already |
| Ranking.RankedPermutesFiltered | pump.py:381-412 | the ranked rows are a permutation of the rows the filter kept |
| Ranking.ShownCount | pump.py:436 | `max(1, ⌊n·p/100⌋)`: 1 when n·p < 100, and otherwise the k with k·100 ≤ n·p < (k+1)·100 |
| Ranking.ShownCountBounds | pump.py:436 | for a non-empty result and a slider value in 5..100 the count is between 1 and n, and n at 100 percent |
| Ranking.Shown | pump.py:437 | `head(k)`: the leading k rows, or all of them when there are fewer |
| Ranking.ShownIsWindow | pump.py:436-437 | for a non-empty result the shown rows are exactly the first `ShownCount` ranked rows, and all of them at 100 percent |
| Display.AppendNew | pump.py:449-475 | appending each admitted candidate that is not listed yet keeps the prefix, adds exactly the admitted candidates, and adds no repeat |
| Display.AppendEach | pump.py:449-475 | the append loop computes `AppendNew` |
| Display.ColumnsToShow | pump.py:440-479 | the method builds the display list group by group, as `DisplayColumns` specifies |
| Display.EssentialPartSpec | pump.py:443-451 | the essential part lists exactly the present essential columns, once each |
| Display.SeparateColumns | config.py:39-48 | `Category`, `DB ID` and `Product Link` belong to none of the column groups they are kept apart from |
| Display.OthersMembers | pump.py:440-475 | before `Product Link`, the list holds exactly the present columns that are essential, or selected and not `Product Link` |
| Display.DisplayColumnsMembers | pump.py:440-479 | the table shows exactly the present columns that are essential or selected |
| Display.DisplayColumnsDistinct | pump.py:440-479 | no column is shown twice |
| Display.DisplayColumnsFirst | pump.py:443-446 | `Model`, or failing that `Model No.`, is the first column shown |
| Display.DisplayColumnsLast | pump.py:472-479 | `Product Link`, when shown, is the last column |
| Display.OptionalColumns | pump.py:187-190 | the columns offered for selection are the catalogue columns other than `DB ID` and the essential ones |
| Display.DatabaseIdHidden | pump.py:186-190 | a selection drawn from the offered columns never shows `DB ID` |
| Display.Project | pump.py:481-486 | no table for an empty column list; otherwise the shown rows cut down to exactly the display columns, cells unchanged |
| Display.DistinctValues | pump.py:595-596 | `dropna().unique()`: no value twice, exactly the values that are not missing, listed in the order they first occur |
| Display.ModelsWithCurves | pump.py:594-597 | nothing without a model column; otherwise the distinct models of the displayed rows that also occur in the curve table, in the order they first appear in the displayed rows |
| Display.AvailableCurveModels | pump.py:633-636 | the loop keeps, in selection order, the selected models that occur in the curve table |
| Display.AvailableCurveModelsSpec | pump.py:633-636 | a model is kept exactly when it is selected, not missing, and in the curve table |
| Curves.HeadColumns | visualization.py:29 | the head columns are exactly the columns ending in `M` other than `Max Head(M)` |
| Curves.PressureColumns | visualization.py:77 | at most three pressure columns are examined |
| Curves.PressureColumnsSpec | visualization.py:32 | the examined columns are the first min(3, n) of the n columns whose name contains `Kg/cm²`, in table order |
| Curves.Samples | visualization.py:50-59 | no more samples than head columns |
| Curves.SamplesMembers | visualization.py:50-59 | every sample has a positive flow, and the samples are exactly what the head columns give |
| Curves.HeadSampleOf | visualization.py:52-56 | a column whose name parses after its `M`s are removed, holding a positive number, gives the sample (flow, head) |
| Curves.ZipAt | visualization.py:63 | `zip` pairs the flows and heads position by position |
| Curves.CollectSamples | visualization.py:47-59 | the loop's two lists have equal length and zip to the samples in column order |
| Curves.PointLeTotalOrder | visualization.py:63 | Python's tuple order on points is a total order |
| Curves.HeadCurveSpec | visualization.py:61-64 | the head curve is sorted by flow, then head, is a permutation of the samples, and is the only sorted arrangement of them |
| Curves.HeadCurveExample | visualization.py:50-64 | columns `10M`, `20M`, `5M` holding 40, 30, 50 give the curve (30, 20), (40, 10), (50, 5) |
| Curves.PressureSamples | visualization.py:76-91 | no more pressure points than examined columns |
| Curves.PressureMembers | visualization.py:79-88 | every pressure point has a positive flow, and the points are exactly what the examined columns give |
| Curves.PressurePoints | visualization.py:76-91 | the loop produces the pressure points of the first three pressure columns, at most three |
| Curves.Marker | visualization.py:94 | the operating point is drawn exactly when both user flow and user head are positive, at (flow, head) |
| Curves.FirstRow | visualization.py:37-43 | the first curve row of the model, with no earlier row of it; none exactly when the model has no row |
| Curves.PumpCurveChart | visualization.py:9-119 | no chart exactly when the curve table lacks `Model No.` or the model has no row; otherwise the head curve and pressure points of its first row, and the marker |
| Curves.SeriesOf | visualization.py:143-181 | the loop body yields the series of the model at position i: none without a curve row or a usable sample, else its head curve in colour i mod 8 |
| Curves.ComparisonChartOf | visualization.py:121-209 | no chart exactly when the curve table lacks `Model No.` and there is a model to look up; otherwise the series of the drawable models in input order, and the marker |
| Curves.EntriesMembers | visualization.py:142-181 | at most one series per input model, and a series is present exactly when some input model gives it |
| Curves.EntrySpec | visualization.py:142-181 | the model at input position i is drawn exactly when it has a curve row with a non-empty head curve, with that curve and colour `CHART_COLORS[i mod 8]`, skipped models counted |
| Validation.MissingColumns | data_loader.py:112 | a column is reported exactly when it is required and absent; nothing is reported exactly when all are present |
| Validation.Judge | data_loader.py:112-114 | the verdict is valid exactly when all required columns are present, and then it carries no message |
| Validation.JudgeMessage | data_loader.py:113-114 | an invalid verdict's message is the prefix and the missing columns in required order, joined by ", " |
| Validation.PumpMissingInOrder | data_loader.py:109-114 | the missing pump columns are listed in the order `Model`, `Q Rated/LPM`, `Head Rated/M` |
| Validation.CoercedRated | data_loader.py:118-119 | the coercion keeps the row count |
| Validation.PumpValidationEffect | data_loader.py:117-123 | column list and row count are kept, an invalid table is untouched, only the two rated columns change, and each rated cell becomes its `to_numeric` value or missing |
| Validation.PumpValidationIdempotent | data_loader.py:101-123 | a validated catalogue passes again and is left as the first pass left it |
| Validation.ValidatedHasSortColumn | data_loader.py:109 | a validated catalogue always has a column for the final sort |
| Validation.ValidatePumpData | data_loader.py:101-123 | the in-place method returns the verdict and leaves the table that `PumpValidation` specifies |
| Validation.CurveValidation | data_loader.py:125-140 | valid exactly when `Model No.` is present, and otherwise the message names it |
| Table.ToNumeric | pump.py:381 | a number is kept and a missing cell stays missing |
| Table.Coerce | pump.py:381-382 | the coerced cell is a number or missing, always a number after `fillna(0)`, and the parsed value when there is one |
| Table.CoerceIdempotent | data_loader.py:118-119 | coercing a coerced cell changes nothing |
| Table.CellLeTotalPreorder | pump.py:426-433 | the `sort_values` order on cells is a total preorder |
| Table.ColumnLeTotalPreorder | pump.py:426-433 | ordering rows by one column is a total preorder |
| Table.SetCell | pump.py:381 | setting a cell changes that cell and no other |
| Frames.MapColumn | pump.py:381-382 | `df[col] = f(df[col])` keeps the row count, sets each row's cell to f of the old one, and keeps every other cell |
| Frames.DataFrame.OverwriteColumn | data_loader.py:118-119 | an in-place column overwrite keeps the columns and replaces the rows by `MapColumn` of the old rows |
| Strings.Strip | pump.py:126 | `str.strip`: a trimmed slice that neither starts nor ends with white space |
| Strings.StripIdempotent | pump.py:130 | stripping a stripped string changes nothing |
| Strings.RemoveCharSpec | visualization.py:52 | `replace('M', '')` removes every `M` and keeps every other character |
| Strings.RemoveCharAppend | visualization.py:52 | removing a character from a concatenation removes it from each part, in order, and a single character is dropped exactly when it is the removed one |
| Strings.RemoveCharCounts | visualization.py:52 | every other character is kept as often as it occurs |
| Strings.SplitFirstSpec | visualization.py:79 | `split('Kg/cm²')[0]` ends where the separator first occurs, or is the whole name |
| Strings.AsciiLower | pump.py:130 | `lower()` on ASCII letters, position by position |
| Seqs.Keep | pump.py:346 | a boolean mask keeps exactly the rows that pass, as a sub-multiset |
| Seqs.Unique | pump.py:130 | `unique()`: every value once, and no other value |
| Seqs.UniqueOrder | pump.py:595 | `unique()` lists the values in the order they first occur |
| Seqs.KeepByFirstOccurrence | pump.py:597 | a comprehension with a test keeps the order of first occurrence |
| Sorting.Sort | pump.py:420 | the sorted rows are a permutation of their input |
| Sorting.SortSorted | pump.py:427-433 | under a total preorder, the result of `Sort` is ordered |
| Sorting.SortedUnique | visualization.py:63 | under a total order, two sorted permutations of the same values are equal |

## Left out

- Streamlit widgets, `session_state`, reruns, cache clearing, CSS, the column selection checkboxes, the column formatting and the `data_editor` selection (pump.py:24-118, 195-202, 242-259, 266-331, 488-591, 598-615): user interface; the values they supply are parameters of the model.
- The frequency and phase dropdown options (pump.py:169-172, 177-180): user interface; a `Query` carries the chosen values, with `None` for the "Show All" entries. The in-place coercions of the two columns at pump.py:168 and 176 are part of the filter's stages 0 and 1.
- Loading the tables from Supabase or CSV (data_loader.py:11-99) and the `dotenv` reads of config.py:1-9: network, file and environment I/O.
- Plotly figures and layouts (visualization.py:34, 66-73, 82-88, 95-113, 174-181, 185-203): each chart is modelled as the data it plots.
- Logging calls: no effect on any result.
- Python's `str.format` in `get_text` (translations.py:293): the format mini-language; the formatting is an uninterpreted `format` parameter.
- Python `float()` of a column name and pandas `to_numeric` of a text cell: abstracted as uninterpreted parsers; `str()` of a number is the parameter `show`.
- Floating-point arithmetic: quantities are exact reals.
- Strings.AsciiLower: lower-cases ASCII letters only. Python's `lower()` maps other scripts too, but no other character lower-cases to a letter of `nan` or `none`, so the dropdown test comes out the same.
- Ranking.ShownCount: takes the exact floor of n·p/100. The source's `int(len(results) * (p / 100))` can fall one below it in floating point (n = 100, p = 29 gives 28).
- Ranking.RankResults: states no order among rows with equal keys, because pandas' default sort is not stable.
- Table.CellLe: puts numbers before texts in a column of mixed type; pandas raises a `TypeError` there.
- Filter.FilterPumps: requires the rated columns, which validation guarantees (data_loader.py:109). It also requires a `Category` column whenever a category other than "All Categories" is chosen, since the dropdown offers no other category without that column; the source would raise a `KeyError` instead.
- Filter.FilterPumps: a `frequency` or `phase` the dropdown offers as a string that does not parse (pump.py:347-348, 358-359) is not modelled; the query holds the parsed number.
- Validation.ValidatePumpData: the `Error converting data types` branch (data_loader.py:120-121) is not modelled, because `to_numeric(errors="coerce")` raises on none of the modelled cells.
- The exceptions that `create_pump_curve_chart` and `create_comparison_chart` catch per column are the parser returning `None`; the outer `except` returning `None` is modelled only for the missing `Model No.` column.
- `DEFAULT_VALUES`, `ERROR_MESSAGES`, `PAGE_CONFIG` and `DATA_LOADING` of config.py: configuration of the user interface and of loading, outside the modelled core.
- The reset button (pump.py:102-107), and the choice between one chart and a comparison with the individual charts that follow it (pump.py:617-632, 638-684): user interface around the modelled chart data.

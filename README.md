# FinancialLadder chart data, in Dafny

This project models the data layer of FinancialLadder's three chart builders in
`visualization.py`: `create_pie_chart`, `create_bar_chart` and
`create_ladder_chart`. They take an allocation, which maps each bond fund to its
fraction of the portfolio, and a table of fund data. The model covers what the
builders compute before any Plotly call:

- the percentages and labels of the pie;
- each fund's maturity midpoint, read from its range text (`"7-8"`,
  `"0-0.25"`, `"5"`);
- the bar chart's per-fund records and its stable sort by midpoint;
- the ladder's amounts, yields and incomes, its sort by midpoint, its colour
  index and its connecting line.

Modules:

- `Outcomes`: `Option` and `Result`.
- `Text`: Python's `str.split` on one character, its inverse `join`, and the
  decimal numerals `float()` is given here (`digits`, `digits.digits`,
  `digits.`, `.digits`).
- `Maturity`: `Midpoint`, the range parser both builders repeat.
- `Ordering`: stable ordering of positions by a real key, which is how
  `sorted(..., key=...)` works, plus sums over reorderings.
- `Charts`: the three builders.
  - Pure parts are functions.
  - The Python loops are methods (`CollectRecords`, `CreateBarChart`,
    `CollectMaturities`, `AddLadderBars`, `CreateLadderChart`), each proved
    against the function that specifies it.
- `FundTable`: the fixed maturity table of `bond_utils.py` and the tests'
  allocation, worked through the model.

Python exceptions are modelled as `ChartError` values:

| Python | model |
|---|---|
| `bond_data.loc` on a missing fund (`KeyError`) | `MissingFund(fund)` |
| `float()` on a piece that is not a numeral (`ValueError`) | `BadNumeral(piece)`; with two pieces the first is converted first |
| `colors[i % len(colors)]` with an empty palette (`ZeroDivisionError`) | `EmptyPalette`, as soon as one row is coloured |

An allocation is a sequence of `Holding(fund, fraction)`, i.e. the
dictionary's items in iteration order; `IsDict` says its keys are distinct.
Numbers are `real`.

The ladder's sort (`sort_values`, pandas' default quicksort) does not promise
an order for ties. Its lemmas therefore state only non-decreasing midpoints,
each position used once, and the per-row facts. The bar chart's `sorted` is
stable, and its lemmas state the tie order too.

## Model

| member | source | states |
|---|---|---|
| Text.Split | visualization.py:53 | `split('-')` gives one piece more than there are separators, and no piece holds a separator |
| Text.JoinSplit | visualization.py:53 | joining the pieces of a split with the separator gives back the range text |
| Text.SplitJoin | visualization.py:53 | splitting a join of separator-free pieces gives back exactly those pieces |
| Text.SplitNoSep | visualization.py:53 | a range without `-` splits into itself alone |
| Text.SplitPrefix | visualization.py:53 | a separator-free piece followed by the separator is split off as the first piece |
| Text.ParseFloat | visualization.py:55 | the definition of `float()` on a range piece: an unsigned decimal numeral gives its value, which is never negative, and anything else is refused; the forms and values are in `ParseFloatDigits`, `ParseFloatDecimal`, `ParseFloatAccepts` and `ParseFloatOnlyForms` |
| Text.ParseFloatDigits | visualization.py:55 | a non-empty digit string is accepted as a number, with its decimal value |
| Text.ParseFloatDecimal | visualization.py:55 | `whole.frac` is accepted, with value whole + frac / 10^len(frac) |
| Text.ParseFloatAccepts | visualization.py:55 | an accepted numeral is non-empty, holds only digits and `.` (so never `-`), and is non-negative |
| Text.ParseFloatOnlyForms | visualization.py:55 | an accepted piece is either a digit string with its digit value or `w.f` with its decimal value, so `"1.2.3"` and `"."` are refused |
| Maturity.Midpoint | visualization.py:53-57 | the definition of the midpoint parser, used by both builders (also visualization.py:98-102); a refused piece is returned and holds no `-`; the cases are in `MidpointOfRange`, `MidpointOfSingle`, `MidpointOfLonger`, `MidpointRangeFails` and `MidpointSingleFails` |
| Maturity.MidpointOfRange | visualization.py:53-55 | for two numeral pieces `lo-hi` the midpoint is their average, which lies between them |
| Maturity.MidpointOfSingle | visualization.py:56-57 | text without `-` that is a numeral is its own midpoint |
| Maturity.MidpointOfLonger | visualization.py:53-57 | with three or more pieces only the first is converted and the rest are ignored |
| Maturity.MidpointRangeFails | visualization.py:53-55 | for `lo-hi` with a refused piece the result is the error of `lo` if `lo` is refused, otherwise of `hi` |
| Maturity.MidpointSingleFails | visualization.py:56-57 | text without `-` that is refused fails with the text itself |
| Ordering.StableOrder | visualization.py:66 | the sorted order is a permutation of the positions, non-decreasing by key, with ties in position order |
| Ordering.StablySortedUnique | visualization.py:66 | two stably sorted sequences over the same positions are equal |
| Ordering.StableOrderUnique | visualization.py:66 | every permutation that is stably sorted is exactly `StableOrder`, so any stable sort gives the same order |
| Ordering.AdjacentSorted | visualization.py:66 | neighbours in order is enough for the whole sequence to be stably sorted |
| Ordering.StableOrderSum | visualization.py:66 | reading values through the sorted order keeps their sum |
| Charts.PieChart | visualization.py:10-14 | one label and one value per key; value k is the k-th fraction × 100 and label k pairs key k with value k |
| Charts.PercentagesTotal | visualization.py:11 | the percentages add up to 100 times the allocation's total |
| Charts.PieChartTotal | visualization.py:10-14 | the pie's values add up to 100 times the allocation's total |
| Charts.FundMidpoint | visualization.py:51-57 | a successful midpoint lookup implies the fund is in the table |
| Charts.MaturityData | visualization.py:48-63 | on success there is one record per key, and each has that key's fund, fraction × 100 and range |
| Charts.MaturityDataMidpoints | visualization.py:52-61 | each record holds the midpoint of its own fund's range |
| Charts.MaturityDataResolved | visualization.py:48-63 | when every fund resolves, the records are exactly the keys' records with those midpoints |
| Charts.MaturityDataErrors | visualization.py:50-57 | the lookups fail exactly when some fund fails, and then with the error of the first fund that fails |
| Charts.MaturityDataExtend | visualization.py:50-63 | one more fund that resolves adds its record at the end |
| Charts.MaturityDataErrorPersists | visualization.py:50-57 | once a prefix of the keys fails, the whole loop fails with that error |
| Charts.CollectRecords | visualization.py:48-63 | the loop that fills `maturity_data` returns exactly `MaturityData`, with its error when a lookup fails |
| Charts.BarChart | visualization.py:43-77 | the definition of the bar chart's data: the traces of the records in stable midpoint order, one per key, or the lookup error; properties in `BarChartCoversKeys`, `BarChartSorted`, `BarChartNames`, `BarHeights` and `BarChartTotal` |
| Charts.TraceFor | visualization.py:72-77 | the definition of one bar trace: x the fund, y its percentage, and the name `fund (range years)`; see `BarChartNames` |
| Charts.BarChartNames | visualization.py:75 | each bar's legend name is its fund followed by that fund's range and "years" |
| Charts.BarChartCoversKeys | visualization.py:48-77 | every key gets a bar with y = fraction × 100, and no fund gets two bars |
| Charts.BarChartSorted | visualization.py:66 | in chart order midpoints never decrease, and funds with equal midpoints keep their key order |
| Charts.BarHeights | visualization.py:71-77 | the bars' heights are the percentages read through the sorted order |
| Charts.BarChartTotal | visualization.py:71-77 | the bar heights add up to 100 times the allocation's total |
| Charts.CreateBarChart | visualization.py:43-77 | the loops of `create_bar_chart` produce exactly `BarChart`: the same bars, or the same error |
| Charts.Amounts | visualization.py:105 | the definition of `amounts`: amount k is fraction k times the investment, in key order (row by row in `FrameRow`) |
| Charts.Yields | visualization.py:106 | the definition of `yields`: yield k is the table's yield for fund k (see `FrameRow`) |
| Charts.Incomes | visualization.py:109 | the definition of `incomes`: income k is amount k times yield k over 100 (see `FrameRow`) |
| Charts.Frame | visualization.py:112-118 | the definition of `ladder_df`: one row per key in key order, all columns of that length; its rows are described by `FrameRow` |
| Charts.RowBars | visualization.py:130-138 | the definition of the `iterrows` bar loop's output: bar k is the frame row at position k, coloured by that position; see `LadderRows`, `LadderColours` and `RowBarsPositions` |
| Charts.LadderChart | visualization.py:89-146 | the definition of the ladder's data: on success one bar and one line point per key; properties in `LadderChartErrors`, `LadderRows`, `LadderMidpoints`, `LadderSorted`, `LadderColours`, `LadderLine` and `LadderTotal` |
| Charts.AmountsTotal | visualization.py:105 | the amounts add up to the investment times the allocation's total |
| Charts.RowBarsPositions | visualization.py:130 | the bars stand at the frame positions they were built from |
| Charts.LadderChartErrors | visualization.py:96-137 | the ladder fails exactly when a lookup fails or an empty palette has a row to colour, and a lookup error is passed on unchanged |
| Charts.FrameRow | visualization.py:105-109 | a frame row holds its key's fund, amount = fraction × investment, that fund's yield, and income = amount × yield / 100 |
| Charts.LadderRows | visualization.py:105-138 | one bar per key, the positions a permutation, each bar its own key's row |
| Charts.LadderMidpoints | visualization.py:96-103 | each ladder bar stands at its own fund's midpoint |
| Charts.LadderSorted | visualization.py:121 | the ladder bars' midpoints never decrease |
| Charts.LadderColours | visualization.py:137 | each bar's colour is `palette[position mod len(palette)]`, by original position and not by chart place |
| Charts.LadderLine | visualization.py:141-146 | the line's x values are the bars' midpoints and its y values their amounts, in chart order |
| Charts.LadderTotal | visualization.py:141-146 | the line's amounts add up to the investment times the allocation's total |
| Charts.CollectMaturities | visualization.py:94-103 | the `maturities` loop returns the midpoints of `MaturityData`, or its error |
| Charts.AddLadderBars | visualization.py:130-138 | the bar loop returns `RowBars` in the sorted order, or `EmptyPalette` when there is a row and no colour |
| Charts.CreateLadderChart | visualization.py:89-146 | the steps of `create_ladder_chart` produce exactly `LadderChart`: the same bars and line, or the same error |
| FundTable.MidpointBills | visualization.py:53-55 | `"0-0.25"` has midpoint 0.125 |
| FundTable.MidpointEightTen | visualization.py:53-55 | `"8-10"` has midpoint 9 |
| FundTable.MidpointSingle | visualization.py:56-57 | `"5"` has midpoint 5 |
| FundTable.MidpointThreePieces | visualization.py:53-57 | `"1-2-3"` has midpoint 1: three pieces, so only the first is read |
| FundTable.MidpointLeadingDash | visualization.py:53-55 | `"-5"` fails on its empty first piece, as `float('')` does |
| FundTable.MidpointSevenEight | bond_utils.py:25 | BND's range `"7-8"` has midpoint 7.5 |
| FundTable.MidpointBNDX | bond_utils.py:26 | `"8-9"` has midpoint 8.5 |
| FundTable.MidpointVFIDX | bond_utils.py:27 | `"5-6"` has midpoint 5.5 |
| FundTable.MidpointVFSUX | bond_utils.py:28 | `"2-3"` has midpoint 2.5 |
| FundTable.MidpointVGUS | bond_utils.py:29 | `"0-1"` has midpoint 0.5 |
| FundTable.FourFundsRecords | tests/test_visualization.py:36-41 | the four non-zero funds resolve to their records: percentages 35, 30, 20, 15 and midpoints 7.5, 8.5, 5.5, 2.5 |
| FundTable.SixFundsRecords | tests/test_visualization.py:36-44 | all six of the tests' funds resolve, the two zero ones included |
| FundTable.FourFundsOrder | visualization.py:66 | the four midpoints sort to positions 3, 2, 0, 1 |
| FundTable.SixFundsOrder | visualization.py:66 | the six midpoints sort to positions 5, 4, 3, 2, 0, 1 |
| FundTable.FourFundsBarChart | tests/test_visualization.py:79-85 | the bars come out as VFSUX, VFIDX, BND, BNDX with y 15, 20, 35, 30 |
| FundTable.FourFundsLadder | tests/test_visualization.py:107-110 | at 1,000,000 the line is x = [2.5, 5.5, 7.5, 8.5], y = [150000, 200000, 350000, 300000], and the bars stand at positions 3, 2, 0, 1 |
| FundTable.SixFundsBarChartKeepsZeros | visualization.py:50 | with the zero funds in the allocation there are six bars, VBIL and VGUS first with y 0 |
| FundTable.SixFundsLadderKeepsZeros | visualization.py:94 | likewise the ladder line starts at the two zero amounts, at midpoints 0.125 and 0.5 |
| FundTable.SixFundsPie | visualization.py:10-11 | the pie keeps the zero values: [35, 30, 20, 15, 0, 0] |

## Left out

- The Plotly figures, layouts, hover templates and marker styles are not modelled. A bar or a line is modelled only by the data passed to it.
- Number formatting is not modelled. `:.1f` in the pie labels and `:.2f` in the ladder text are rendering through a foreign library; `PieLabel` keeps the fund and the unformatted percentage.
- The palette contents (`px.colors.qualitative.Safe`, `px.colors.sequential.Viridis`) are not modelled. The palette is a parameter.
- IEEE floating point is not modelled. Numbers are mathematical reals, so the sums and products carry no rounding.
- Text.ParseFloat: accepts only unsigned decimal numerals (`5`, `0.25`, `5.`, `.5`). Python's `float()` also accepts signs, exponents, surrounding whitespace, underscores, `inf` and `nan`. Such texts are treated here as errors.
- Charts.LadderChart: fixes the order of tied midpoints to position order. pandas leaves that order open, so the ladder lemmas state only non-decreasing midpoints and a permutation.
- A missing or NaN maturity range in the table (a non-string `maturity_range`) is not modelled. The table maps each fund to a string range and a yield.
- `bond_utils.get_bond_data` (a network fetch with a fallback table) is left out. Only its fixed ranges and fallback yields are used, as `FundTable.Table`.
- `app.py` is left out. It is the Streamlit page.
- The allocation engine it imports is not part of this model.
- The tests in `tests/test_visualization.py` disagree with the code on zero-allocation funds. They expect those funds to be dropped: 4 pie labels, 4 bars, and 4 bars plus the line. The code iterates every key of the allocation. The model follows the code, and `FundTable.SixFundsBarChartKeepsZeros`, `FundTable.SixFundsLadderKeepsZeros` and `FundTable.SixFundsPie` show that the zero funds are kept.

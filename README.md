# Lattice analysis bookkeeping, modelled in Dafny

This project models the deterministic bookkeeping of an analysis pipeline for
lattice gauge theory with fermions in the antisymmetric representation. The
numerics are left out; the model covers five scripts.

- **Shared plotting helpers** (`src/plots_common.py`):
  - the colour, marker and label tables for the gauge couplings (betas) and the meson channels;
  - the generators that pair each beta or channel with its style;
  - the check that a set of ensemble records holds a single beta.
- **Extrapolation input** (`src/extrapolation_decay.py`):
  - `prepare_data` filters the ensemble records. It lays out each kept record as rows of bootstrap replicas followed by the central value.
  - `main` splits each fitted parameter's row back into replicas and central value before writing it.
- **Topological-charge table** (`src/tables/Q_table.py`):
  - `read_files` sorts CSV frames into charge data and scale data, then inner-joins them on `ensemble_name`.
  - `format_table` writes one LaTeX line per ensemble. It opens every run of equal 4-character name prefixes with `\hline` and writes placeholders where the scale `w0` is NaN.
- **Massless continuum table** (`src/tables/continuum_massless_mass.py`): a header, one line per channel and a footer.
- **Meson-mass plot** (`src/plots/w0mps_vs_meson.py`):
  - the walk of the subplot cursor over a 3×2 grid;
  - the per-beta and per-channel selection of records and fit parameters;
  - the error band of `plot_axpb_y`.

Modules follow the scripts:
- `Common` holds records, errors, samples and string joins.
- `PlotsCommon`, `ExtrapolationDecay`, `QTable`, `ContinuumMasslessMass` and `W0MpsVsMeson` hold one script each.

The loops of the source are methods, each proved equal to a specification function:
- `PrepareData`, `ReadFiles`, both `FormatTable`s;
- `CollectPoints`, `CollectSeries`, `CollectBands`;
- `AxpbBand`, which fills arrays in place;
- `Plot`, with its cursor update.

The properties are lemmas about those functions.

Python exceptions are the `Err` side of a `Result`:
- `KeyError` for a missing dictionary key;
- `ValueError`, including numpy's length mismatch, which is `BroadcastError`;
- `IndexError`.

A generator that raises part-way is modelled as the items it yielded plus the exception.

The following are passed in as function parameters:
- the floating-point library behaviour: uncertainty formatting (`.02uSL`), fixed-point formatting (`.02f`), NaN tests, standard deviation;
- the renormalisation Z factor, which depends on a function whose source is not part of this model.

## Model

| member | source | states |
|---|---|---|
| PlotsCommon.BetaColor | src/plots_common.py:120-128 | a known beta gets the colour code of its position in the beta table ("C0".."C5"); any other input comes back unchanged |
| PlotsCommon.ChannelColor | src/plots_common.py:131-140 | a known channel gets "C0".."C6" by its position; every other label is returned as is |
| PlotsCommon.ChTag | src/plots_common.py:143-146 | only "rhoE1" is relabelled (to `v^\prime`); every other channel name is its own label |
| PlotsCommon.BetaMarker | src/plots_common.py:149-150 | defined exactly on the six known betas, with the marker of the same position; any other beta raises KeyError for that beta |
| PlotsCommon.ChannelMarker | src/plots_common.py:153-162 | defined exactly on the seven known channels; any other channel raises KeyError for that name |
| PlotsCommon.BetaStylesDistinct | src/plots_common.py:120-150 | two different known betas differ both in colour and in marker |
| PlotsCommon.ChannelStylesDistinct | src/plots_common.py:131-162 | two different known channels differ both in colour and in marker |
| PlotsCommon.BetaIterator | src/plots_common.py:165-167 | yields, in input order, one (beta, colour, marker) triple per beta agreeing with the lookups; it runs to the end or raises the KeyError of the first unknown beta, after yielding exactly the betas before it |
| PlotsCommon.ChannelIterator | src/plots_common.py:170-172 | the same for channels: one triple per channel in order, or the KeyError of the first unknown channel |
| PlotsCommon.BetaIteratorCompletes | src/plots_common.py:165-167 | the beta generator finishes without raising exactly when every beta is known |
| PlotsCommon.GetSingleBeta | src/plots_common.py:188-192 | succeeds exactly when there is a record and all records share the first one's beta, and then returns that beta; otherwise (no record, or two betas) raises "Inconsistent betas found" |
| PlotsCommon.SingleBetaIff | src/plots_common.py:189-190 | the set of betas has exactly one element iff the records are non-empty and all agree |
| ExtrapolationDecay.Layout | src/extrapolation_decay.py:61-65 | a sample's row has R+1 slots: the R replicas in order, then the central value in slot R |
| ExtrapolationDecay.Reciprocals | src/extrapolation_decay.py:78 | elementwise reciprocal: each non-zero entry times its result is 1 |
| ExtrapolationDecay.ZReplicas | src/extrapolation_decay.py:53-55 | replica i of the Z factor uses plaquette replica i |
| ExtrapolationDecay.MPsSqrOf | src/extrapolation_decay.py:61-74 | `(w0 * m_ps) ** 2` succeeds iff the replica counts agree (else the broadcast ValueError); slot i is the square of the product of replicas i, slot R that of the central values |
| ExtrapolationDecay.FChSqrOf | src/extrapolation_decay.py:53-76 | `(w0 * f_ch) ** 2` succeeds iff the three replica counts agree; replica slot i renormalises with the Z factor of plaquette replica i, the central slot with that of the plaquette mean |
| ExtrapolationDecay.LatAOf | src/extrapolation_decay.py:61-78 | the `lat_a` row has one slot per w0 slot, each the reciprocal of its non-zero w0 entry |
| ExtrapolationDecay.RecordRows | src/extrapolation_decay.py:53-78 | a kept record yields its three rows exactly when the replica counts agree, each row laid out as above |
| ExtrapolationDecay.SquaredRowsNonNegative | src/extrapolation_decay.py:74-76 | every entry of the `m_ps_sqr` and `f_ch_sqr` rows is non-negative |
| ExtrapolationDecay.PrepareDatum | src/extrapolation_decay.py:43-59 | a record lacking `w0_samples`, `ps_mass_samples` or the channel's matrix element is skipped; the channel mass is then read unchecked (KeyError if absent); a NaN replica mean skips; a missing plaquette raises KeyError; otherwise the record's rows |
| ExtrapolationDecay.PrepareData | src/extrapolation_decay.py:38-80 | the loop returns exactly the specification `Prepare`: rows appended in input order, the first exception ending the pass |
| ExtrapolationDecay.PrepareStopsAtError | src/extrapolation_decay.py:43-78 | once a prefix of the records raises, the whole pass raises the same exception |
| ExtrapolationDecay.PrepareRowsFromKeptRecords | src/extrapolation_decay.py:43-80 | on success the three arrays have equal length, one row per kept record, and row k of each comes from the k-th kept record |
| ExtrapolationDecay.PrepareFailsAtFirstFailingRecord | src/extrapolation_decay.py:43-80 | the pass raises iff some record raises, and then with the exception of the first such record, every earlier one having passed |
| ExtrapolationDecay.SplitRow | src/extrapolation_decay.py:92-94 | `row[0:-1]` and `row[-1]` put back together give the row; an empty row raises IndexError |
| ExtrapolationDecay.SplitUndoesLayout | src/extrapolation_decay.py:61 | splitting a laid-out row gives back the sample's replicas and central value |
| ExtrapolationDecay.FieldNamesDistinct | src/extrapolation_decay.py:100-102 | the fields of the parameters F, L and W never share a name |
| ExtrapolationDecay.NotMetadataName | src/extrapolation_decay.py:98-102 | no parameter field is named "channel" or "chi_sqr_dof" |
| ExtrapolationDecay.WithParameterRow | src/extrapolation_decay.py:111-116 | writing one parameter stores its replicas under `_samples` and its central value under `_value`, which rejoin to its row, and keeps every other field |
| ExtrapolationDecay.KeepsRow | src/extrapolation_decay.py:111-116 | writing a second parameter leaves the first one's fields intact |
| ExtrapolationDecay.SamplesRecord | src/extrapolation_decay.py:108-117 | the samples record exists iff the three parameter rows are there and non-empty (else IndexError); its channel is `"m_" + channel` and each parameter's two fields rejoin to its row; the record holds exactly the channel and those six fields |
| ExtrapolationDecay.SamplesRecordRoundTrip | src/extrapolation_decay.py:110-116 | `_samples` is every column but the last and `_value` the last column |
| ExtrapolationDecay.MeanRecord | src/extrapolation_decay.py:92-103 | the mean record exists under the same condition; it holds channel `"m_" + channel`, the chi-square, and for each parameter the last column with the deviation of the others as uncertainty; no other key |
| QTable.Unrecognised | src/tables/Q_table.py:27-28 | the ValueError for a file that is neither kind names that file |
| QTable.UnrecognisedAsWrittenHidesFile | src/tables/Q_table.py:28 | as written, two different files give the same message, which the corrected message tells apart |
| QTable.AllRows | src/tables/Q_table.py:30-31 | the concatenation holds exactly the rows of the frames |
| QTable.MatchesExactly | src/tables/Q_table.py:33 | the matches of one charge row are the combinations with exactly the scale rows of the same name |
| QTable.InnerJoinExactly | src/tables/Q_table.py:33 | the join holds exactly the combinations of a charge row and a scale row with equal `ensemble_name`: nothing invented, nothing matching dropped |
| QTable.InnerJoinNames | src/tables/Q_table.py:33 | a name occurs in the join iff it occurs on both sides |
| QTable.SortSplitsByKind | src/tables/Q_table.py:21-26 | sorting succeeds iff every file has `Q0_value` or `w0_value`; then the charge files are those with `Q0_value` (which wins when both are present) and the scale files the rest, each in argument order |
| QTable.SortReportsFirst | src/tables/Q_table.py:21-28 | a failed sort raises the ValueError of the first file that is neither kind, every earlier file being recognised; the message is the corrected one naming the file (see Findings) |
| QTable.ReadResultOutcome | src/tables/Q_table.py:18-33 | `read_files` succeeds iff every file is recognised and both kinds are present, and then returns the inner join of all charge rows with all scale rows; with all files recognised, a missing kind is the concatenation ValueError |
| QTable.ReadFiles | src/tables/Q_table.py:18-33 | the loop returns exactly `ReadResult`, the specification above, with the corrected message for an unrecognised file |
| QTable.SortStopsAtError | src/tables/Q_table.py:27-28 | once a prefix of the files holds an unrecognised one, the whole sort raises that error |
| QTable.Prefix | src/tables/Q_table.py:49 | `ensemble_name[:4]` is a prefix of the name, of length 4 when the name has at least 4 characters, and the whole name when it has at most 4 |
| QTable.CellsWith | src/tables/Q_table.py:53-74 | seven cells: the name, Q0, sigma_Q and tau in math mode, then configurations, step and w0; when w0's value or deviation is NaN the last three are placeholders, otherwise the row's values |
| QTable.PlaceholderAsWrittenUnbalanced | src/tables/Q_table.py:55-56 | as written, the NaN placeholders for configurations and step hold an odd number of `$` |
| QTable.PlaceholdersBalanced | src/tables/Q_table.py:53-56 | with the corrected placeholder, every placeholder cell holds an even number of `$` |
| QTable.RowHasOneCellPerColumn | src/tables/Q_table.py:62-74 | a data line is its 7 cells, one per header column, joined by " & ", then the row end |
| QTable.DataLineIsNotHline | src/tables/Q_table.py:51 | a data line is never the `\hline` piece |
| QTable.FormatTable | src/tables/Q_table.py:36-76 | the output is header, then the content pieces, then footer; the content is `Content`, the specification of the loop, built with the corrected `$\cdots$` placeholder |
| QTable.FormatStep | src/tables/Q_table.py:48-74 | one pass adds `\hline` exactly when the prefix differs from the previous row's (or it is the first row), then the row's line |
| QTable.OneLinePerRow | src/tables/Q_table.py:48-74 | the content, with its `\hline`s removed, is exactly one data line per row, in row order |
| QTable.PiecesHlines | src/tables/Q_table.py:47-51 | the number of `\hline` pieces equals the number of runs of equal prefixes |
| QTable.OneHlinePerRun | src/tables/Q_table.py:47-51 | the table content has one `\hline` per run of equal 4-character prefixes |
| ContinuumMasslessMass.Cells | src/tables/continuum_massless_mass.py:21-28 | five math cells: `\rm` and the channel (only rhoE1 relabelled), then M, L and W formatted with uncertainty, then the chi-square to two places |
| ContinuumMasslessMass.RowHasOneCellPerColumn | src/tables/continuum_massless_mass.py:10-21 | a line is its 5 cells, one per header column, joined by " & ", then the row end |
| ContinuumMasslessMass.LineEndsRow | src/tables/continuum_massless_mass.py:21 | every line ends with the LaTeX row break and a newline |
| ContinuumMasslessMass.Lines | src/tables/continuum_massless_mass.py:18-29 | one line per input row, in input order |
| ContinuumMasslessMass.FormatTable | src/tables/continuum_massless_mass.py:8-31 | the output is header, the lines, footer; an empty input gives header and footer alone |
| W0MpsVsMeson.TruncDiv3 | src/plots/w0mps_vs_meson.py:137 | `int(a / 3)` rounds toward zero for either sign of a |
| W0MpsVsMeson.Cursor | src/plots/w0mps_vs_meson.py:136-138 | the cursor always lies in the 3×2 grid |
| W0MpsVsMeson.StepCursor | src/plots/w0mps_vs_meson.py:136-138 | the update at the end of pass k moves the cursor of pass k to that of pass k+1 |
| W0MpsVsMeson.CursorCoversGrid | src/plots/w0mps_vs_meson.py:80 | over the six channels the cursor visits (k mod 3, k div 3): every cell of the grid exactly once, down each column in turn |
| W0MpsVsMeson.CursorColumnMonotone | src/plots/w0mps_vs_meson.py:136-138 | the column never decreases |
| W0MpsVsMeson.Insert | src/plots/w0mps_vs_meson.py:87 | inserting a beta keeps the list strictly increasing and adds exactly that beta |
| W0MpsVsMeson.SortedBetas | src/plots/w0mps_vs_meson.py:87 | the betas, strictly increasing, holding exactly the records' betas |
| W0MpsVsMeson.SortedBetasEnumerate | src/plots/w0mps_vs_meson.py:87 | the list is the set of distinct betas, each once |
| W0MpsVsMeson.ZipMarkers | src/plots/w0mps_vs_meson.py:88-89 | the k-th pair is the k-th beta with the k-th marker, as many pairs as the shorter input |
| W0MpsVsMeson.AtMostSixBetas | src/plots/w0mps_vs_meson.py:87-89 | only the six smallest betas of the data are drawn (all of them when there are fewer), the k-th smallest with the k-th marker of `"o^vsx+"` |
| W0MpsVsMeson.SelectedRecords | src/plots/w0mps_vs_meson.py:91-96 | a record is drawn for beta b iff its beta is b and it has both `w0_samples` and `smear_ps_mass_samples` |
| W0MpsVsMeson.PointOfMeaning | src/plots/w0mps_vs_meson.py:95-101 | a point exists iff the replica counts agree and the channel's smeared mass is present (else the broadcast error, or KeyError when only the key is missing); it is the squared central products, with the spread of the squared replica products |
| W0MpsVsMeson.SeriesPointsSelected | src/plots/w0mps_vs_meson.py:90-101 | the `to_plot` loop computes the points of exactly the selected records |
| W0MpsVsMeson.PointsOfEach | src/plots/w0mps_vs_meson.py:90-101 | the points succeed iff every selected record's point does, and then correspond to them in order |
| W0MpsVsMeson.SeriesFor | src/plots/w0mps_vs_meson.py:89-114 | a series exists exactly when the beta's points succeed and are not empty, and then has the beta's colour and marker and those points; no point at all fails at the unpacking, a failing point with its own error |
| W0MpsVsMeson.SeriesList | src/plots/w0mps_vs_meson.py:89-114 | one series per (beta, marker) pair, in order |
| W0MpsVsMeson.SeriesListOkIff | src/plots/w0mps_vs_meson.py:89-114 | the series list succeeds exactly when every pair's series does; otherwise it fails with the error of the first failing pair |
| W0MpsVsMeson.CollectPoints | src/plots/w0mps_vs_meson.py:90-101 | the loop returns exactly `SeriesPoints` |
| W0MpsVsMeson.StopsAtError | src/plots/w0mps_vs_meson.py:95-101 | the first selected record whose point raises ends the loop with that error |
| W0MpsVsMeson.CollectSeries | src/plots/w0mps_vs_meson.py:89-114 | the loop returns exactly `SeriesList` |
| W0MpsVsMeson.ListStopsAtError | src/plots/w0mps_vs_meson.py:89-114 | the first failing series ends the loop with its error |
| W0MpsVsMeson.Column | src/plots/w0mps_vs_meson.py:55-56 | entry n of column i is A[n]·(1 + L[n]·x_i²) |
| W0MpsVsMeson.BandSpec | src/plots/w0mps_vs_meson.py:43-61 | fewer L than A replicas raise IndexError; one row or none gives the NaN band of an empty std/mean |
| W0MpsVsMeson.BandWidth | src/plots/w0mps_vs_meson.py:58-61 | at each x the band is 2·std wide, never negatively, with std over every row but the last, and it is centred on the mean of all rows; it is drawn at x² |
| W0MpsVsMeson.AxpbBand | src/plots/w0mps_vs_meson.py:43-61 | filling `Yfit`, `y_up` and `y_dn` in place gives exactly `BandSpec` |
| W0MpsVsMeson.FitsFor | src/plots/w0mps_vs_meson.py:116-117 | the fit records considered are exactly those of the panel's channel |
| W0MpsVsMeson.FitBandsFromChannel | src/plots/w0mps_vs_meson.py:116-125 | a panel's bands come one per own-channel fit record, in order, and fail iff one of those has fewer L than A replicas |
| W0MpsVsMeson.CollectBands | src/plots/w0mps_vs_meson.py:116-125 | the loop returns exactly `FitBands` |
| W0MpsVsMeson.BandsStopAtError | src/plots/w0mps_vs_meson.py:116-125 | the first own-channel record whose band raises ends the loop with IndexError |
| W0MpsVsMeson.PanelAt | src/plots/w0mps_vs_meson.py:80-125 | the k-th panel exists exactly when that channel's series list and bands do, and is then the k-th channel at the k-th cursor cell with them; otherwise the series error, or else the band error |
| W0MpsVsMeson.Panels | src/plots/w0mps_vs_meson.py:80-138 | one panel per channel in loop order |
| W0MpsVsMeson.PanelsOkIff | src/plots/w0mps_vs_meson.py:80-138 | the panels succeed exactly when every channel's panel does; otherwise the plot fails with the first failing panel's error |
| W0MpsVsMeson.Plot | src/plots/w0mps_vs_meson.py:69-138 | the loop, updating the cursor as the source does, returns exactly `Panels` over all six channels |
| W0MpsVsMeson.PanelsStopAtError | src/plots/w0mps_vs_meson.py:80-138 | the first failing panel ends the plot with its error |

## Left out

- Reading and writing files: argparse, `pd.read_csv`, `read_sample_files`, `dump_dict` / `dump_samples` and `print`. Frames, records and the written dictionaries are values here.
- Drawing with matplotlib: figures, axes, `errorbar`, `fill_between`, legends, styles and `save_or_show`. A panel records what would be drawn: channel, cell, series and bands. So `Plot` returning Ok does not mean the script succeeds: for a beta outside the six-entry table a series' colour is the beta itself, which `errorbar` would reject as a colour.
- The second figure (`ax2`) draws the same bands with other colours. It is not modelled separately.
- The x range of `plot_axpb_y` comes from the axes limits through `linspace`; the 1000 points are a parameter here.
- Floating point:
  - the Z factor with pi and `C_R`;
  - the NaN test of w0 in the charge table (a predicate parameter);
  - the standard deviation of replicas (a parameter, assumed non-negative where stated) and the NaN test of a replica mean (a predicate); the mean of the band rows in `plot_axpb_y` is computed exactly over the reals;
  - `.02uSL` and `.02f` formatting.
- `fitting.meson_M2` and the `Sample` class are not part of this model. Sample arithmetic is modelled as elementwise products of equal-length replica lists.
- numpy broadcasting of length-1 arrays is not modelled: different lengths are always the broadcast ValueError.
- ExtrapolationDecay.PrepareFailsAtFirstFailingRecord: the `np.array` built at the end of `prepare_data` is the list of rows here. When kept records have different replica counts, numpy 1.24 and later raises ValueError at that line (src/extrapolation_decay.py:80); the model returns the ragged rows instead, so "raises iff some record raises" does not cover that case.
- ExtrapolationDecay.Reciprocals: a zero w0 entry gives infinity in numpy. The model writes 0 there and states nothing about it.
- QTable.InnerJoinExactly: pandas also renames clashing columns with `_x`/`_y` suffixes, and it orders the rows of repeated names. The model states membership only; a joined row's cells are the two maps merged.
- `main` of `Q_table.py` sorts by `ensemble_name` and combines value/error columns with `combine_df_ufloats`. `format_table` receives those rows.
- The header literal is not proved to name the seven (or five) `Columns` titles in order; the cell count per line is.
- Fit parameter records are assumed to carry `channel`, `M_samples` and `L_samples`, as fields of `FitRecord`. A record missing one would raise KeyError in the source.
- `get_single_beta` in `PlotsCommon` uses a real-valued beta. Exact equality of reals stands in for float equality.
- `decay_constant.py`, `deft.py`, `plot_w_flow.py` and the other plotting scripts are not part of this model.
- QTable.FormatTable: writes the corrected `$\cdots$` in the configurations and step cells of a row whose w0 is NaN, where the source writes `$\cdots`; the as-written cells are `QTable.CellsAsWritten` (see Findings).
- QTable.ReadFiles: raises the corrected message naming the unrecognised file, where the source raises the literal `Unrecognised data in {filename}.`; the as-written message is `QTable.UnrecognisedAsWritten` (see Findings). `ReadResultOutcome` and `SortReportsFirst` state the corrected message too.

## Findings

| source | as written | input that shows it | evidently intended | confidence | as-written member | corrected member |
|---|---|---|---|---|---|---|
| src/tables/Q_table.py:55-56 | the NaN placeholders for the configuration count and the trajectory step are `$\cdots`, one `$`, written in cells that add no `$` of their own | any row whose `w0` value or deviation is NaN: the line holds two unclosed math shifts | `$\cdots$`, balanced like the `w0` placeholder | not executed | QTable.PlaceholderAsWrittenUnbalanced | QTable.PlaceholdersBalanced |
| src/tables/Q_table.py:28 | the message lacks the `f` prefix, so it reads `Unrecognised data in {filename}.` whatever the file | two unrecognised files `a.csv` and `b.csv` give the same message | the message names the offending file | not executed | QTable.UnrecognisedAsWrittenHidesFile | QTable.Unrecognised |

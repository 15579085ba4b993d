/** The topological-charge table (src/tables/Q_table.py): `read_files`
    sorts CSV files into charge data and scale data and inner-joins the two
    on `ensemble_name`; `format_table` writes one LaTeX line per ensemble,
    opening each group of ensembles that share a 4-character prefix with an
    `\hline`, and writing placeholders where the scale is NaN.

    Uncertainty formatting (`.02uSL`) and the NaN test are floating-point
    library behaviour, passed in as functions. */
module QTable {
  import opened Common

  // ----- read_files -----

  /** A table row: its `ensemble_name` and its other cells by column. */
  datatype Row = Row(ensembleName: string, cells: map<string, string>)

  /** A CSV file as `pd.read_csv` returns it. */
  datatype Frame = Frame(filename: string, columns: set<string>, rows: seq<Row>)

  /** A file with a `Q0_value` column holds charge data, whatever else it has. */
  predicate IsChargeData(f: Frame) { "Q0_value" in f.columns }

  /** A file without `Q0_value` but with `w0_value` holds scale data. */
  predicate IsScaleData(f: Frame) { "Q0_value" !in f.columns && "w0_value" in f.columns }

  /** The exception for a file that is neither. The source writes the
      message without the `f` prefix, so the braces are printed literally. */
  function UnrecognisedAsWritten(f: Frame): Error
  {
    ValueError("Unrecognised data in {filename}.")
  }

  /** The message as evidently intended: it names the file. */
  function Unrecognised(f: Frame): (e: Error)
    ensures e.ValueError? && e.message == "Unrecognised data in " + f.filename + "."
  {
    ValueError("Unrecognised data in " + f.filename + ".")
  }

  /** As written, two different files give the same message. */
  lemma UnrecognisedAsWrittenHidesFile()
    ensures var f, g := Frame("a.csv", {}, []), Frame("b.csv", {}, []);
      UnrecognisedAsWritten(f) == UnrecognisedAsWritten(g) && Unrecognised(f) != Unrecognised(g)
  {
    var f, g := Frame("a.csv", {}, []), Frame("b.csv", {}, []);
    assert Unrecognised(f).message[21] != Unrecognised(g).message[21];
  }

  /** `pd.concat([])` raises. */
  const NothingToConcatenate := ValueError("No objects to concatenate")

  /** The charge-data files, in argument order. */
  function ChargeFrames(files: seq<Frame>): (r: seq<Frame>)
  {
    if files == [] then []
    else ChargeFrames(files[..|files| - 1]) + (if IsChargeData(files[|files| - 1]) then [files[|files| - 1]] else [])
  }

  /** The scale-data files, in argument order. */
  function ScaleFrames(files: seq<Frame>): (r: seq<Frame>)
  {
    if files == [] then []
    else ScaleFrames(files[..|files| - 1]) + (if IsScaleData(files[|files| - 1]) then [files[|files| - 1]] else [])
  }

  /** `pd.concat(frames)`: their rows, one frame after the other. */
  function AllRows(frames: seq<Frame>): (r: seq<Row>)
    ensures forall row :: row in r <==> exists f :: f in frames && row in f.rows
  {
    if frames == [] then []
    else
      var r := AllRows(frames[..|frames| - 1]) + frames[|frames| - 1].rows;
      assert forall f :: f in frames <==> f in frames[..|frames| - 1] || f == frames[|frames| - 1];
      r
  }

  /** One joined row: the charge row's cells and the scale row's cells. */
  function Combine(left: Row, right: Row): Row
  {
    Row(left.ensembleName, left.cells + right.cells)
  }

  /** The rows of `right` that match `left`, each combined with it. */
  function Matches(left: Row, right: seq<Row>): seq<Row>
  {
    if right == [] then []
    else
      var last := right[|right| - 1];
      Matches(left, right[..|right| - 1]) + (if last.ensembleName == left.ensembleName then [Combine(left, last)] else [])
  }

  /** `pd.merge(left, right, on="ensemble_name")`: every pair of rows with
      the same name, combined, ordered by the left row. */
  function InnerJoin(left: seq<Row>, right: seq<Row>): seq<Row>
  {
    if left == [] then []
    else InnerJoin(left[..|left| - 1], right) + Matches(left[|left| - 1], right)
  }

  lemma {:induction false} MatchesExactly(left: Row, right: seq<Row>)
    ensures forall row :: row in Matches(left, right) <==>
      exists j :: 0 <= j < |right| && right[j].ensembleName == left.ensembleName && row == Combine(left, right[j])
  {
    if right != [] {
      var init := right[..|right| - 1];
      MatchesExactly(left, init);
      assert forall j :: 0 <= j < |init| ==> init[j] == right[j];
    }
  }

  /** The join holds exactly the combinations of a left row and a right
      row with the same `ensemble_name`: nothing is invented, nothing that
      matches is dropped. */
  lemma {:induction false} InnerJoinExactly(left: seq<Row>, right: seq<Row>)
    ensures forall row :: row in InnerJoin(left, right) <==>
      exists i, j :: 0 <= i < |left| && 0 <= j < |right| &&
        left[i].ensembleName == right[j].ensembleName && row == Combine(left[i], right[j])
  {
    if left != [] {
      var init, last := left[..|left| - 1], left[|left| - 1];
      InnerJoinExactly(init, right);
      MatchesExactly(last, right);
      assert forall i :: 0 <= i < |init| ==> init[i] == left[i];
      forall row | row in InnerJoin(left, right)
        ensures exists i, j :: (0 <= i < |left| && 0 <= j < |right| &&
                                left[i].ensembleName == right[j].ensembleName && row == Combine(left[i], right[j]))
      {
        if row !in InnerJoin(init, right) {
          assert row in Matches(last, right);
          var j :| 0 <= j < |right| && right[j].ensembleName == last.ensembleName && row == Combine(last, right[j]);
          assert left[|left| - 1] == last;
        }
      }
      forall i, j | 0 <= i < |left| && 0 <= j < |right| && left[i].ensembleName == right[j].ensembleName
        ensures Combine(left[i], right[j]) in InnerJoin(left, right)
      {
        if i < |init| {
          assert init[i] == left[i];
        } else {
          assert left[i] == last;
        }
      }
    }
  }

  /** An ensemble appears in the join exactly when it appears on both sides. */
  lemma InnerJoinNames(left: seq<Row>, right: seq<Row>, name: string)
    ensures (exists row :: row in InnerJoin(left, right) && row.ensembleName == name) <==>
      (exists i :: 0 <= i < |left| && left[i].ensembleName == name) &&
      (exists j :: 0 <= j < |right| && right[j].ensembleName == name)
  {
    InnerJoinExactly(left, right);
    if (exists i :: 0 <= i < |left| && left[i].ensembleName == name) &&
       (exists j :: 0 <= j < |right| && right[j].ensembleName == name) {
      var i :| 0 <= i < |left| && left[i].ensembleName == name;
      var j :| 0 <= j < |right| && right[j].ensembleName == name;
      assert Combine(left[i], right[j]) in InnerJoin(left, right);
    }
  }

  /** The loop of `read_files`: the charge files and the scale files, in
      argument order, or the error for the first file that is neither. */
  function Sort(files: seq<Frame>): Result<(seq<Frame>, seq<Frame>)>
  {
    if files == [] then Ok(([], []))
    else
      var f := files[|files| - 1];
      match Sort(files[..|files| - 1])
      case Err(e) => Err(e)
      case Ok((charge, scale)) =>
        if IsChargeData(f) then Ok((charge + [f], scale))
        else if IsScaleData(f) then Ok((charge, scale + [f]))
        else Err(Unrecognised(f))
  }

  /** Sorting succeeds exactly when every file is recognised, and then
      splits them by kind. */
  lemma {:induction false} SortSplitsByKind(files: seq<Frame>)
    ensures Sort(files).Ok? <==> forall k :: 0 <= k < |files| ==> IsChargeData(files[k]) || IsScaleData(files[k])
    ensures Sort(files).Ok? ==> Sort(files).value == (ChargeFrames(files), ScaleFrames(files))
  {
    if files != [] {
      var init := files[..|files| - 1];
      var f := files[|files| - 1];
      SortSplitsByKind(init);
      assert forall k :: 0 <= k < |init| ==> init[k] == files[k];
      if Sort(init).Ok? {
        var charge, scale := ChargeFrames(init), ScaleFrames(init);
        if IsChargeData(f) {
          assert Sort(files) == Ok((charge + [f], scale));
          assert ChargeFrames(files) == charge + [f];
          assert scale + [] == scale;
          assert ScaleFrames(files) == scale;
        } else if IsScaleData(f) {
          assert Sort(files) == Ok((charge, scale + [f]));
          assert charge + [] == charge;
          assert ChargeFrames(files) == charge;
          assert ScaleFrames(files) == scale + [f];
        } else {
          assert Sort(files) == Err(Unrecognised(f));
        }
      } else {
        assert Sort(files) == Sort(init);
      }
    }
  }

  /** A failed sort reports the first file that is neither kind. */
  lemma {:induction false} SortReportsFirst(files: seq<Frame>)
    ensures Sort(files).Err? ==>
      exists k :: 0 <= k < |files| && !IsChargeData(files[k]) && !IsScaleData(files[k]) &&
        Sort(files).error == Unrecognised(files[k]) &&
        forall j :: 0 <= j < k ==> IsChargeData(files[j]) || IsScaleData(files[j])
  {
    if files != [] {
      var init := files[..|files| - 1];
      var f := files[|files| - 1];
      SortReportsFirst(init);
      SortSplitsByKind(init);
      assert forall k :: 0 <= k < |init| ==> init[k] == files[k];
      if Sort(init).Err? {
        assert Sort(files) == Sort(init);
      } else if !IsChargeData(f) && !IsScaleData(f) {
        assert Sort(files) == Err(Unrecognised(f));
      }
    }
  }

  /** What `read_files` returns or raises. */
  function ReadResult(files: seq<Frame>): Result<seq<Row>>
  {
    match Sort(files)
    case Err(e) => Err(e)
    case Ok((charge, scale)) =>
      if charge == [] || scale == [] then Err(NothingToConcatenate)
      else Ok(InnerJoin(AllRows(charge), AllRows(scale)))
  }

  /** `read_files` succeeds exactly when every file is recognised and both
      kinds are present, and then inner-joins all charge rows with all
      scale rows; a file that is neither is reported, the first one; with
      every file recognised, a missing kind is the error of `pd.concat`. */
  lemma ReadResultOutcome(files: seq<Frame>)
    ensures ReadResult(files).Ok? <==>
      (forall k :: 0 <= k < |files| ==> IsChargeData(files[k]) || IsScaleData(files[k])) &&
      ChargeFrames(files) != [] && ScaleFrames(files) != []
    ensures ReadResult(files).Ok? ==>
      ReadResult(files).value == InnerJoin(AllRows(ChargeFrames(files)), AllRows(ScaleFrames(files)))
    ensures ReadResult(files).Err? && (forall k :: 0 <= k < |files| ==> IsChargeData(files[k]) || IsScaleData(files[k])) ==>
      ReadResult(files).error == NothingToConcatenate
    ensures ReadResult(files).Err? && (exists k :: 0 <= k < |files| && !IsChargeData(files[k]) && !IsScaleData(files[k])) ==>
      exists k :: 0 <= k < |files| && !IsChargeData(files[k]) && !IsScaleData(files[k]) &&
        ReadResult(files).error == Unrecognised(files[k]) &&
        forall j :: 0 <= j < k ==> IsChargeData(files[j]) || IsScaleData(files[j])
  {
    SortSplitsByKind(files);
    SortReportsFirst(files);
  }

  /** `read_files`: sorts the files into charge and scale data, raising on
      a file that is neither, then concatenates each kind and inner-joins
      them on `ensemble_name`. */
  method ReadFiles(files: seq<Frame>) returns (r: Result<seq<Row>>)
    ensures r == ReadResult(files)
  {
    var chargeData, scaleData := [], [];
    var i := 0;
    while i < |files|
      invariant 0 <= i <= |files|
      invariant Sort(files[..i]) == Ok((chargeData, scaleData))
    {
      assert files[..i + 1][..i] == files[..i] && files[..i + 1][i] == files[i];
      var data := files[i];
      if "Q0_value" in data.columns {
        chargeData := chargeData + [data];
      } else if "w0_value" in data.columns {
        scaleData := scaleData + [data];
      } else {
        SortStopsAtError(files, i);
        return Err(Unrecognised(data));
      }
      i := i + 1;
    }
    assert files[..i] == files;
    if chargeData == [] || scaleData == [] {
      return Err(NothingToConcatenate);
    }
    r := Ok(InnerJoin(AllRows(chargeData), AllRows(scaleData)));
  }

  lemma {:induction false} SortStopsAtError(files: seq<Frame>, i: nat)
    requires i < |files| && Sort(files[..i]).Ok? && !IsChargeData(files[i]) && !IsScaleData(files[i])
    ensures Sort(files) == Err(Unrecognised(files[i]))
  {
    assert files[..i + 1][..i] == files[..i];
    var n := i + 1;
    while n < |files|
      invariant i + 1 <= n <= |files|
      invariant Sort(files[..n]) == Err(Unrecognised(files[i]))
    {
      assert files[..n + 1][..n] == files[..n];
      n := n + 1;
    }
    assert files[..n] == files;
  }

  // ----- format_table -----

  /** A joined row after its value/uncertainty columns are combined. */
  datatype TableRow = TableRow(ensembleName: string, q0: UFloat, sigmaQ: UFloat, tauExpQ: UFloat,
                               numConfigs: string, trajectoryStep: string, w0: UFloat)

  /** The seven column titles of the table. */
  const Columns: seq<string> := [
    "Ensemble", "$Q_0$", @"$\sigma_Q$", @"$\tau_{\mathrm{exp}}$",
    @"$N_{\mathrm{traj}}^{\mathrm{GF}}$", @"$\delta_{\mathrm{traj}}^{\mathrm{GF}}$", "$w_0 / a$"]

  const Header: string :=
    "\\begin{tabular}{|c|c|c|c|c|c|c|}\n\\hline\\hline\n"
    + @"Ensemble & $Q_0$ & $\sigma_Q$ & $\tau_{\mathrm{exp}}$ & "
    + @"$N_{\mathrm{traj}}^{\mathrm{GF}}$ & $\delta_{\mathrm{traj}}^{\mathrm{GF}}$ & "
    + "$w_0 / a$ \\\\\n"
    + @"\hline"

  const Footer: string := "\\hline\\hline\n\\end{tabular}"

  const Hline: string := "\\hline\n"

  /** The line ending of every data line. */
  const LineEnd: string := " \\\\\n"

  /** `ensemble_name[:4]`. */
  function Prefix(name: string): (r: string)
    ensures |r| <= 4 && r <= name
    ensures |name| >= 4 ==> |r| == 4
    ensures |name| <= 4 ==> r == name
  {
    if |name| <= 4 then name else name[..4]
  }

  /** The number of `$` signs in a cell: an odd number leaves LaTeX math
      mode open at the `&` that ends the cell. */
  function Dollars(s: string): nat { multiset(s)['$'] }

  /** The placeholder the source writes for `num_configs` and
      `trajectory_step` when w0 is NaN: it opens math mode and never
      closes it. */
  const CountPlaceholderAsWritten: string := "$\\cdots"

  /** The placeholder as evidently intended. */
  const CountPlaceholder: string := "$\\cdots$"

  /** The w0 placeholder, written inside `${}$`. */
  const ScalePlaceholder: string := "\\cdots"

  predicate ScaleMissing(row: TableRow, isNaN: real -> bool)
  {
    isNaN(row.w0.nominal) || isNaN(row.w0.stdDev)
  }

  /** The seven cells of a data line, with the count placeholder given. */
  function CellsWith(row: TableRow, fmt: UFloat -> string, isNaN: real -> bool, countPlaceholder: string): (r: seq<string>)
    ensures |r| == |Columns|
    ensures r[0] == row.ensembleName && r[1] == Math(fmt(row.q0)) && r[2] == Math(fmt(row.sigmaQ)) &&
      r[3] == Math(fmt(row.tauExpQ))
    ensures ScaleMissing(row, isNaN) ==>
      r[4] == countPlaceholder && r[5] == countPlaceholder && r[6] == Math(ScalePlaceholder)
    ensures !ScaleMissing(row, isNaN) ==>
      r[4] == row.numConfigs && r[5] == row.trajectoryStep && r[6] == Math(fmt(row.w0))
  {
    var missing := ScaleMissing(row, isNaN);
    var w0 := if missing then ScalePlaceholder else fmt(row.w0);
    var numConfigs := if missing then countPlaceholder else row.numConfigs;
    var trajectoryStep := if missing then countPlaceholder else row.trajectoryStep;
    [row.ensembleName, Math(fmt(row.q0)), Math(fmt(row.sigmaQ)), Math(fmt(row.tauExpQ)),
     numConfigs, trajectoryStep, Math(w0)]
  }

  /** The cells as the source writes them. */
  function CellsAsWritten(row: TableRow, fmt: UFloat -> string, isNaN: real -> bool): seq<string>
  {
    CellsWith(row, fmt, isNaN, CountPlaceholderAsWritten)
  }

  /** The cells with the corrected placeholder. */
  function Cells(row: TableRow, fmt: UFloat -> string, isNaN: real -> bool): seq<string>
  {
    CellsWith(row, fmt, isNaN, CountPlaceholder)
  }

  /** As written, a row whose w0 is NaN gets two cells that each open math
      mode without closing it. */
  lemma PlaceholderAsWrittenUnbalanced(row: TableRow, fmt: UFloat -> string, isNaN: real -> bool)
    requires ScaleMissing(row, isNaN)
    ensures Dollars(CellsAsWritten(row, fmt, isNaN)[4]) % 2 == 1
    ensures Dollars(CellsAsWritten(row, fmt, isNaN)[5]) % 2 == 1
  {
    assert CountPlaceholderAsWritten == ['$'] + "\\cdots";
    assert '$' !in multiset("\\cdots");
  }

  /** With the corrected placeholder every placeholder cell is balanced. */
  lemma PlaceholdersBalanced(row: TableRow, fmt: UFloat -> string, isNaN: real -> bool)
    requires ScaleMissing(row, isNaN)
    ensures forall k :: 4 <= k < 7 ==> Dollars(Cells(row, fmt, isNaN)[k]) % 2 == 0
  {
    var cells := Cells(row, fmt, isNaN);
    assert cells[4] == CountPlaceholder && cells[5] == CountPlaceholder && cells[6] == Math(ScalePlaceholder);
    assert '$' !in ScalePlaceholder;
    assert CountPlaceholder == Math(ScalePlaceholder);
    assert multiset(Math(ScalePlaceholder)) == multiset("$") + multiset(ScalePlaceholder) + multiset("$");
  }

  /** One data line, as the format string of the source lays it out. */
  function FormatRow(row: TableRow, fmt: UFloat -> string, isNaN: real -> bool): string
  {
    var c := Cells(row, fmt, isNaN);
    c[0] + " & " + c[1] + " & " + c[2] + " & " + c[3] + " & " + c[4] + " & " + c[5] + " & " + c[6] + LineEnd
  }

  /** A data line is its seven cells joined by " & ", as many as the header
      has columns, then the row end. */
  lemma RowHasOneCellPerColumn(row: TableRow, fmt: UFloat -> string, isNaN: real -> bool)
    ensures |Cells(row, fmt, isNaN)| == |Columns|
    ensures FormatRow(row, fmt, isNaN) == Join(Cells(row, fmt, isNaN), " & ") + LineEnd
  {
    JoinSeven(Cells(row, fmt, isNaN), " & ");
  }

  /** Joining seven cells puts one separator between each pair of neighbours. */
  lemma JoinSeven(c: seq<string>, sep: string)
    requires |c| == 7
    ensures Join(c, sep) == c[0] + sep + c[1] + sep + c[2] + sep + c[3] + sep + c[4] + sep + c[5] + sep + c[6]
  {
    assert Join(c[..1], sep) == c[0] by {
      assert c[..1] == [c[0]] && [c[0]][..0] == [];
      assert Concat([c[0]]) == Concat([]) + c[0];
    }
    JoinAppend(c[..1], c[1], sep);
    assert c[..1] + [c[1]] == c[..2];
    JoinAppend(c[..2], c[2], sep);
    assert c[..2] + [c[2]] == c[..3];
    JoinAppend(c[..3], c[3], sep);
    assert c[..3] + [c[3]] == c[..4];
    JoinAppend(c[..4], c[4], sep);
    assert c[..4] + [c[4]] == c[..5];
    JoinAppend(c[..5], c[5], sep);
    assert c[..5] + [c[5]] == c[..6];
    JoinAppend(c[..6], c[6], sep);
    assert c[..6] + [c[6]] == c;
  }

  lemma DataLineIsNotHline(row: TableRow, fmt: UFloat -> string, isNaN: real -> bool)
    ensures FormatRow(row, fmt, isNaN) != Hline
  {
    var line := FormatRow(row, fmt, isNaN);
    assert line[|line| - 2] == LineEnd[|LineEnd| - 2] == '\\';
    assert Hline[|Hline| - 2] == 'e';
  }

  function Prefixes(rows: seq<TableRow>): (r: seq<string>)
    ensures |r| == |rows| && forall k :: 0 <= k < |rows| ==> r[k] == Prefix(rows[k].ensembleName)
  {
    seq(|rows|, k requires 0 <= k < |rows| => Prefix(rows[k].ensembleName))
  }

  function Lines(rows: seq<TableRow>, fmt: UFloat -> string, isNaN: real -> bool): (r: seq<string>)
    ensures |r| == |rows| && forall k :: 0 <= k < |rows| ==> r[k] == FormatRow(rows[k], fmt, isNaN)
  {
    seq(|rows|, k requires 0 <= k < |rows| => FormatRow(rows[k], fmt, isNaN))
  }

  /** The pieces `format_table` collects, given each row's prefix and line:
      an `\hline` before every row whose prefix differs from the one before
      (and before the first row), then the row's line. */
  function Pieces(prefixes: seq<string>, lines: seq<string>): seq<string>
    requires |prefixes| == |lines|
  {
    if lines == [] then []
    else
      var n := |lines|;
      Pieces(prefixes[..n - 1], lines[..n - 1]) + (Opening(prefixes, n) + [lines[n - 1]])
  }

  function Content(rows: seq<TableRow>, fmt: UFloat -> string, isNaN: real -> bool): seq<string>
  {
    Pieces(Prefixes(rows), Lines(rows, fmt, isNaN))
  }

  /** `format_table`: walks the rows, remembering the previous prefix, and
      returns header + content + footer. */
  method FormatTable(rows: seq<TableRow>, fmt: UFloat -> string, isNaN: real -> bool) returns (s: string)
    ensures s == Header + Concat(Content(rows, fmt, isNaN)) + Footer
  {
    ghost var prefixes, lines := Prefixes(rows), Lines(rows, fmt, isNaN);
    var content := [];
    var previousPrefix: Option<string> := None;
    var i := 0;
    while i < |rows|
      invariant 0 <= i <= |rows|
      invariant content == Pieces(prefixes[..i], lines[..i])
      invariant previousPrefix == if i == 0 then None else Some(prefixes[i - 1])
    {
      var row := rows[i];
      ghost var before := content;
      var nextPrefix := Prefix(row.ensembleName);
      var opens := Some(nextPrefix) != previousPrefix;
      if opens {
        previousPrefix := Some(nextPrefix);
        content := content + [Hline];
      }
      ghost var marked := content;
      var line := FormatRow(row, fmt, isNaN);
      content := content + [line];
      FormatStep(prefixes, lines, i, before, opens, marked, line, content);
      i := i + 1;
    }
    WholePieces(prefixes, lines);
    s := Header + Concat(content) + Footer;
  }

  lemma {:induction false} WholePieces(prefixes: seq<string>, lines: seq<string>)
    requires |prefixes| == |lines|
    ensures Pieces(prefixes[..|lines|], lines[..|lines|]) == Pieces(prefixes, lines)
  {
    assert prefixes[..|lines|] == prefixes && lines[..|lines|] == lines;
  }

  /** One pass of the loop in `format_table` extends the pieces by one row. */
  lemma FormatStep(prefixes: seq<string>, lines: seq<string>, i: nat, before: seq<string>,
                   opens: bool, marked: seq<string>, line: string, after: seq<string>)
    requires |prefixes| == |lines| && i < |lines|
    requires before == Pieces(prefixes[..i], lines[..i])
    requires opens == (i == 0 || prefixes[i] != prefixes[i - 1])
    requires marked == if opens then before + [Hline] else before
    requires line == lines[i]
    requires after == marked + [line]
    ensures after == Pieces(prefixes[..i + 1], lines[..i + 1])
  {
    assert prefixes[..i + 1][..i] == prefixes[..i] && lines[..i + 1][..i] == lines[..i];
    PiecesLast(prefixes[..i + 1], lines[..i + 1]);
    assert Opening(prefixes[..i + 1], i + 1) == Opening(prefixes, i + 1);
    if opens {
      assert after == before + ([Hline] + [line]);
    } else {
      assert after == before + ([] + [line]);
    }
  }

  /** The pieces that are not `\hline`s. */
  function DataLines(pieces: seq<string>): seq<string>
  {
    if pieces == [] then []
    else DataLines(pieces[..|pieces| - 1]) + (if pieces[|pieces| - 1] == Hline then [] else [pieces[|pieces| - 1]])
  }

  lemma {:induction false} DataLinesAppend(a: seq<string>, b: seq<string>)
    ensures DataLines(a + b) == DataLines(a) + DataLines(b)
    decreases |b|
  {
    if b == [] {
      assert a + b == a;
    } else {
      var b' := b[..|b| - 1];
      assert (a + b)[..|a + b| - 1] == a + b';
      DataLinesAppend(a, b');
    }
  }

  /** The `\hline` (if any) that precedes the n-th line. */
  function Opening(prefixes: seq<string>, n: nat): seq<string>
    requires 0 < n <= |prefixes|
  {
    if n == 1 || prefixes[n - 1] != prefixes[n - 2] then [Hline] else []
  }

  lemma PiecesLast(prefixes: seq<string>, lines: seq<string>)
    requires |prefixes| == |lines| && lines != []
    ensures var n := |lines|;
      Pieces(prefixes, lines) == Pieces(prefixes[..n - 1], lines[..n - 1]) + (Opening(prefixes, n) + [lines[n - 1]])
  {
  }

  lemma DataLinesStep(init: seq<string>, opening: seq<string>, line: string)
    requires opening == [] || opening == [Hline]
    requires line != Hline
    ensures DataLines(init + (opening + [line])) == DataLines(init) + [line]
  {
    DataLinesAppend(init, opening + [line]);
    DataLinesAppend(opening, [line]);
    SingleDataLine(line);
    if opening == [Hline] {
      assert opening[..0] == [];
    }
  }

  lemma {:induction false} PiecesDataLines(prefixes: seq<string>, lines: seq<string>)
    requires |prefixes| == |lines|
    requires forall k :: 0 <= k < |lines| ==> lines[k] != Hline
    ensures DataLines(Pieces(prefixes, lines)) == lines
  {
    if lines != [] {
      var n := |lines|;
      var ps, ls, last := prefixes[..n - 1], lines[..n - 1], lines[n - 1];
      var init := Pieces(ps, ls);
      assert DataLines(init) == ls by {
        assert forall k :: 0 <= k < |ls| ==> ls[k] == lines[k];
        PiecesDataLines(ps, ls);
      }
      assert DataLines(init + (Opening(prefixes, n) + [last])) == ls + [last] by {
        DataLinesStep(init, Opening(prefixes, n), last);
      }
      PiecesLast(prefixes, lines);
      assert ls + [last] == lines;
    }
  }

  lemma SingleDataLine(line: string)
    requires line != Hline
    ensures DataLines([line]) == [line]
  {
    assert [line][..0] == [];
  }

  /** Exactly one data line per row, in row order. */
  lemma OneLinePerRow(rows: seq<TableRow>, fmt: UFloat -> string, isNaN: real -> bool)
    ensures var lines := DataLines(Content(rows, fmt, isNaN));
      |lines| == |rows| && forall k :: 0 <= k < |rows| ==> lines[k] == FormatRow(rows[k], fmt, isNaN)
  {
    forall k | 0 <= k < |rows| ensures Lines(rows, fmt, isNaN)[k] != Hline {
      DataLineIsNotHline(rows[k], fmt, isNaN);
    }
    PiecesDataLines(Prefixes(rows), Lines(rows, fmt, isNaN));
  }

  /** The number of `\hline` pieces. */
  function Hlines(pieces: seq<string>): nat
  {
    if pieces == [] then 0
    else Hlines(pieces[..|pieces| - 1]) + (if pieces[|pieces| - 1] == Hline then 1 else 0)
  }

  lemma {:induction false} HlinesAppend(a: seq<string>, b: seq<string>)
    ensures Hlines(a + b) == Hlines(a) + Hlines(b)
    decreases |b|
  {
    if b == [] {
      assert a + b == a;
    } else {
      var b' := b[..|b| - 1];
      assert (a + b)[..|a + b| - 1] == a + b';
      HlinesAppend(a, b');
    }
  }

  /** The sequence with each run of equal neighbours collapsed to one
      element: one entry per run. */
  function Runs(s: seq<string>): (r: seq<string>)
    ensures |r| <= |s|
    ensures s != [] ==> r != [] && r[|r| - 1] == s[|s| - 1]
  {
    if s == [] then []
    else if |s| > 1 && s[|s| - 2] == s[|s| - 1] then Runs(s[..|s| - 1])
    else Runs(s[..|s| - 1]) + [s[|s| - 1]]
  }

  lemma {:induction false} PiecesHlines(prefixes: seq<string>, lines: seq<string>)
    requires |prefixes| == |lines|
    requires forall k :: 0 <= k < |lines| ==> lines[k] != Hline
    ensures Hlines(Pieces(prefixes, lines)) == |Runs(prefixes)|
  {
    if lines != [] {
      var n := |lines|;
      var opening: seq<string> := if n == 1 || prefixes[n - 1] != prefixes[n - 2] then [Hline] else [];
      PiecesHlines(prefixes[..n - 1], lines[..n - 1]);
      assert Pieces(prefixes, lines) == Pieces(prefixes[..n - 1], lines[..n - 1]) + (opening + [lines[n - 1]]);
      HlinesAppend(Pieces(prefixes[..n - 1], lines[..n - 1]), opening + [lines[n - 1]]);
      HlinesAppend(opening, [lines[n - 1]]);
      assert Hlines([lines[n - 1]]) == 0;
    }
  }

  /** There are as many `\hline`s in the content as runs of consecutive
      rows sharing a 4-character prefix. */
  lemma OneHlinePerRun(rows: seq<TableRow>, fmt: UFloat -> string, isNaN: real -> bool)
    ensures Hlines(Content(rows, fmt, isNaN)) == |Runs(Prefixes(rows))|
  {
    forall k | 0 <= k < |rows| ensures Lines(rows, fmt, isNaN)[k] != Hline {
      DataLineIsNotHline(rows[k], fmt, isNaN);
    }
    PiecesHlines(Prefixes(rows), Lines(rows, fmt, isNaN));
  }
}

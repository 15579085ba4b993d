/** The table of massless continuum extrapolations
    (src/tables/continuum_massless_mass.py): a header, one LaTeX line per
    channel and a footer.

    Uncertainty formatting (`.02uSL`) and fixed-point formatting (`.02f`)
    are floating-point library behaviour, passed in as functions. */
module ContinuumMasslessMass {
  import opened Common
  import opened PlotsCommon

  /** One fitted channel: its name, the extrapolated mass M and the slopes
      L and W, and the chi-square per degree of freedom. */
  datatype MassRow = MassRow(channel: string, m: UFloat, l: UFloat, w: UFloat, chisquare: real)

  /** The five column titles. */
  const Columns: seq<string> := [
    "M", @"$\hat{m}_{M,\,\chi}^2$", @"$L_{\rm M}^m$", "$W_M^m$", @"$\chi^2/{\rm N_{d.o.f}}$"]

  const Header: string :=
    "\\begin{tabular}{|c|c|c|c|c|} \n \\hline\\hline \n"
    + @"M & $\hat{m}_{M,\,\chi}^2$ & $L_{\rm M}^m$ & $W_M^m$ & "
    + @"$\chi^2/{\rm N_{d.o.f}}$ \\ "
    + "\n \\hline\\hline \n"

  const Footer: string := "\\hline \n \\end{tabular}"

  /** The line ending of every data line. */
  const LineEnd: string := " \\\\\n"

  /** The five cells of a channel's line. */
  function Cells(row: MassRow, fmt: UFloat -> string, fmtFixed: real -> string): (r: seq<string>)
    ensures |r| == |Columns|
    ensures row.channel != "rhoE1" ==> r[0] == Math("\\rm " + row.channel)
    ensures row.channel == "rhoE1" ==> r[0] == Math(@"\rm v^\prime")
    ensures r[1] == Math(fmt(row.m)) && r[2] == Math(fmt(row.l)) && r[3] == Math(fmt(row.w))
    ensures r[4] == Math(fmtFixed(row.chisquare))
  {
    [Math("\\rm " + ChTag(row.channel)), Math(fmt(row.m)), Math(fmt(row.l)), Math(fmt(row.w)),
     Math(fmtFixed(row.chisquare))]
  }

  /** One data line, as the format string of the source lays it out. */
  function FormatRow(row: MassRow, fmt: UFloat -> string, fmtFixed: real -> string): string
  {
    var c := Cells(row, fmt, fmtFixed);
    c[0] + " & " + c[1] + " & " + c[2] + " & " + c[3] + " & " + c[4] + LineEnd
  }

  /** A data line is its five cells, one per header column, joined by
      " & ", then the row end. */
  lemma RowHasOneCellPerColumn(row: MassRow, fmt: UFloat -> string, fmtFixed: real -> string)
    ensures |Cells(row, fmt, fmtFixed)| == |Columns| == 5
    ensures FormatRow(row, fmt, fmtFixed) == Join(Cells(row, fmt, fmtFixed), " & ") + LineEnd
  {
    var c := Cells(row, fmt, fmtFixed);
    assert Join(c[..1], " & ") == c[0] by {
      assert c[..1] == [c[0]] && [c[0]][..0] == [];
      assert Concat([c[0]]) == Concat([]) + c[0];
    }
    JoinAppend(c[..1], c[1], " & ");
    assert c[..1] + [c[1]] == c[..2];
    JoinAppend(c[..2], c[2], " & ");
    assert c[..2] + [c[2]] == c[..3];
    JoinAppend(c[..3], c[3], " & ");
    assert c[..3] + [c[3]] == c[..4];
    JoinAppend(c[..4], c[4], " & ");
    assert c[..4] + [c[4]] == c;
  }

  /** Every data line ends with the LaTeX row break and a newline. */
  lemma LineEndsRow(row: MassRow, fmt: UFloat -> string, fmtFixed: real -> string)
    ensures var line := FormatRow(row, fmt, fmtFixed);
      |line| >= |LineEnd| && line[|line| - |LineEnd|..] == LineEnd
  {
    var c := Cells(row, fmt, fmtFixed);
    var body := c[0] + " & " + c[1] + " & " + c[2] + " & " + c[3] + " & " + c[4];
    assert FormatRow(row, fmt, fmtFixed) == body + LineEnd;
    assert (body + LineEnd)[|body|..] == LineEnd;
  }

  /** The lines of the table body: one per row, in row order. */
  function Lines(rows: seq<MassRow>, fmt: UFloat -> string, fmtFixed: real -> string): (r: seq<string>)
    ensures |r| == |rows|
    ensures forall k :: 0 <= k < |rows| ==> r[k] == FormatRow(rows[k], fmt, fmtFixed)
  {
    if rows == [] then []
    else Lines(rows[..|rows| - 1], fmt, fmtFixed) + [FormatRow(rows[|rows| - 1], fmt, fmtFixed)]
  }

  lemma LinesStep(rows: seq<MassRow>, i: nat, fmt: UFloat -> string, fmtFixed: real -> string)
    requires i < |rows|
    ensures Lines(rows[..i + 1], fmt, fmtFixed) == Lines(rows[..i], fmt, fmtFixed) + [FormatRow(rows[i], fmt, fmtFixed)]
  {
    assert rows[..i + 1][..i] == rows[..i];
  }

  /** `format_table`: one line per row appended to the content, then
      header + content + footer. */
  method FormatTable(rows: seq<MassRow>, fmt: UFloat -> string, fmtFixed: real -> string) returns (s: string)
    ensures s == Header + Concat(Lines(rows, fmt, fmtFixed)) + Footer
    ensures rows == [] ==> s == Header + Footer
  {
    var content: seq<string> := [];
    var i := 0;
    while i < |rows|
      invariant 0 <= i <= |rows|
      invariant content == Lines(rows[..i], fmt, fmtFixed)
    {
      var line := FormatRow(rows[i], fmt, fmtFixed);
      LinesStep(rows, i, fmt, fmtFixed);
      content := content + [line];
      i := i + 1;
    }
    assert rows[..i] == rows;
    s := Header + Concat(content) + Footer;
  }
}

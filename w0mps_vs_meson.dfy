/** The meson-mass panels of src/plots/w0mps_vs_meson.py: for each of six
    channels a panel of a 3x2 grid, chosen by a (row, col) cursor that the
    loop updates with integer arithmetic; in each panel one data series per
    beta (the records of that beta that carry the needed samples) and one
    band per fit of that channel, built by `plot_axpb_y`.

    Drawing is left out: a panel is the data that would be drawn. The
    standard deviation of a replica array and the x grid of the fitted band
    (a `linspace` over the axis limits) are passed in. */
module W0MpsVsMeson {
  import opened Common
  import opened PlotsCommon

  // ----- the subplot cursor -----

  /** The channels drawn, one per panel, in loop order. */
  const Channels: seq<string> := ["v", "t", "s", "av", "at", "rhoE1"]

  /** Python's `int(a / 3)`: the quotient truncated toward zero. Dafny's
      `/` rounds toward minus infinity for a negative dividend. */
  function TruncDiv3(a: int): (q: int)
    ensures a >= 0 ==> 0 <= 3 * q <= a < 3 * q + 3
    ensures a < 0 ==> 3 * q - 3 < a <= 3 * q <= 0
  {
    if a >= 0 then a / 3 else -((-a) / 3)
  }

  /** One update of (subplot_row, subplot_col) at the end of a pass. Python's
      `%` with a positive divisor agrees with Dafny's. */
  function Step(row: int, col: int): (int, int)
  {
    var r := row + 1 - col * 3;
    var c := col + TruncDiv3(r);
    (r % 3, c)
  }

  /** The cell for the k-th channel: down the first column, then down the
      second column, then round the second column again. */
  function Cursor(k: nat): (p: (int, int))
    ensures 0 <= p.0 < 3 && 0 <= p.1 < 2
  {
    if k < 3 then (k, 0) else ((k - 3) % 3, 1)
  }

  /** The update applied after pass k moves the cursor to the cell of pass
      k + 1. */
  lemma StepCursor(k: nat)
    ensures Step(Cursor(k).0, Cursor(k).1) == Cursor(k + 1)
  {
    if k >= 3 {
      var r := (k - 3) % 3 + 1 - 3;
      assert -2 <= r <= 0;
      assert TruncDiv3(r) == 0;
      assert (k + 1 - 3) % 3 == ((k - 3) % 3 + 1) % 3;
      assert r % 3 == ((k - 3) % 3 + 1) % 3;
    }
  }

  /** The six channels visit the six cells of the grid, each once, in
      column-major order. */
  lemma CursorCoversGrid()
    ensures forall k :: 0 <= k < |Channels| ==> Cursor(k) == (k % 3, k / 3)
    ensures forall j, k :: 0 <= j < k < |Channels| ==> Cursor(j) != Cursor(k)
    ensures forall r, c :: 0 <= r < 3 && 0 <= c < 2 ==> Cursor(3 * c + r) == (r, c) && 3 * c + r < |Channels|
  {
    forall k | 0 <= k < |Channels| ensures Cursor(k) == (k % 3, k / 3) {
      if k >= 3 {
        assert (k - 3) % 3 == k % 3 && k / 3 == 1;
      }
    }
    forall j, k | 0 <= j < k < |Channels| ensures Cursor(j) != Cursor(k) {
      assert k == 3 * (k / 3) + k % 3 && j == 3 * (j / 3) + j % 3;
    }
    forall r, c | 0 <= r < 3 && 0 <= c < 2 ensures Cursor(3 * c + r) == (r, c) {
      assert (3 * c + r) % 3 == r && (3 * c + r) / 3 == c;
    }
  }

  /** The column never moves back. */
  lemma CursorColumnMonotone(j: nat, k: nat)
    requires j <= k
    ensures Cursor(j).1 <= Cursor(k).1
  {
  }

  // ----- data series -----

  /** The beta markers, in order of increasing beta. */
  const Markers: string := "o^vsx+"

  predicate Increasing(s: seq<real>)
  {
    forall i, j :: 0 <= i < j < |s| ==> s[i] < s[j]
  }

  /** `b` inserted into an increasing sequence, unless already there. */
  function Insert(s: seq<real>, b: real): (r: seq<real>)
    requires Increasing(s)
    ensures Increasing(r)
    ensures forall x :: x in r <==> x in s || x == b
  {
    if s == [] then [b]
    else if b < s[0] then [b] + s
    else if b == s[0] then s
    else
      var tail := s[1..];
      assert Increasing(tail) by {
        forall i, j | 0 <= i < j < |tail| ensures tail[i] < tail[j] {
          assert tail[i] == s[i + 1] && tail[j] == s[j + 1];
        }
      }
      var rest := Insert(tail, b);
      assert forall x :: x in rest ==> s[0] < x by {
        forall x | x in rest ensures s[0] < x {
          if x != b {
            var k :| 0 <= k < |tail| && tail[k] == x;
            assert s[k + 1] == x;
          }
        }
      }
      var r := [s[0]] + rest;
      assert Increasing(r) by {
        forall i, j | 0 <= i < j < |r| ensures r[i] < r[j] {
          assert r[j] == rest[j - 1] && rest[j - 1] in rest;
          if i > 0 {
            assert r[i] == rest[i - 1];
          }
        }
      }
      r
  }

  /** `sorted(set(datum["beta"] for datum in data))`. */
  function SortedBetas(data: seq<Datum>): (r: seq<real>)
    ensures Increasing(r)
    ensures forall b :: b in r <==> exists k :: 0 <= k < |data| && data[k].beta == b
  {
    if data == [] then []
    else
      var init := data[..|data| - 1];
      var r := Insert(SortedBetas(init), data[|data| - 1].beta);
      assert forall k :: 0 <= k < |init| ==> init[k] == data[k];
      r
  }

  /** The sorted betas hold each distinct beta of the records once. */
  lemma SortedBetasEnumerate(data: seq<Datum>)
    ensures (set b | b in SortedBetas(data)) == BetasOf(data)
    ensures forall i, j :: 0 <= i < j < |SortedBetas(data)| ==> SortedBetas(data)[i] != SortedBetas(data)[j]
  {
    var r := SortedBetas(data);
    forall b | b in BetasOf(data) ensures b in r {
      var d :| d in data && d.beta == b;
      var k :| 0 <= k < |data| && data[k] == d;
    }
  }

  /** `zip(betas, markers)`: pairs up to the shorter of the two. */
  function ZipMarkers(betas: seq<real>, markers: string): (r: seq<(real, char)>)
    ensures |r| <= |betas| && |r| <= |markers|
    ensures |r| == |betas| || |r| == |markers|
    ensures forall k :: 0 <= k < |r| ==> r[k] == (betas[k], markers[k])
  {
    var n := if |betas| < |markers| then |betas| else |markers|;
    seq(n, k requires 0 <= k < n => (betas[k], markers[k]))
  }

  /** At most six betas are drawn: the smallest ones, the k-th smallest
      with the k-th marker. */
  lemma AtMostSixBetas(data: seq<Datum>)
    ensures var pairs := ZipMarkers(SortedBetas(data), Markers);
      |pairs| == (if |SortedBetas(data)| < 6 then |SortedBetas(data)| else 6) &&
      forall k :: 0 <= k < |pairs| ==> pairs[k] == (SortedBetas(data)[k], Markers[k])
  {
  }

  /** A record is drawn in the beta-b series when it has that beta and both
      samples the x axis needs. */
  predicate Selected(d: Datum, b: real)
  {
    d.beta == b && "w0_samples" in d.fields && "smear_ps_mass_samples" in d.fields
  }

  /** The records drawn in the beta-b series, in input order. */
  function SelectedRecords(data: seq<Datum>, b: real): (r: seq<Datum>)
    ensures forall d :: d in r <==> d in data && Selected(d, b)
    ensures forall k :: 0 <= k < |r| ==> Selected(r[k], b)
  {
    if data == [] then []
    else
      var last := data[|data| - 1];
      SelectedRecords(data[..|data| - 1], b) + (if Selected(last, b) then [last] else [])
  }

  function SmearKey(ch: string): string { "smear_" + ch + "_mass_samples" }

  /** One errorbar point: the y value and its error, the x value and its
      error, in the order of the tuple the source appends. */
  datatype Point = Point(y: real, yErr: real, x: real, xErr: real)

  /** The replicas of `(a * b) ** 2`. */
  function ProductSquares(a: seq<real>, b: seq<real>): (r: seq<real>)
    requires |a| == |b|
    ensures |r| == |a|
    ensures forall i :: 0 <= i < |a| ==> r[i] == (a[i] * b[i]) * (a[i] * b[i]) && r[i] >= 0.0
  {
    Squares(Times(a, b).value)
  }

  /** `(w0 * m_ps) ** 2` and `(w0 * m_ch) ** 2` of one record, reduced to
      an errorbar point. */
  function PointOf(d: Datum, ch: string, std: seq<real> -> real): Result<Point>
    requires "w0_samples" in d.fields && "smear_ps_mass_samples" in d.fields
  {
    var w0, ps := d.fields["w0_samples"], d.fields["smear_ps_mass_samples"];
    match SampleTimes(w0, ps)
    case Err(e) => Err(e)
    case Ok(wps) =>
      if SmearKey(ch) !in d.fields then Err(KeyError(Name(SmearKey(ch))))
      else
        match SampleTimes(w0, d.fields[SmearKey(ch)])
        case Err(e) => Err(e)
        case Ok(wm) =>
          var x, y := SampleSquare(wps), SampleSquare(wm);
          Ok(Point(y.mean, std(y.samples), x.mean, std(x.samples)))
  }

  /** A point is X = (w0 * m_ps)^2 against Y = (w0 * m_ch)^2: central values
      and the spreads of the squared replica products. X is computed first,
      so its length mismatch is reported before a missing channel key. */
  lemma PointOfMeaning(d: Datum, ch: string, std: seq<real> -> real)
    requires "w0_samples" in d.fields && "smear_ps_mass_samples" in d.fields
    ensures var r, w0, ps := PointOf(d, ch, std), d.fields["w0_samples"], d.fields["smear_ps_mass_samples"];
      r.Ok? <==>
        |w0.samples| == |ps.samples| && SmearKey(ch) in d.fields &&
        |w0.samples| == |d.fields[SmearKey(ch)].samples|
    ensures var r, w0, ps := PointOf(d, ch, std), d.fields["w0_samples"], d.fields["smear_ps_mass_samples"];
      r.Err? ==>
        r.error == (if |w0.samples| == |ps.samples| && SmearKey(ch) !in d.fields
                    then KeyError(Name(SmearKey(ch))) else BroadcastError)
    ensures var r := PointOf(d, ch, std);
      r.Ok? ==>
        var w0, ps, m := d.fields["w0_samples"], d.fields["smear_ps_mass_samples"], d.fields[SmearKey(ch)];
        r.value.x == (w0.mean * ps.mean) * (w0.mean * ps.mean) &&
        r.value.y == (w0.mean * m.mean) * (w0.mean * m.mean) &&
        r.value.xErr == std(ProductSquares(w0.samples, ps.samples)) &&
        r.value.yErr == std(ProductSquares(w0.samples, m.samples))
  {
    var w0, ps := d.fields["w0_samples"], d.fields["smear_ps_mass_samples"];
    if |w0.samples| == |ps.samples| && SmearKey(ch) in d.fields && |w0.samples| == |d.fields[SmearKey(ch)].samples| {
      var m := d.fields[SmearKey(ch)];
      var x := SampleSquare(SampleTimes(w0, ps).value);
      var y := SampleSquare(SampleTimes(w0, m).value);
      assert forall i :: 0 <= i < |x.samples| ==> x.samples[i] == ProductSquares(w0.samples, ps.samples)[i];
      assert forall i :: 0 <= i < |y.samples| ==> y.samples[i] == ProductSquares(w0.samples, m.samples)[i];
      assert x.samples == ProductSquares(w0.samples, ps.samples);
      assert y.samples == ProductSquares(w0.samples, m.samples);
    }
  }

  /** `to_plot` for one beta: a point per selected record, in input order,
      or the first error. */
  function SeriesPoints(data: seq<Datum>, ch: string, b: real, std: seq<real> -> real): Result<seq<Point>>
  {
    if data == [] then Ok([])
    else
      var last := data[|data| - 1];
      match SeriesPoints(data[..|data| - 1], ch, b, std)
      case Err(e) => Err(e)
      case Ok(points) =>
        if !Selected(last, b) then Ok(points)
        else
          match PointOf(last, ch, std)
          case Err(e) => Err(e)
          case Ok(p) => Ok(points + [p])
  }

  /** A point for each record of `sel`, in order, or the first error. */
  function PointsOf(sel: seq<Datum>, ch: string, std: seq<real> -> real): Result<seq<Point>>
    requires forall k :: 0 <= k < |sel| ==> "w0_samples" in sel[k].fields && "smear_ps_mass_samples" in sel[k].fields
  {
    if sel == [] then Ok([])
    else
      match PointsOf(sel[..|sel| - 1], ch, std)
      case Err(e) => Err(e)
      case Ok(points) =>
        match PointOf(sel[|sel| - 1], ch, std)
        case Err(e) => Err(e)
        case Ok(p) => Ok(points + [p])
  }

  /** The series is the points of the selected records: records of other
      betas or without the x-axis samples are skipped. */
  lemma {:induction false} SeriesPointsSelected(data: seq<Datum>, ch: string, b: real, std: seq<real> -> real)
    ensures SeriesPoints(data, ch, b, std) == PointsOf(SelectedRecords(data, b), ch, std)
  {
    if data != [] {
      var init, last := data[..|data| - 1], data[|data| - 1];
      SeriesPointsSelected(init, ch, b, std);
      var sel0 := SelectedRecords(init, b);
      if Selected(last, b) {
        var sel := sel0 + [last];
        assert SelectedRecords(data, b) == sel;
        assert sel[..|sel| - 1] == sel0 && sel[|sel| - 1] == last;
        match PointsOf(sel0, ch, std)
        case Err(e) =>
          assert SeriesPoints(data, ch, b, std) == Err(e) == PointsOf(sel, ch, std);
        case Ok(points) =>
          assert SeriesPoints(data, ch, b, std) == PointsOf(sel, ch, std);
      } else {
        assert SelectedRecords(data, b) == sel0;
      }
    }
  }

  /** The points succeed exactly when every record yields a point, and
      then hold one point per record, in order. */
  lemma {:induction false} PointsOfEach(sel: seq<Datum>, ch: string, std: seq<real> -> real)
    requires forall k :: 0 <= k < |sel| ==> "w0_samples" in sel[k].fields && "smear_ps_mass_samples" in sel[k].fields
    ensures PointsOf(sel, ch, std).Ok? <==> forall k :: 0 <= k < |sel| ==> PointOf(sel[k], ch, std).Ok?
    ensures PointsOf(sel, ch, std).Ok? ==>
      |PointsOf(sel, ch, std).value| == |sel| &&
      forall k :: 0 <= k < |sel| ==> PointOf(sel[k], ch, std) == Ok(PointsOf(sel, ch, std).value[k])
  {
    if sel != [] {
      var init := sel[..|sel| - 1];
      PointsOfEach(init, ch, std);
      assert forall k :: 0 <= k < |init| ==> init[k] == sel[k];
    }
  }

  /** `zip(*to_plot)` with nothing to unpack. */
  const NothingToUnpack := ValueError("not enough values to unpack (expected 4, got 0)")

  /** One errorbar call: the beta, its colour and marker, and its points. */
  datatype Series = Series(beta: real, colour: BetaColour, marker: char, points: seq<Point>)

  function SeriesFor(data: seq<Datum>, ch: string, pair: (real, char), std: seq<real> -> real): (r: Result<Series>)
    ensures r.Ok? <==> SeriesPoints(data, ch, pair.0, std).Ok? && SeriesPoints(data, ch, pair.0, std).value != []
    ensures r.Ok? ==> r.value.beta == pair.0 && r.value.colour == BetaColor(pair.0) && r.value.marker == pair.1
    ensures r.Ok? ==> SeriesPoints(data, ch, pair.0, std) == Ok(r.value.points) && r.value.points != []
    ensures SeriesPoints(data, ch, pair.0, std) == Ok([]) ==> r == Err(NothingToUnpack)
    ensures SeriesPoints(data, ch, pair.0, std).Err? ==> r == Err(SeriesPoints(data, ch, pair.0, std).error)
  {
    match SeriesPoints(data, ch, pair.0, std)
    case Err(e) => Err(e)
    case Ok(points) =>
      if points == [] then Err(NothingToUnpack) else Ok(Series(pair.0, BetaColor(pair.0), pair.1, points))
  }

  /** The series of a panel, one per (beta, marker) pair, or the first error. */
  function SeriesList(data: seq<Datum>, ch: string, pairs: seq<(real, char)>, std: seq<real> -> real): (r: Result<seq<Series>>)
    ensures r.Ok? ==> |r.value| == |pairs| && forall k :: 0 <= k < |pairs| ==> SeriesFor(data, ch, pairs[k], std) == Ok(r.value[k])
  {
    if pairs == [] then Ok([])
    else
      match SeriesList(data, ch, pairs[..|pairs| - 1], std)
      case Err(e) => Err(e)
      case Ok(series) =>
        match SeriesFor(data, ch, pairs[|pairs| - 1], std)
        case Err(e) => Err(e)
        case Ok(s) => Ok(series + [s])
  }

  /** The series list succeeds exactly when every pair's series does;
      otherwise it fails with the error of the first pair that fails. */
  lemma {:induction false} SeriesListOkIff(data: seq<Datum>, ch: string, pairs: seq<(real, char)>, std: seq<real> -> real)
    ensures SeriesList(data, ch, pairs, std).Ok? <==> forall k :: 0 <= k < |pairs| ==> SeriesFor(data, ch, pairs[k], std).Ok?
    ensures SeriesList(data, ch, pairs, std).Err? ==>
      exists k :: 0 <= k < |pairs| && SeriesFor(data, ch, pairs[k], std).Err? &&
        SeriesList(data, ch, pairs, std).error == SeriesFor(data, ch, pairs[k], std).error &&
        forall j :: 0 <= j < k ==> SeriesFor(data, ch, pairs[j], std).Ok?
  {
    if pairs != [] {
      var init := pairs[..|pairs| - 1];
      SeriesListOkIff(data, ch, init, std);
      assert forall k :: 0 <= k < |init| ==> init[k] == pairs[k];
    }
  }

  /** The inner loop over the records for one beta. */
  method CollectPoints(data: seq<Datum>, ch: string, b: real, std: seq<real> -> real) returns (r: Result<seq<Point>>)
    ensures r == SeriesPoints(data, ch, b, std)
  {
    var toPlot: seq<Point> := [];
    var i := 0;
    while i < |data|
      invariant 0 <= i <= |data|
      invariant SeriesPoints(data[..i], ch, b, std) == Ok(toPlot)
    {
      var datum := data[i];
      assert data[..i + 1][..i] == data[..i] && data[..i + 1][i] == datum;
      if datum.beta != b {
        i := i + 1;
        continue;
      }
      if "w0_samples" !in datum.fields || "smear_ps_mass_samples" !in datum.fields {
        i := i + 1;
        continue;
      }
      var point := PointOf(datum, ch, std);
      if point.Err? {
        StopsAtError(data, i, ch, b, std);
        return Err(point.error);
      }
      toPlot := toPlot + [point.value];
      i := i + 1;
    }
    assert data[..i] == data;
    r := Ok(toPlot);
  }

  /** An error at record i is the error of the whole series. */
  lemma {:induction false} StopsAtError(data: seq<Datum>, i: nat, ch: string, b: real, std: seq<real> -> real)
    requires i < |data| && SeriesPoints(data[..i], ch, b, std).Ok? && Selected(data[i], b)
    requires PointOf(data[i], ch, std).Err?
    ensures SeriesPoints(data, ch, b, std) == Err(PointOf(data[i], ch, std).error)
    decreases |data| - i
  {
    assert data[..i + 1][..i] == data[..i];
    var n := i + 1;
    while n < |data|
      invariant i + 1 <= n <= |data|
      invariant SeriesPoints(data[..n], ch, b, std) == Err(PointOf(data[i], ch, std).error)
    {
      assert data[..n + 1][..n] == data[..n];
      n := n + 1;
    }
    assert data[..n] == data;
  }

  /** The loop over (beta, marker) pairs. */
  method CollectSeries(data: seq<Datum>, ch: string, pairs: seq<(real, char)>, std: seq<real> -> real)
    returns (r: Result<seq<Series>>)
    ensures r == SeriesList(data, ch, pairs, std)
  {
    var series: seq<Series> := [];
    var i := 0;
    while i < |pairs|
      invariant 0 <= i <= |pairs|
      invariant SeriesList(data, ch, pairs[..i], std) == Ok(series)
    {
      var (beta, marker) := pairs[i];
      assert pairs[..i + 1][..i] == pairs[..i] && pairs[..i + 1][i] == (beta, marker);
      var points := CollectPoints(data, ch, beta, std);
      if points.Err? {
        ListStopsAtError(data, ch, pairs, i, std);
        return Err(points.error);
      }
      if points.value == [] {
        ListStopsAtError(data, ch, pairs, i, std);
        return Err(NothingToUnpack);
      }
      series := series + [Series(beta, BetaColor(beta), marker, points.value)];
      i := i + 1;
    }
    assert pairs[..i] == pairs;
    r := Ok(series);
  }

  lemma {:induction false} ListStopsAtError(data: seq<Datum>, ch: string, pairs: seq<(real, char)>, i: nat, std: seq<real> -> real)
    requires i < |pairs| && SeriesList(data, ch, pairs[..i], std).Ok?
    requires SeriesFor(data, ch, pairs[i], std).Err?
    ensures SeriesList(data, ch, pairs, std) == Err(SeriesFor(data, ch, pairs[i], std).error)
  {
    assert pairs[..i + 1][..i] == pairs[..i];
    var n := i + 1;
    while n < |pairs|
      invariant i + 1 <= n <= |pairs|
      invariant SeriesList(data, ch, pairs[..n], std) == Err(SeriesFor(data, ch, pairs[i], std).error)
    {
      assert pairs[..n + 1][..n] == pairs[..n];
      n := n + 1;
    }
    assert pairs[..n] == pairs;
  }

  // ----- fitted bands -----

  /** The number of points of a fitted band. */
  const NFit: nat := 1000

  /** A fit record, grouped by channel: the replicas of M and of L. */
  datatype FitRecord = FitRecord(channel: string, m: Sample, l: Sample)

  /** What `fill_between` receives: x^2 and the upper and lower edges. With
      at most one replica row the spread (and with none the centre) is the
      mean or deviation of an empty array, NaN, and nothing is drawn. */
  datatype Band = Band(x2: seq<real>, up: seq<real>, down: seq<real>) | NaNBand

  /** Row n of `Yfit` at x: `A[n] * (1 + L[n] * x**2)`. */
  function Curve(a: real, l: real, x: real): real
  {
    a * (1.0 + l * (x * x))
  }

  function Sum(s: seq<real>): real
  {
    if s == [] then 0.0 else Sum(s[..|s| - 1]) + s[|s| - 1]
  }

  function Mean(s: seq<real>): real
    requires s != []
  {
    Sum(s) / (|s| as real)
  }

  /** Column i of `Yfit`: every replica's curve at x[i]. */
  function Column(a: seq<real>, l: seq<real>, xs: seq<real>, i: nat): (c: seq<real>)
    requires |a| <= |l| && i < |xs|
    ensures |c| == |a| && forall n :: 0 <= n < |a| ==> c[n] == Curve(a[n], l[n], xs[i])
  {
    seq(|a|, n requires 0 <= n < |a| => Curve(a[n], l[n], xs[i]))
  }

  /** The edges at x[i]: the mean over every row, plus or minus the
      deviation over every row but the last. */
  function Upper(a: seq<real>, l: seq<real>, xs: seq<real>, std: seq<real> -> real, i: nat): real
    requires 1 < |a| <= |l| && i < |xs|
  {
    var c := Column(a, l, xs, i);
    Mean(c) + std(c[..|a| - 1])
  }

  function Lower(a: seq<real>, l: seq<real>, xs: seq<real>, std: seq<real> -> real, i: nat): real
    requires 1 < |a| <= |l| && i < |xs|
  {
    var c := Column(a, l, xs, i);
    Mean(c) - std(c[..|a| - 1])
  }

  /** `plot_axpb_y` on replica arrays A and L: an IndexError when L is
      shorter than A, otherwise the band. */
  function BandSpec(a: seq<real>, l: seq<real>, xs: seq<real>, std: seq<real> -> real): (r: Result<Band>)
    ensures r.Err? <==> |l| < |a|
    ensures r.Err? ==> r.error == IndexError
    ensures r == Ok(NaNBand) <==> |a| <= 1 && |a| <= |l|
  {
    if |l| < |a| then Err(IndexError)
    else if |a| <= 1 then Ok(NaNBand)
    else Ok(Band(Squares(xs),
                 seq(|xs|, i requires 0 <= i < |xs| => Upper(a, l, xs, std, i)),
                 seq(|xs|, i requires 0 <= i < |xs| => Lower(a, l, xs, std, i))))
  }

  /** The band is centred on the mean of all rows and is twice the
      deviation of all rows but the last wide, never negatively. */
  lemma BandWidth(a: seq<real>, l: seq<real>, xs: seq<real>, std: seq<real> -> real, i: nat)
    requires BandSpec(a, l, xs, std).Ok? && BandSpec(a, l, xs, std).value.Band?
    requires i < |xs|
    requires forall s :: std(s) >= 0.0
    ensures var band := BandSpec(a, l, xs, std).value;
      1 < |a| <= |l| && |band.x2| == |band.up| == |band.down| == |xs| &&
      band.x2[i] == xs[i] * xs[i] &&
      band.up[i] - band.down[i] == 2.0 * std(Column(a, l, xs, i)[..|a| - 1]) >= 0.0 &&
      band.up[i] + band.down[i] == 2.0 * Mean(Column(a, l, xs, i))
  {
    assert std(Column(a, l, xs, i)[..|a| - 1]) >= 0.0;
  }

  /** `plot_axpb_y`: fills `Yfit` row by row, then the edges column by
      column. */
  method AxpbBand(a: seq<real>, l: seq<real>, xs: seq<real>, std: seq<real> -> real) returns (r: Result<Band>)
    requires |xs| == NFit
    ensures r == BandSpec(a, l, xs, std)
  {
    var yfit := new real[|a|, |xs|];
    var n := 0;
    while n < |a|
      invariant 0 <= n <= |a| && n <= |l|
      invariant forall m, j :: 0 <= m < n && 0 <= j < |xs| ==> yfit[m, j] == Curve(a[m], l[m], xs[j])
    {
      if n >= |l| {
        return Err(IndexError);
      }
      var j := 0;
      while j < |xs|
        invariant 0 <= j <= |xs|
        invariant forall m, j' :: 0 <= m < n && 0 <= j' < |xs| ==> yfit[m, j'] == Curve(a[m], l[m], xs[j'])
        invariant forall j' :: 0 <= j' < j ==> yfit[n, j'] == Curve(a[n], l[n], xs[j'])
      {
        yfit[n, j] := Curve(a[n], l[n], xs[j]);
        j := j + 1;
      }
      n := n + 1;
    }
    if |a| <= 1 {
      return Ok(NaNBand);
    }
    var up := new real[|xs|];
    var down := new real[|xs|];
    var i := 0;
    while i < |xs|
      invariant 0 <= i <= |xs|
      invariant forall m, j :: 0 <= m < |a| && 0 <= j < |xs| ==> yfit[m, j] == Curve(a[m], l[m], xs[j])
      invariant forall k :: 0 <= k < i ==> up[k] == Upper(a, l, xs, std, k) && down[k] == Lower(a, l, xs, std, k)
    {
      var column: seq<real> := [];
      var m := 0;
      while m < |a|
        invariant 0 <= m <= |a|
        invariant column == Column(a, l, xs, i)[..m]
      {
        column := column + [yfit[m, i]];
        m := m + 1;
      }
      assert column == Column(a, l, xs, i);
      var err := std(column[..|a| - 1]);
      var centre := Mean(column);
      up[i] := centre + err;
      down[i] := centre - err;
      i := i + 1;
    }
    assert up[..] == seq(|xs|, k requires 0 <= k < |xs| => Upper(a, l, xs, std, k));
    assert down[..] == seq(|xs|, k requires 0 <= k < |xs| => Lower(a, l, xs, std, k));
    r := Ok(Band(Squares(xs), up[..], down[..]));
  }

  /** The bands of a panel: one per fit record of its channel, in input
      order, or the first error. */
  function FitBands(fits: seq<FitRecord>, ch: string, xs: seq<real>, std: seq<real> -> real): Result<seq<Band>>
  {
    if fits == [] then Ok([])
    else
      var last := fits[|fits| - 1];
      match FitBands(fits[..|fits| - 1], ch, xs, std)
      case Err(e) => Err(e)
      case Ok(bands) =>
        if last.channel != ch then Ok(bands)
        else
          match BandSpec(last.m.samples, last.l.samples, xs, std)
          case Err(e) => Err(e)
          case Ok(band) => Ok(bands + [band])
  }

  /** The fit records of one channel, in input order. */
  function FitsFor(fits: seq<FitRecord>, ch: string): (r: seq<FitRecord>)
    ensures forall f :: f in r <==> f in fits && f.channel == ch
  {
    if fits == [] then []
    else
      var last := fits[|fits| - 1];
      FitsFor(fits[..|fits| - 1], ch) + (if last.channel == ch then [last] else [])
  }

  /** A panel's bands come from its own channel's fit records only, one
      band per record. */
  lemma {:induction false} FitBandsFromChannel(fits: seq<FitRecord>, ch: string, xs: seq<real>, std: seq<real> -> real)
    ensures var own := FitsFor(fits, ch);
      FitBands(fits, ch, xs, std).Ok? <==>
        forall k :: 0 <= k < |own| ==> |own[k].m.samples| <= |own[k].l.samples|
    ensures var own := FitsFor(fits, ch);
      FitBands(fits, ch, xs, std).Ok? ==>
        |FitBands(fits, ch, xs, std).value| == |own| &&
        forall k :: 0 <= k < |own| ==>
          BandSpec(own[k].m.samples, own[k].l.samples, xs, std) == Ok(FitBands(fits, ch, xs, std).value[k])
  {
    if fits != [] {
      var init, last := fits[..|fits| - 1], fits[|fits| - 1];
      FitBandsFromChannel(init, ch, xs, std);
      var own0 := FitsFor(init, ch);
      var own := FitsFor(fits, ch);
      if last.channel == ch {
        assert own == own0 + [last];
        assert own[|own0|] == last;
        assert forall k :: 0 <= k < |own0| ==> own[k] == own0[k];
      } else {
        assert own == own0;
      }
    }
  }

  /** The loop over the fit records for one channel. */
  method CollectBands(fits: seq<FitRecord>, ch: string, xs: seq<real>, std: seq<real> -> real) returns (r: Result<seq<Band>>)
    requires |xs| == NFit
    ensures r == FitBands(fits, ch, xs, std)
  {
    var bands: seq<Band> := [];
    var i := 0;
    while i < |fits|
      invariant 0 <= i <= |fits|
      invariant FitBands(fits[..i], ch, xs, std) == Ok(bands)
    {
      var parameter := fits[i];
      assert fits[..i + 1][..i] == fits[..i] && fits[..i + 1][i] == parameter;
      if parameter.channel == ch {
        var band := AxpbBand(parameter.m.samples, parameter.l.samples, xs, std);
        if band.Err? {
          BandsStopAtError(fits, ch, xs, std, i);
          return Err(band.error);
        }
        bands := bands + [band.value];
      }
      i := i + 1;
    }
    assert fits[..i] == fits;
    r := Ok(bands);
  }

  lemma {:induction false} BandsStopAtError(fits: seq<FitRecord>, ch: string, xs: seq<real>, std: seq<real> -> real, i: nat)
    requires i < |fits| && FitBands(fits[..i], ch, xs, std).Ok? && fits[i].channel == ch
    requires BandSpec(fits[i].m.samples, fits[i].l.samples, xs, std).Err?
    ensures FitBands(fits, ch, xs, std) == Err(IndexError)
  {
    assert fits[..i + 1][..i] == fits[..i];
    var n := i + 1;
    while n < |fits|
      invariant i + 1 <= n <= |fits|
      invariant FitBands(fits[..n], ch, xs, std) == Err(IndexError)
    {
      assert fits[..n + 1][..n] == fits[..n];
      n := n + 1;
    }
    assert fits[..n] == fits;
  }

  // ----- the panels -----

  /** One panel of the grid: its channel, its cell, its series and its bands. */
  datatype Panel = Panel(channel: string, row: int, col: int, series: seq<Series>, bands: seq<Band>)

  /** The panel of the k-th channel. */
  function PanelAt(data: seq<Datum>, fits: seq<FitRecord>, xs: seq<real>, std: seq<real> -> real, k: nat): (r: Result<Panel>)
    requires k < |Channels|
    ensures r.Ok? ==> r.value.channel == Channels[k] && (r.value.row, r.value.col) == Cursor(k)
    ensures r.Ok? ==>
      SeriesList(data, Channels[k], ZipMarkers(SortedBetas(data), Markers), std) == Ok(r.value.series) &&
      FitBands(fits, Channels[k], xs, std) == Ok(r.value.bands)
    ensures r.Ok? <==>
      SeriesList(data, Channels[k], ZipMarkers(SortedBetas(data), Markers), std).Ok? &&
      FitBands(fits, Channels[k], xs, std).Ok?
    ensures SeriesList(data, Channels[k], ZipMarkers(SortedBetas(data), Markers), std).Err? ==>
      r == Err(SeriesList(data, Channels[k], ZipMarkers(SortedBetas(data), Markers), std).error)
    ensures SeriesList(data, Channels[k], ZipMarkers(SortedBetas(data), Markers), std).Ok? &&
            FitBands(fits, Channels[k], xs, std).Err? ==>
      r == Err(FitBands(fits, Channels[k], xs, std).error)
  {
    var ch := Channels[k];
    match SeriesList(data, ch, ZipMarkers(SortedBetas(data), Markers), std)
    case Err(e) => Err(e)
    case Ok(series) =>
      match FitBands(fits, ch, xs, std)
      case Err(e) => Err(e)
      case Ok(bands) => Ok(Panel(ch, Cursor(k).0, Cursor(k).1, series, bands))
  }

  /** The panels of the first n channels, or the first error. */
  function Panels(data: seq<Datum>, fits: seq<FitRecord>, xs: seq<real>, std: seq<real> -> real, n: nat): (r: Result<seq<Panel>>)
    requires n <= |Channels|
    ensures r.Ok? ==> |r.value| == n && forall k :: 0 <= k < n ==> PanelAt(data, fits, xs, std, k) == Ok(r.value[k])
  {
    if n == 0 then Ok([])
    else
      match Panels(data, fits, xs, std, n - 1)
      case Err(e) => Err(e)
      case Ok(panels) =>
        match PanelAt(data, fits, xs, std, n - 1)
        case Err(e) => Err(e)
        case Ok(p) => Ok(panels + [p])
  }

  /** The panels of the first n channels exist exactly when each of those
      panels does; otherwise the first failing panel's error is returned. */
  lemma {:induction false} PanelsOkIff(data: seq<Datum>, fits: seq<FitRecord>, xs: seq<real>, std: seq<real> -> real, n: nat)
    requires n <= |Channels|
    ensures Panels(data, fits, xs, std, n).Ok? <==> forall k :: 0 <= k < n ==> PanelAt(data, fits, xs, std, k).Ok?
    ensures Panels(data, fits, xs, std, n).Err? ==>
      exists k :: 0 <= k < n && PanelAt(data, fits, xs, std, k).Err? &&
        Panels(data, fits, xs, std, n).error == PanelAt(data, fits, xs, std, k).error &&
        forall j :: 0 <= j < k ==> PanelAt(data, fits, xs, std, j).Ok?
  {
    if n > 0 {
      PanelsOkIff(data, fits, xs, std, n - 1);
    }
  }

  /** `plot`: walks the channels, placing each panel at the cursor and
      moving the cursor on. */
  method Plot(data: seq<Datum>, fits: seq<FitRecord>, xs: seq<real>, std: seq<real> -> real) returns (r: Result<seq<Panel>>)
    requires |xs| == NFit
    ensures r == Panels(data, fits, xs, std, |Channels|)
  {
    var subplotRow, subplotCol := 0, 0;
    var panels: seq<Panel> := [];
    var k := 0;
    while k < |Channels|
      invariant 0 <= k <= |Channels|
      invariant (subplotRow, subplotCol) == Cursor(k)
      invariant Panels(data, fits, xs, std, k) == Ok(panels)
    {
      var ch := Channels[k];
      var betas := SortedBetas(data);
      var series := CollectSeries(data, ch, ZipMarkers(betas, Markers), std);
      if series.Err? {
        PanelsStopAtError(data, fits, xs, std, k);
        return Err(series.error);
      }
      var bands := CollectBands(fits, ch, xs, std);
      if bands.Err? {
        PanelsStopAtError(data, fits, xs, std, k);
        return Err(bands.error);
      }
      panels := panels + [Panel(ch, subplotRow, subplotCol, series.value, bands.value)];
      StepCursor(k);
      subplotRow := subplotRow + 1 - subplotCol * 3;
      subplotCol := subplotCol + TruncDiv3(subplotRow);
      subplotRow := subplotRow % 3;
      k := k + 1;
    }
    r := Ok(panels);
  }

  lemma {:induction false} PanelsStopAtError(data: seq<Datum>, fits: seq<FitRecord>, xs: seq<real>, std: seq<real> -> real, k: nat)
    requires k < |Channels| && Panels(data, fits, xs, std, k).Ok? && PanelAt(data, fits, xs, std, k).Err?
    ensures Panels(data, fits, xs, std, |Channels|) == Err(PanelAt(data, fits, xs, std, k).error)
  {
    var n := k + 1;
    while n < |Channels|
      invariant k + 1 <= n <= |Channels|
      invariant Panels(data, fits, xs, std, n) == Err(PanelAt(data, fits, xs, std, k).error)
    {
      n := n + 1;
    }
  }
}

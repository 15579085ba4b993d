/** The data bookkeeping of the decay-constant extrapolation
    (src/extrapolation_decay.py): `prepare_data` selects the usable ensemble
    records and lays each one out as a row of replica values followed by the
    central value; `main` splits each fitted parameter's row back into its
    replicas and its central value before writing it.

    The Z factor (which needs the unseen `C_R` and pi), the test for a NaN
    replica mean and the standard deviation are floating-point numerics
    passed in as functions. */
module ExtrapolationDecay {
  import opened Common

  /** One kept record's row in each of the three arrays. */
  datatype Rows = Rows(mPsSqr: seq<real>, latA: seq<real>, fChSqr: seq<real>)

  /** The three arrays `prepare_data` returns. */
  datatype Prepared = Prepared(mPsSqr: seq<seq<real>>, latA: seq<seq<real>>, fChSqr: seq<seq<real>>)

  function MatrixElementKey(channel: string): string { channel + "_matrix_element_samples" }

  function MassKey(channel: string): string { channel + "_mass_samples" }

  /** The three presence checks that make `prepare_data` skip a record. */
  predicate HasInputs(d: Datum, channel: string)
  {
    "w0_samples" in d.fields && "ps_mass_samples" in d.fields && MatrixElementKey(channel) in d.fields
  }

  /** A record is kept when it has its inputs and its mass replicas do not
      average to NaN. */
  predicate Kept(d: Datum, channel: string, meanIsNaN: seq<real> -> bool)
  {
    HasInputs(d, channel) && MassKey(channel) in d.fields && !meanIsNaN(d.fields[MassKey(channel)].samples)
  }

  /** `np.append(s.samples, s.mean)`: the replicas, then the central value. */
  function Layout(s: Sample): (r: seq<real>)
    ensures |r| == |s.samples| + 1
    ensures r[..|s.samples|] == s.samples && r[|s.samples|] == s.mean
    ensures forall i :: 0 <= i < |s.samples| ==> r[i] == s.samples[i]
  {
    s.samples + [s.mean]
  }

  /** Elementwise `1 / w0`. IEEE division by zero gives infinity, which the
      reals do not have; the model maps 0 to 0. */
  function Reciprocals(a: seq<real>): (r: seq<real>)
    ensures |r| == |a|
    ensures forall i :: 0 <= i < |a| && a[i] != 0.0 ==> r[i] * a[i] == 1.0
  {
    seq(|a|, i requires 0 <= i < |a| => if a[i] == 0.0 then 0.0 else 1.0 / a[i])
  }

  /** The Z factor applied to each plaquette replica. */
  function ZReplicas(beta: real, plaquette: seq<real>, zFactor: (real, real) -> real): (r: seq<real>)
    ensures |r| == |plaquette|
    ensures forall i :: 0 <= i < |plaquette| ==> r[i] == zFactor(beta, plaquette[i])
  {
    seq(|plaquette|, i requires 0 <= i < |plaquette| => zFactor(beta, plaquette[i]))
  }

  function Sq(x: real): real { x * x }

  /** Row of `m_ps_sqr`: replica i is (w0_i * m_ps_i)^2, the last slot is
      built from the central values. */
  ghost predicate MPsSqrRow(row: seq<real>, w0: Sample, ps: Sample)
  {
    var R := |w0.samples|;
    |ps.samples| == R && |row| == R + 1 &&
    (forall i :: 0 <= i < R ==> row[i] == Sq(w0.samples[i] * ps.samples[i])) &&
    row[R] == Sq(w0.mean * ps.mean)
  }

  /** Row of `f_ch_sqr`: replica i renormalises the matrix element with the
      Z factor of plaquette replica i; the last slot uses the central
      plaquette. */
  ghost predicate FChSqrRow(row: seq<real>, beta: real, w0: Sample, element: Sample, plaquette: Sample,
                            zFactor: (real, real) -> real)
  {
    var R := |w0.samples|;
    |element.samples| == R && |plaquette.samples| == R && |row| == R + 1 &&
    (forall i :: 0 <= i < R ==>
       row[i] == Sq(w0.samples[i] * (element.samples[i] * zFactor(beta, plaquette.samples[i])))) &&
    row[R] == Sq(w0.mean * (element.mean * zFactor(beta, plaquette.mean)))
  }

  /** Row of `lat_a`: the reciprocal of each slot of the w0 row. */
  ghost predicate LatARow(row: seq<real>, w0: Sample)
  {
    var w := Layout(w0);
    |row| == |w| && forall i :: 0 <= i < |w| && w[i] != 0.0 ==> row[i] * w[i] == 1.0
  }

  /** `1 / w0` on the laid-out w0 row. */
  function LatAOf(w0: Sample): (r: seq<real>)
    ensures LatARow(r, w0)
  {
    Reciprocals(Layout(w0))
  }

  /** The replica counts that the elementwise products need to agree. */
  predicate SameReplicaCount(d: Datum, channel: string)
    requires HasInputs(d, channel) && "plaquette_samples" in d.fields
  {
    var R := |d.fields["w0_samples"].samples|;
    |d.fields["ps_mass_samples"].samples| == R &&
    |d.fields[MatrixElementKey(channel)].samples| == R &&
    |d.fields["plaquette_samples"].samples| == R
  }

  /** `(w0 * m_ps) ** 2` on the two laid-out rows. */
  function MPsSqrOf(w0: Sample, ps: Sample): (r: Result<seq<real>>)
    ensures r.Ok? <==> |ps.samples| == |w0.samples|
    ensures r.Err? ==> r.error == BroadcastError
    ensures r.Ok? ==> MPsSqrRow(r.value, w0, ps)
  {
    match Times(Layout(w0), Layout(ps))
    case Err(e) => Err(e)
    case Ok(product) =>
      MPsSqrLaidOut(w0, ps, product);
      Ok(Squares(product))
  }

  lemma MPsSqrLaidOut(w0: Sample, ps: Sample, product: seq<real>)
    requires Times(Layout(w0), Layout(ps)) == Ok(product)
    ensures MPsSqrRow(Squares(product), w0, ps)
  {
    var R := |w0.samples|;
    var sq := Squares(product);
    forall i | 0 <= i < R ensures sq[i] == Sq(w0.samples[i] * ps.samples[i]) {
      assert product[i] == w0.samples[i] * ps.samples[i];
    }
    assert product[R] == w0.mean * ps.mean;
    assert sq[R] == Sq(product[R]);
  }

  /** `(w0 * f_ch) ** 2`, where the renormalised matrix element `f_ch` is
      the replicas times their Z factors, then the central value times the
      central Z factor. */
  function FChSqrOf(beta: real, w0: Sample, element: Sample, plaquette: Sample,
                    zFactor: (real, real) -> real): (r: Result<seq<real>>)
    ensures r.Ok? <==> |element.samples| == |plaquette.samples| == |w0.samples|
    ensures r.Err? ==> r.error == BroadcastError
    ensures r.Ok? ==> FChSqrRow(r.value, beta, w0, element, plaquette, zFactor)
  {
    match Times(element.samples, ZReplicas(beta, plaquette.samples, zFactor))
    case Err(e) => Err(e)
    case Ok(scaled) =>
      var fCh := scaled + [element.mean * zFactor(beta, plaquette.mean)];
      match Times(Layout(w0), fCh)
      case Err(e) => Err(e)
      case Ok(product) =>
        FChSqrLaidOut(beta, w0, element, plaquette, zFactor, scaled, product);
        Ok(Squares(product))
  }

  lemma FChSqrLaidOut(beta: real, w0: Sample, element: Sample, plaquette: Sample, zFactor: (real, real) -> real,
                      scaled: seq<real>, product: seq<real>)
    requires Times(element.samples, ZReplicas(beta, plaquette.samples, zFactor)) == Ok(scaled)
    requires Times(Layout(w0), scaled + [element.mean * zFactor(beta, plaquette.mean)]) == Ok(product)
    ensures FChSqrRow(Squares(product), beta, w0, element, plaquette, zFactor)
  {
    var R := |w0.samples|;
    var fCh := scaled + [element.mean * zFactor(beta, plaquette.mean)];
    forall i | 0 <= i < R
      ensures Squares(product)[i] == Sq(w0.samples[i] * (element.samples[i] * zFactor(beta, plaquette.samples[i])))
    {
      assert fCh[i] == scaled[i] == element.samples[i] * zFactor(beta, plaquette.samples[i]);
      assert product[i] == w0.samples[i] * fCh[i];
    }
    assert product[R] == w0.mean * (element.mean * zFactor(beta, plaquette.mean));
  }

  /** The three rows of a record that passed the filters, or the
      broadcasting error of numpy when its replica counts differ. */
  function RecordRows(d: Datum, channel: string, zFactor: (real, real) -> real): (r: Result<Rows>)
    requires HasInputs(d, channel) && "plaquette_samples" in d.fields
    ensures r.Ok? <==> SameReplicaCount(d, channel)
    ensures r.Err? ==> r.error == BroadcastError
    ensures r.Ok? ==> MPsSqrRow(r.value.mPsSqr, d.fields["w0_samples"], d.fields["ps_mass_samples"])
    ensures r.Ok? ==> LatARow(r.value.latA, d.fields["w0_samples"])
    ensures r.Ok? ==> FChSqrRow(r.value.fChSqr, d.beta, d.fields["w0_samples"], d.fields[MatrixElementKey(channel)],
                                d.fields["plaquette_samples"], zFactor)
  {
    var w0, ps := d.fields["w0_samples"], d.fields["ps_mass_samples"];
    var element, plaquette := d.fields[MatrixElementKey(channel)], d.fields["plaquette_samples"];
    var fChSqr := FChSqrOf(d.beta, w0, element, plaquette, zFactor);
    var mPsSqr := MPsSqrOf(w0, ps);
    if fChSqr.Err? then Err(fChSqr.error)
    else if mPsSqr.Err? then Err(mPsSqr.error)
    else Ok(Rows(mPsSqr.value, LatAOf(w0), fChSqr.value))
  }

  /** The squared rows hold no negative entry. */
  lemma SquaredRowsNonNegative(d: Datum, channel: string, zFactor: (real, real) -> real)
    requires HasInputs(d, channel) && "plaquette_samples" in d.fields
    requires RecordRows(d, channel, zFactor).Ok?
    ensures var rows := RecordRows(d, channel, zFactor).value;
      forall i :: 0 <= i < |rows.mPsSqr| ==> rows.mPsSqr[i] >= 0.0
    ensures var rows := RecordRows(d, channel, zFactor).value;
      forall i :: 0 <= i < |rows.fChSqr| ==> rows.fChSqr[i] >= 0.0
  {
  }

  /** What one pass of the loop in `prepare_data` does with a record:
      `Ok(None)` when it is skipped, the record's three rows when it is
      kept, or the exception raised on it. */
  function PrepareDatum(d: Datum, channel: string, meanIsNaN: seq<real> -> bool,
                        zFactor: (real, real) -> real): (r: Result<Option<Rows>>)
    ensures r == Ok(None) <==> !Kept(d, channel, meanIsNaN) && (HasInputs(d, channel) ==> MassKey(channel) in d.fields)
    ensures HasInputs(d, channel) && MassKey(channel) !in d.fields ==> r == Err(KeyError(Name(MassKey(channel))))
    ensures Kept(d, channel, meanIsNaN) && "plaquette_samples" !in d.fields ==> r == Err(KeyError(Name("plaquette_samples")))
    ensures Kept(d, channel, meanIsNaN) && "plaquette_samples" in d.fields ==>
      r == match RecordRows(d, channel, zFactor) case Ok(rows) => Ok(Some(rows)) case Err(e) => Err(e)
  {
    if !HasInputs(d, channel) then Ok(None)
    else if MassKey(channel) !in d.fields then Err(KeyError(Name(MassKey(channel))))
    else if meanIsNaN(d.fields[MassKey(channel)].samples) then Ok(None)
    else if "plaquette_samples" !in d.fields then Err(KeyError(Name("plaquette_samples")))
    else
      match RecordRows(d, channel, zFactor)
      case Err(e) => Err(e)
      case Ok(rows) => Ok(Some(rows))
  }

  /** `prepare_data` over the first records, as a specification: rows are
      appended in input order, and the first exception ends the pass. */
  function Prepare(data: seq<Datum>, channel: string, meanIsNaN: seq<real> -> bool,
                   zFactor: (real, real) -> real): Result<Prepared>
  {
    if data == [] then Ok(Prepared([], [], []))
    else
      match Prepare(data[..|data| - 1], channel, meanIsNaN, zFactor)
      case Err(e) => Err(e)
      case Ok(p) =>
        match PrepareDatum(data[|data| - 1], channel, meanIsNaN, zFactor)
        case Err(e) => Err(e)
        case Ok(None) => Ok(p)
        case Ok(Some(rows)) => Ok(Prepared(p.mPsSqr + [rows.mPsSqr], p.latA + [rows.latA], p.fChSqr + [rows.fChSqr]))
  }

  /** The records `prepare_data` keeps, in input order. */
  function KeptRecords(data: seq<Datum>, channel: string, meanIsNaN: seq<real> -> bool): seq<Datum>
  {
    if data == [] then []
    else
      var last := data[|data| - 1];
      KeptRecords(data[..|data| - 1], channel, meanIsNaN) + (if Kept(last, channel, meanIsNaN) then [last] else [])
  }

  /** `prepare_data` itself: loops over the records, skipping those that
      lack an input or whose mass replicas average to NaN, and appends one
      row per kept record to each of the three arrays. */
  method PrepareData(data: seq<Datum>, channel: string, meanIsNaN: seq<real> -> bool,
                     zFactor: (real, real) -> real) returns (r: Result<Prepared>)
    ensures r == Prepare(data, channel, meanIsNaN, zFactor)
  {
    var mPsSqr, latA, fChSqr := [], [], [];
    var i := 0;
    while i < |data|
      invariant 0 <= i <= |data|
      invariant Prepare(data[..i], channel, meanIsNaN, zFactor) == Ok(Prepared(mPsSqr, latA, fChSqr))
    {
      var datum := data[i];
      assert data[..i + 1][..i] == data[..i];
      if "w0_samples" !in datum.fields || "ps_mass_samples" !in datum.fields
         || MatrixElementKey(channel) !in datum.fields {
        i := i + 1;
        continue;
      }
      if MassKey(channel) !in datum.fields {
        PrepareStopsAtError(data, i + 1, channel, meanIsNaN, zFactor);
        return Err(KeyError(Name(MassKey(channel))));
      }
      if meanIsNaN(datum.fields[MassKey(channel)].samples) {
        i := i + 1;
        continue;
      }
      var rows := PrepareDatum(datum, channel, meanIsNaN, zFactor);
      if rows.Err? {
        PrepareStopsAtError(data, i + 1, channel, meanIsNaN, zFactor);
        return Err(rows.error);
      }
      var row := rows.value.value;
      mPsSqr := mPsSqr + [row.mPsSqr];
      fChSqr := fChSqr + [row.fChSqr];
      latA := latA + [row.latA];
      i := i + 1;
    }
    assert data[..i] == data;
    r := Ok(Prepared(mPsSqr, latA, fChSqr));
  }

  /** Once a prefix of the records raises, the whole pass raises the same
      exception. */
  lemma {:induction false} PrepareStopsAtError(data: seq<Datum>, n: nat, channel: string,
                                               meanIsNaN: seq<real> -> bool, zFactor: (real, real) -> real)
    requires n <= |data|
    requires Prepare(data[..n], channel, meanIsNaN, zFactor).Err?
    ensures Prepare(data, channel, meanIsNaN, zFactor) == Prepare(data[..n], channel, meanIsNaN, zFactor)
    decreases |data| - n
  {
    if n == |data| {
      assert data[..n] == data;
    } else {
      assert data[..n + 1][..n] == data[..n];
      PrepareStopsAtError(data, n + 1, channel, meanIsNaN, zFactor);
    }
  }

  /** When `prepare_data` succeeds, the three arrays have one row per kept
      record, in input order, and row k of each array comes from the k-th
      kept record. */
  lemma {:induction false} PrepareRowsFromKeptRecords(data: seq<Datum>, channel: string,
                                                      meanIsNaN: seq<real> -> bool, zFactor: (real, real) -> real)
    requires Prepare(data, channel, meanIsNaN, zFactor).Ok?
    ensures var p, kept := Prepare(data, channel, meanIsNaN, zFactor).value, KeptRecords(data, channel, meanIsNaN);
      |p.mPsSqr| == |kept| && |p.latA| == |kept| && |p.fChSqr| == |kept| &&
      forall k :: 0 <= k < |kept| ==>
        PrepareDatum(kept[k], channel, meanIsNaN, zFactor).Ok? &&
        PrepareDatum(kept[k], channel, meanIsNaN, zFactor).value.Some? &&
        var rows := PrepareDatum(kept[k], channel, meanIsNaN, zFactor).value.value;
        p.mPsSqr[k] == rows.mPsSqr && p.latA[k] == rows.latA && p.fChSqr[k] == rows.fChSqr
  {
    if data != [] {
      var init := data[..|data| - 1];
      PrepareRowsFromKeptRecords(init, channel, meanIsNaN, zFactor);
    }
  }

  /** `prepare_data` raises exactly when some record raises, and then it
      raises that of the first such record. */
  lemma {:induction false} PrepareFailsAtFirstFailingRecord(data: seq<Datum>, channel: string,
                                                            meanIsNaN: seq<real> -> bool, zFactor: (real, real) -> real)
    ensures Prepare(data, channel, meanIsNaN, zFactor).Err? <==>
      exists k :: 0 <= k < |data| && PrepareDatum(data[k], channel, meanIsNaN, zFactor).Err?
    ensures Prepare(data, channel, meanIsNaN, zFactor).Err? ==>
      exists k :: 0 <= k < |data| && PrepareDatum(data[k], channel, meanIsNaN, zFactor).Err? &&
        Prepare(data, channel, meanIsNaN, zFactor).error == PrepareDatum(data[k], channel, meanIsNaN, zFactor).error &&
        forall j :: 0 <= j < k ==> PrepareDatum(data[j], channel, meanIsNaN, zFactor).Ok?
  {
    if data != [] {
      var init := data[..|data| - 1];
      PrepareFailsAtFirstFailingRecord(init, channel, meanIsNaN, zFactor);
      assert forall j :: 0 <= j < |init| ==> init[j] == data[j];
    }
  }

  // ----- the fit output written by `main` -----

  /** A field of an output record. */
  datatype Field =
    | Text(text: string)
    | Number(x: real)
    | Replicas(xs: seq<real>)
    | Measured(nominal: real, stdDev: real)

  /** The names of the three fit parameters, in the row order of the fit
      result. */
  const FitParameters: seq<string> := ["F", "L", "W"]

  /** `row[-1]` and `row[0:-1]`: the central value and the replicas of one
      fitted parameter. Indexing an empty row raises. */
  function SplitRow(row: seq<real>): (r: Result<(seq<real>, real)>)
    ensures r.Ok? <==> |row| > 0
    ensures r.Err? ==> r.error == IndexError
    ensures r.Ok? ==> r.value.0 + [r.value.1] == row
  {
    if |row| == 0 then Err(IndexError)
    else Ok((row[..|row| - 1], row[|row| - 1]))
  }

  /** Splitting a row laid out by `prepare_data` gives back the sample it
      was laid out from. */
  lemma SplitUndoesLayout(s: Sample)
    ensures SplitRow(Layout(s)) == Ok((s.samples, s.mean))
  {
    assert Layout(s)[..|Layout(s)| - 1] == s.samples;
  }

  /** The name of a parameter's field, e.g. `F_ps` + suffix. */
  function FieldName(parameter: string, channel: string, suffix: string): string
  {
    parameter + "_" + channel + suffix
  }

  /** The field names of two different parameters differ in their first
      character; the metadata names differ from both in their second. */
  lemma FieldNamesDistinct(p: string, q: string, channel: string, s: string, t: string)
    requires p in FitParameters && q in FitParameters && p != q
    ensures FieldName(p, channel, s) != FieldName(q, channel, t)
  {
    assert FieldName(p, channel, s)[0] == p[0] && FieldName(q, channel, t)[0] == q[0];
  }

  lemma NotMetadataName(p: string, channel: string, s: string)
    requires p in FitParameters
    ensures FieldName(p, channel, s) != "channel" && FieldName(p, channel, s) != "chi_sqr_dof"
  {
    assert FieldName(p, channel, s)[1] == '_';
  }

  /** The fields of one parameter in the record `dump_samples` writes: its
      replicas under `_samples` and its central value under `_value`. */
  predicate WritesRow(rec: map<string, Field>, parameter: string, channel: string, row: seq<real>)
  {
    var samplesKey, valueKey := FieldName(parameter, channel, "_samples"), FieldName(parameter, channel, "_value");
    samplesKey in rec && valueKey in rec && rec[samplesKey].Replicas? && rec[valueKey].Number? &&
    rec[samplesKey].xs + [rec[valueKey].x] == row
  }

  /** A record with one parameter's row split into its `_samples` and
      `_value` fields; every other field is kept. */
  function WithParameterRow(rec: map<string, Field>, parameter: string, channel: string, row: seq<real>): (r: map<string, Field>)
    requires parameter in FitParameters && |row| > 0
    ensures WritesRow(r, parameter, channel, row)
    ensures r.Keys == rec.Keys + {FieldName(parameter, channel, "_samples"), FieldName(parameter, channel, "_value")}
    ensures forall k :: (k in rec && k != FieldName(parameter, channel, "_samples") &&
                        k != FieldName(parameter, channel, "_value")) ==> k in r && r[k] == rec[k]
  {
    var split := SplitRow(row).value;
    assert |"_samples"| != |"_value"|;
    rec[FieldName(parameter, channel, "_samples") := Replicas(split.0)][FieldName(parameter, channel, "_value") := Number(split.1)]
  }

  lemma KeepsRow(rec: map<string, Field>, p: string, q: string, channel: string, row: seq<real>, other: seq<real>)
    requires p in FitParameters && q in FitParameters && p != q && |other| > 0
    requires WritesRow(rec, p, channel, row)
    ensures WritesRow(WithParameterRow(rec, q, channel, other), p, channel, row)
  {
    FieldNamesDistinct(p, q, channel, "_samples", "_samples");
    FieldNamesDistinct(p, q, channel, "_samples", "_value");
    FieldNamesDistinct(p, q, channel, "_value", "_samples");
    FieldNamesDistinct(p, q, channel, "_value", "_value");
  }

  /** The record `dump_samples` writes: for each parameter, the replicas
      (every column but the last) and the central value (the last column),
      which together give back the parameter's row of the fit result; the
      channel field is `"m_" + channel`. */
  function SamplesRecord(channel: string, fitVal: seq<seq<real>>): (r: Result<map<string, Field>>)
    ensures r.Ok? <==> |fitVal| >= 3 && forall j :: 0 <= j < 3 ==> |fitVal[j]| > 0
    ensures r.Err? ==> r.error == IndexError
    ensures r.Ok? ==> "channel" in r.value && r.value["channel"] == Text("m_" + channel)
    ensures r.Ok? ==> r.value.Keys == {"channel",
                                       FieldName("F", channel, "_samples"), FieldName("F", channel, "_value"),
                                       FieldName("L", channel, "_samples"), FieldName("L", channel, "_value"),
                                       FieldName("W", channel, "_samples"), FieldName("W", channel, "_value")}
    ensures r.Ok? ==> forall j :: 0 <= j < 3 ==> WritesRow(r.value, FitParameters[j], channel, fitVal[j])
  {
    if |fitVal| < 3 || |fitVal[0]| == 0 || |fitVal[1]| == 0 || |fitVal[2]| == 0 then Err(IndexError)
    else
      var withF := WithParameterRow(map["channel" := Text("m_" + channel)], "F", channel, fitVal[0]);
      var withL := WithParameterRow(withF, "L", channel, fitVal[1]);
      var withW := WithParameterRow(withL, "W", channel, fitVal[2]);
      KeepsRow(withF, "F", "L", channel, fitVal[0], fitVal[1]);
      KeepsRow(withL, "F", "W", channel, fitVal[0], fitVal[2]);
      KeepsRow(withL, "L", "W", channel, fitVal[1], fitVal[2]);
      NotMetadataName("F", channel, "_samples");
      NotMetadataName("F", channel, "_value");
      NotMetadataName("L", channel, "_samples");
      NotMetadataName("L", channel, "_value");
      NotMetadataName("W", channel, "_samples");
      NotMetadataName("W", channel, "_value");
      Ok(withW)
  }

  /** The split of a parameter row in `dump_samples` is undone by joining
      its two fields: nothing is lost or reordered. */
  lemma SamplesRecordRoundTrip(channel: string, fitVal: seq<seq<real>>, j: nat)
    requires j < 3 && SamplesRecord(channel, fitVal).Ok?
    ensures var rec := SamplesRecord(channel, fitVal).value;
      var samplesField, valueField := rec[FieldName(FitParameters[j], channel, "_samples")], rec[FieldName(FitParameters[j], channel, "_value")];
      samplesField == Replicas(fitVal[j][..|fitVal[j]| - 1]) && valueField == Number(fitVal[j][|fitVal[j]| - 1])
  {
    var rec := SamplesRecord(channel, fitVal).value;
    assert WritesRow(rec, FitParameters[j], channel, fitVal[j]);
    var xs := rec[FieldName(FitParameters[j], channel, "_samples")].xs;
    assert xs + [rec[FieldName(FitParameters[j], channel, "_value")].x] == fitVal[j];
    assert xs == fitVal[j][..|fitVal[j]| - 1];
  }

  /** One parameter's point estimate in the record `dump_dict` writes: the
      last column, with the standard deviation of the other columns. */
  predicate WritesEstimate(rec: map<string, Field>, parameter: string, channel: string, row: seq<real>,
                           std: seq<real> -> real)
    requires |row| > 0
  {
    var key := FieldName(parameter, channel, "");
    key in rec && rec[key] == Measured(row[|row| - 1], std(row[..|row| - 1]))
  }

  /** The record `dump_dict` writes: for each parameter, the central value
      (the last column) with the standard deviation of the replicas (every
      column but the last) as its uncertainty, beside the channel and the
      fit's chi-square per degree of freedom. */
  function MeanRecord(channel: string, fitVal: seq<seq<real>>, chiSqrDof: real,
                      std: seq<real> -> real): (r: Result<map<string, Field>>)
    ensures r.Ok? <==> |fitVal| >= 3 && forall j :: 0 <= j < 3 ==> |fitVal[j]| > 0
    ensures r.Err? ==> r.error == IndexError
    ensures r.Ok? ==> ("channel" in r.value && "chi_sqr_dof" in r.value &&
                       r.value["channel"] == Text("m_" + channel) && r.value["chi_sqr_dof"] == Number(chiSqrDof))
    ensures r.Ok? ==> r.value.Keys == {"channel", "chi_sqr_dof",
                                       FieldName("F", channel, ""), FieldName("L", channel, ""), FieldName("W", channel, "")}
    ensures r.Ok? ==> forall j :: 0 <= j < 3 ==> WritesEstimate(r.value, FitParameters[j], channel, fitVal[j], std)
  {
    if |fitVal| < 3 || |fitVal[0]| == 0 || |fitVal[1]| == 0 || |fitVal[2]| == 0 then Err(IndexError)
    else
      var f, l, w := SplitRow(fitVal[0]).value, SplitRow(fitVal[1]).value, SplitRow(fitVal[2]).value;
      NotMetadataName("F", channel, "");
      NotMetadataName("L", channel, "");
      NotMetadataName("W", channel, "");
      FieldNamesDistinct("F", "L", channel, "", "");
      FieldNamesDistinct("F", "W", channel, "", "");
      FieldNamesDistinct("L", "W", channel, "", "");
      Ok(map[
        "channel" := Text("m_" + channel),
        "chi_sqr_dof" := Number(chiSqrDof),
        FieldName("F", channel, "") := Measured(f.1, std(f.0)),
        FieldName("L", channel, "") := Measured(l.1, std(l.0)),
        FieldName("W", channel, "") := Measured(w.1, std(w.0))
      ])
  }
}

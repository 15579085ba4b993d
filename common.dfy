/** Values shared by the analysis scripts: the errors they raise, bootstrap
    samples, ensemble records as read from sample files, and the string
    assembly the table builders use. */
module Common {

  datatype Option<T> = None | Some(value: T)

  /** The key of a failed dictionary lookup: a field name or a beta value. */
  datatype Key = Name(name: string) | Beta(beta: real)

  /** The Python exceptions raised by the modelled code. */
  datatype Error =
    | KeyError(key: Key)
    | ValueError(message: string)
    | IndexError

  datatype Result<T> = Ok(value: T) | Err(error: Error)

  /** A bootstrap-resampled quantity: the central value `mean` and the
      replica population `samples` (R entries). */
  datatype Sample = Sample(mean: real, samples: seq<real>)

  /** An ensemble record from a sample file: its inverse coupling `beta` and
      its named samples (`w0_samples`, `ps_mass_samples`, ...). */
  datatype Datum = Datum(beta: real, fields: map<string, Sample>)

  /** A value with its uncertainty, as the `uncertainties` package holds it. */
  datatype UFloat = UFloat(nominal: real, stdDev: real)

  /** The message numpy gives when two replica arrays differ in length. */
  const BroadcastError := ValueError("operands could not be broadcast together")

  /** Elementwise product of two replica arrays of equal length. */
  function Times(a: seq<real>, b: seq<real>): (r: Result<seq<real>>)
    ensures r.Ok? <==> |a| == |b|
    ensures r.Ok? ==> |r.value| == |a| && forall i :: 0 <= i < |a| ==> r.value[i] == a[i] * b[i]
  {
    if |a| == |b| then Ok(seq(|a|, i requires 0 <= i < |a| => a[i] * b[i]))
    else Err(BroadcastError)
  }

  /** Elementwise square. */
  function Squares(a: seq<real>): (r: seq<real>)
    ensures |r| == |a|
    ensures forall i :: 0 <= i < |a| ==> r[i] == a[i] * a[i] && r[i] >= 0.0
  {
    seq(|a|, i requires 0 <= i < |a| => a[i] * a[i])
  }

  /** `A * B` on two Samples: the central values multiply, and replica i of
      the result is the product of replica i of each operand. */
  function SampleTimes(a: Sample, b: Sample): (r: Result<Sample>)
    ensures r.Ok? <==> |a.samples| == |b.samples|
    ensures r.Ok? ==> r.value.mean == a.mean * b.mean
    ensures r.Ok? ==> |r.value.samples| == |a.samples|
    ensures r.Ok? ==> forall i :: 0 <= i < |a.samples| ==> r.value.samples[i] == a.samples[i] * b.samples[i]
  {
    match Times(a.samples, b.samples)
    case Ok(s) => Ok(Sample(a.mean * b.mean, s))
    case Err(e) => Err(e)
  }

  /** `A ** 2` on a Sample, replica by replica. */
  function SampleSquare(a: Sample): (r: Sample)
    ensures r.mean == a.mean * a.mean && r.mean >= 0.0
    ensures |r.samples| == |a.samples|
    ensures forall i :: 0 <= i < |a.samples| ==> r.samples[i] == a.samples[i] * a.samples[i]
  {
    Sample(a.mean * a.mean, Squares(a.samples))
  }

  /** `"".join(pieces)`. */
  function Concat(pieces: seq<string>): string
  {
    if pieces == [] then "" else Concat(pieces[..|pieces| - 1]) + pieces[|pieces| - 1]
  }

  /** A cell in LaTeX math mode: `${}$`. */
  function Math(s: string): string
  {
    "$" + s + "$"
  }

  /** `sep.join(cells)`. */
  function Join(cells: seq<string>, sep: string): string
  {
    if |cells| <= 1 then Concat(cells)
    else Join(cells[..|cells| - 1], sep) + sep + cells[|cells| - 1]
  }

  /** Joining a non-empty list puts exactly one separator between
      consecutive cells. */
  lemma {:induction false} JoinAppend(cells: seq<string>, c: string, sep: string)
    requires cells != []
    ensures Join(cells + [c], sep) == Join(cells, sep) + sep + c
  {
    assert (cells + [c])[..|cells + [c]| - 1] == cells;
  }
}

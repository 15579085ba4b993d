/** The lookup tables and selection helpers shared by the plotting scripts
    (src/plots_common.py): colours, markers and labels for betas and
    channels, the iterators that pair each with its colour and marker, and
    the check that a data set holds a single beta. */
module PlotsCommon {
  import opened Common

  /** The betas that have a colour and a marker, in table order. */
  const KnownBetas: seq<real> := [6.6, 6.65, 6.7, 6.75, 6.8, 6.9]

  /** The channels that have a colour and a marker, in table order. */
  const KnownChannels: seq<string> := ["ps", "v", "t", "s", "av", "at", "rhoE1"]

  /** The beta markers, one character per known beta, in table order. */
  const BetaMarkers: string := "o^vsx+"

  /** The channel markers, one character per known channel, in table order. */
  const ChannelMarkers: string := "o^vsx+*"

  /** The i-th matplotlib cycle colour, "C0", "C1", ... */
  function CycleColour(i: nat): (r: string)
    requires i < 10
    ensures |r| == 2 && r[0] == 'C' && r[1] == "0123456789"[i]
  {
    ['C', "0123456789"[i]]
  }

  /** What `beta_color` returns: a colour code for a known beta, or the
      beta itself, unchanged, for any other input. */
  datatype BetaColour = Code(code: string) | Unchanged(beta: real)

  function BetaColor(b: real): (r: BetaColour)
    ensures r.Code? <==> b in KnownBetas
    ensures b !in KnownBetas ==> r == Unchanged(b)
    ensures forall i :: 0 <= i < |KnownBetas| && KnownBetas[i] == b ==> r == Code(CycleColour(i))
  {
    var table := map[6.6 := "C0", 6.65 := "C1", 6.7 := "C2", 6.75 := "C3", 6.8 := "C4", 6.9 := "C5"];
    if b in table then Code(table[b]) else Unchanged(b)
  }

  function ChannelColor(ch: string): (r: string)
    ensures ch !in KnownChannels ==> r == ch
    ensures forall i :: 0 <= i < |KnownChannels| && KnownChannels[i] == ch ==> r == CycleColour(i)
  {
    var table := map["ps" := "C0", "v" := "C1", "t" := "C2", "s" := "C3", "av" := "C4", "at" := "C5", "rhoE1" := "C6"];
    if ch in table then table[ch] else ch
  }

  /** The label printed for a channel: only "rhoE1" is relabelled. */
  function ChTag(ch: string): (r: string)
    ensures ch == "rhoE1" ==> r == @"v^\prime"
    ensures ch != "rhoE1" ==> r == ch
  {
    var table := map["rhoE1" := @"v^\prime"];
    if ch in table then table[ch] else ch
  }

  /** `beta_marker` indexes its table directly, so an unknown beta raises. */
  function BetaMarker(b: real): (r: Result<string>)
    ensures r.Ok? <==> b in KnownBetas
    ensures r.Err? ==> r.error == KeyError(Beta(b))
    ensures forall i :: 0 <= i < |KnownBetas| && KnownBetas[i] == b ==> r == Ok([BetaMarkers[i]])
  {
    var table := map[6.6 := "o", 6.65 := "^", 6.7 := "v", 6.75 := "s", 6.8 := "x", 6.9 := "+"];
    if b in table then Ok(table[b]) else Err(KeyError(Beta(b)))
  }

  /** `channel_marker` indexes its table directly, so an unknown channel raises. */
  function ChannelMarker(ch: string): (r: Result<string>)
    ensures r.Ok? <==> ch in KnownChannels
    ensures r.Err? ==> r.error == KeyError(Name(ch))
    ensures forall i :: 0 <= i < |KnownChannels| && KnownChannels[i] == ch ==> r == Ok([ChannelMarkers[i]])
  {
    var table := map["ps" := "o", "v" := "^", "t" := "v", "s" := "s", "av" := "x", "at" := "+", "rhoE1" := "*"];
    if ch in table then Ok(table[ch]) else Err(KeyError(Name(ch)))
  }

  /** Two different known betas are told apart by colour and by marker. */
  lemma BetaStylesDistinct(b1: real, b2: real)
    requires b1 in KnownBetas && b2 in KnownBetas && b1 != b2
    ensures BetaColor(b1) != BetaColor(b2)
    ensures BetaMarker(b1) != BetaMarker(b2)
  {
    var i1 :| 0 <= i1 < |KnownBetas| && KnownBetas[i1] == b1;
    var i2 :| 0 <= i2 < |KnownBetas| && KnownBetas[i2] == b2;
    assert CycleColour(i1) != CycleColour(i2);
    assert [BetaMarkers[i1]] != [BetaMarkers[i2]];
  }

  /** Two different known channels are told apart by colour and by marker. */
  lemma ChannelStylesDistinct(c1: string, c2: string)
    requires c1 in KnownChannels && c2 in KnownChannels && c1 != c2
    ensures ChannelColor(c1) != ChannelColor(c2)
    ensures ChannelMarker(c1) != ChannelMarker(c2)
  {
    var i1 :| 0 <= i1 < |KnownChannels| && KnownChannels[i1] == c1;
    var i2 :| 0 <= i2 < |KnownChannels| && KnownChannels[i2] == c2;
    assert CycleColour(i1) != CycleColour(i2);
    assert [ChannelMarkers[i1]] != [ChannelMarkers[i2]];
  }

  /** What a generator yields before it stops: the items produced, and the
      exception it raised, if any. */
  datatype Generated<T> = Generated(items: seq<T>, raised: Option<Error>)

  /** `beta_iterator`: one (beta, colour, marker) triple per beta, in input
      order, stopping with the marker lookup's KeyError at the first
      unknown beta. */
  function BetaIterator(betas: seq<real>): (g: Generated<(real, BetaColour, string)>)
    ensures |g.items| <= |betas|
    ensures forall k :: 0 <= k < |g.items| ==>
      betas[k] in KnownBetas && g.items[k] == (betas[k], BetaColor(betas[k]), BetaMarker(betas[k]).value)
    ensures g.raised.None? ==> |g.items| == |betas|
    ensures g.raised.Some? ==>
      |g.items| < |betas| && betas[|g.items|] !in KnownBetas && g.raised.value == KeyError(Beta(betas[|g.items|]))
  {
    if betas == [] then Generated([], None)
    else
      match BetaMarker(betas[0])
      case Err(e) => Generated([], Some(e))
      case Ok(m) =>
        var rest := BetaIterator(betas[1..]);
        Generated([(betas[0], BetaColor(betas[0]), m)] + rest.items, rest.raised)
  }

  /** `channel_iterator`: one (channel, colour, marker) triple per channel,
      in input order, stopping at the first unknown channel. */
  function ChannelIterator(channels: seq<string>): (g: Generated<(string, string, string)>)
    ensures |g.items| <= |channels|
    ensures forall k :: 0 <= k < |g.items| ==>
      channels[k] in KnownChannels &&
      g.items[k] == (channels[k], ChannelColor(channels[k]), ChannelMarker(channels[k]).value)
    ensures g.raised.None? ==> |g.items| == |channels|
    ensures g.raised.Some? ==>
      |g.items| < |channels| && channels[|g.items|] !in KnownChannels &&
      g.raised.value == KeyError(Name(channels[|g.items|]))
  {
    if channels == [] then Generated([], None)
    else
      match ChannelMarker(channels[0])
      case Err(e) => Generated([], Some(e))
      case Ok(m) =>
        var rest := ChannelIterator(channels[1..]);
        Generated([(channels[0], ChannelColor(channels[0]), m)] + rest.items, rest.raised)
  }

  /** The beta iterator runs to the end exactly when every beta is known. */
  lemma BetaIteratorCompletes(betas: seq<real>)
    ensures BetaIterator(betas).raised.None? <==> forall k :: 0 <= k < |betas| ==> betas[k] in KnownBetas
  {
  }

  /** The set of betas found in the records. */
  function BetasOf(data: seq<Datum>): set<real>
  {
    set d | d in data :: d.beta
  }

  lemma SingletonMembers(s: set<real>, x: real, y: real)
    requires |s| == 1 && x in s && y in s
    ensures x == y
  {
    if x != y {
      assert {x, y} <= s;
      assert |{x, y}| == 2;
      SubsetCardinality({x, y}, s);
    }
  }

  lemma SubsetCardinality(a: set<real>, b: set<real>)
    requires a <= b
    ensures |a| <= |b|
  {
    assert b == a + (b - a);
  }

  /** `get_single_beta`: the common beta of the records, or a ValueError
      when there is none (no records) or more than one. */
  function GetSingleBeta(data: seq<Datum>): (r: Result<real>)
    ensures r.Ok? <==> |data| > 0 && forall k :: 0 <= k < |data| ==> data[k].beta == data[0].beta
    ensures r.Ok? ==> forall k :: 0 <= k < |data| ==> data[k].beta == r.value
    ensures r.Err? ==> r.error == ValueError("Inconsistent betas found")
  {
    var betas := BetasOf(data);
    if |betas| != 1 then
      SingleBetaIff(data);
      Err(ValueError("Inconsistent betas found"))
    else
      SingleBetaIff(data);
      Ok(data[0].beta)
  }

  /** Exactly one distinct beta means: some record, and all records agree
      with the first. */
  lemma SingleBetaIff(data: seq<Datum>)
    ensures |BetasOf(data)| == 1 <==> |data| > 0 && forall k :: 0 <= k < |data| ==> data[k].beta == data[0].beta
  {
    var betas := BetasOf(data);
    if |data| > 0 && forall k :: 0 <= k < |data| ==> data[k].beta == data[0].beta {
      assert betas == {data[0].beta} by {
        forall b | b in betas ensures b == data[0].beta {
          var d :| d in data && d.beta == b;
          var k :| 0 <= k < |data| && data[k] == d;
        }
        assert data[0] in data;
      }
    }
    if |betas| == 1 {
      forall k | 0 <= k < |data| ensures data[k].beta == data[0].beta {
        assert data[k] in data && data[0] in data;
        SingletonMembers(betas, data[k].beta, data[0].beta);
      }
    }
  }
}

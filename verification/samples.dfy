/** The per-pixel samples a Sentinel Hub evalscript receives in TILE
    mosaicking, and the rule both evalscripts use to pick one: the first
    sample whose mean view azimuth exceeds 1 degree, because at tile edges
    the reflectance is present but the view geometry is not. */
module Samples {
  import opened Angles

  /** The three visible bands the evalscripts read. */
  datatype Band = Blue | Green | Red

  /** One tile's observation of the pixel; angles are in degrees. */
  datatype Sample = Sample(
    B02: real,
    B03: real,
    B04: real,
    sunAzimuthAngles: real,
    sunZenithAngles: real,
    viewAzimuthMean: real,
    viewZenithMean: real)

  /** The band's key as the source spells it. */
  function Key(b: Band): string
  {
    match b
    case Blue => "B02"
    case Green => "B03"
    case Red => "B04"
  }

  /** `sample[band]`: the reflectance stored under the band's key. */
  function Reflectance(s: Sample, b: Band): real
  {
    match b
    case Blue => s.B02
    case Green => s.B03
    case Red => s.B04
  }

  /** The sample carries view geometry. */
  predicate Available(s: Sample)
  {
    s.viewAzimuthMean > 1.0
  }

  /** The position of the first available sample, if there is one. */
  function FirstAvailableIndex(ss: seq<Sample>): (r: Option<nat>)
    ensures r.Some? ==> r.value < |ss| && Available(ss[r.value])
    ensures r.Some? ==> forall j | 0 <= j < r.value :: !Available(ss[j])
    ensures r.None? <==> forall j | 0 <= j < |ss| :: !Available(ss[j])
  {
    if |ss| == 0 then None
    else if Available(ss[0]) then Some(0)
    else
      match FirstAvailableIndex(ss[1..])
      case None => None
      case Some(k) => Some(k + 1)
  }

  /** An available sample with none available before it is the one chosen. */
  lemma FirstAvailableAt(ss: seq<Sample>, i: nat)
    requires i < |ss| && Available(ss[i])
    requires forall j | 0 <= j < i :: !Available(ss[j])
    ensures FirstAvailableIndex(ss) == Some(i)
  {
  }

  /** Samples after the chosen one never change the choice: any list that
      agrees up to and including the chosen sample chooses the same one. */
  lemma LaterSamplesIgnored(ss: seq<Sample>, ss': seq<Sample>, k: nat)
    requires FirstAvailableIndex(ss) == Some(k)
    requires k < |ss'| && ss'[..k + 1] == ss[..k + 1]
    ensures FirstAvailableIndex(ss') == Some(k)
  {
    forall j | 0 <= j <= k
      ensures ss'[j] == ss[j]
    {
      assert ss'[..k + 1][j] == ss[..k + 1][j];
    }
    FirstAvailableAt(ss', k);
  }
}

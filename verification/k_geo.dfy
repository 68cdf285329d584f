/** The k_geo scratch script: its own relative azimuth `|vaa - pi - saa|`,
    the geometric kernel, and a sweep of the view zenith from 0 to 80 degrees
    in steps of 10 with the sun fixed at zenith 45 and azimuth 180 and the
    view azimuth at 0. */
module KGeo {
  import opened Angles

  const SZA: real := 45.0
  const SAA: real := 180.0
  const VAA: real := 0.0

  /** The view azimuth measured from the direction opposite the sun. */
  function RelativeAzimuth(m: Math, saa: real, vaa: real): (r: real)
    ensures r >= 0.0
    ensures r == vaa - m.PI - saa || r == saa + m.PI - vaa
  {
    Abs(vaa - m.PI - saa)
  }

  /** This form gives exactly what the Python package's tests expect of its
      relative azimuth: pi/6 for (2 pi/3, 3 pi/2) and 0 for (pi/2, 3 pi/2). */
  lemma RelativeAzimuthMatchesTests(m: Math)
    requires m.PI > 0.0
    ensures RelativeAzimuth(m, 2.0 * m.PI / 3.0, 3.0 * m.PI / 2.0) == m.PI / 6.0
    ensures RelativeAzimuth(m, m.PI / 2.0, 3.0 * m.PI / 2.0) == 0.0
  {
  }

  /** `cost` before the clamp (Lucht et al. 2000, eqs. 41-42). */
  function CosT(m: Math, sza: real, vza: real, phi: real): real
    requires SecantsDefined(m, sza, vza)
  {
    var d := m.sqrt(Pow2(m.tan(sza)) + Pow2(m.tan(vza)) - 2.0 * m.tan(sza) * m.tan(vza) * m.cos(phi));
    var tantansin := m.tan(sza) * m.tan(vza) * m.sin(phi);
    var costtop := m.sqrt(Pow2(d) + Pow2(tantansin));
    2.0 * costtop / (Sec(m, sza) + Sec(m, vza))
  }

  /** What `calc_Kgeo` hands to `acos`: `cost` clamped from above at 1. */
  function AcosArgument(m: Math, sza: real, vza: real, phi: real): (x: real)
    requires SecantsDefined(m, sza, vza)
    ensures x <= 1.0
    ensures x == 1.0 || x == CosT(m, sza, vza, phi)
    ensures CosT(m, sza, vza, phi) <= 1.0 ==> x == CosT(m, sza, vza, phi)
  {
    Min(1.0, CosT(m, sza, vza, phi))
  }

  /** Li-Sparse-Reciprocal kernel for a given relative azimuth (eqs. 39-43). */
  function KgeoAt(m: Math, sza: real, vza: real, phi: real): real
    requires m.PI != 0.0 && SecantsDefined(m, sza, vza)
  {
    var cosXiPrime := m.cos(sza) * m.cos(vza) + m.sin(sza) * m.sin(vza) * m.cos(phi);
    var t := m.acos(AcosArgument(m, sza, vza, phi));
    var bigO := (1.0 / m.PI) * (t - m.sin(t) * m.cos(t)) * (Sec(m, sza) + Sec(m, vza));
    bigO - Sec(m, sza) - Sec(m, vza) + 1.0 / 2.0 * (1.0 + cosXiPrime) * Sec(m, sza) * Sec(m, vza)
  }

  /** `calc_Kgeo`: the azimuth is taken as `relative_azimuth(vaa, saa)`. */
  function CalcKgeo(m: Math, sza: real, vza: real, saa: real, vaa: real): real
    requires m.PI != 0.0 && SecantsDefined(m, sza, vza)
  {
    KgeoAt(m, sza, vza, RelativeAzimuth(m, vaa, saa))
  }

  /** Because the arguments are swapped, the kernel sees `|saa - pi - vaa|`,
      not the `|vaa - pi - saa|` that `relative_azimuth(saa, vaa)` gives. */
  lemma KgeoSwapsAzimuths(m: Math, sza: real, vza: real, saa: real, vaa: real)
    requires m.PI != 0.0 && SecantsDefined(m, sza, vza)
    ensures CalcKgeo(m, sza, vza, saa, vaa) == KgeoAt(m, sza, vza, Abs(saa - m.PI - vaa))
  {
  }

  /** Unlike the other copies' azimuths, this one is not symmetric, so the
      swapped arguments matter: sun at 0 and view at pi/4 give 3 pi/4 one way
      round and 5 pi/4 the other. */
  lemma RelativeAzimuthAsymmetric(m: Math)
    requires m.PI > 0.0
    ensures RelativeAzimuth(m, 0.0, m.PI / 4.0) == 3.0 * m.PI / 4.0
    ensures RelativeAzimuth(m, m.PI / 4.0, 0.0) == 5.0 * m.PI / 4.0
    ensures RelativeAzimuth(m, 0.0, m.PI / 4.0) != RelativeAzimuth(m, m.PI / 4.0, 0.0)
  {
  }

  /** The sweep's fixed geometry with the view zenith at `i` degrees is
      defined. */
  predicate SweepDefined(m: Math, i: int)
  {
    m.PI != 0.0 && SecantsDefined(m, Deg2Rad(m, SZA), Deg2Rad(m, i as real))
  }

  /** The kernel the sweep records for view zenith `i` degrees. */
  function SweepValue(m: Math, i: int): real
    requires SweepDefined(m, i)
  {
    CalcKgeo(m, Deg2Rad(m, SZA), Deg2Rad(m, i as real), Deg2Rad(m, SAA), Deg2Rad(m, VAA))
  }

  /** The script's top-level loop: `angles` receives 0, 10, ..., 80 and
      `results` the kernel at each of those view zeniths, all else fixed. */
  method Sweep(m: Math) returns (angles: seq<int>, results: seq<real>)
    requires forall k | 0 <= k < 9 :: SweepDefined(m, 10 * k)
    ensures angles == [0, 10, 20, 30, 40, 50, 60, 70, 80]
    ensures |results| == |angles|
    ensures forall k | 0 <= k < |results| :: angles[k] == 10 * k && results[k] == SweepValue(m, 10 * k)
  {
    angles, results := [], [];
    var i := 0;
    while i < 90
      invariant |angles| <= 9 && i == 10 * |angles| && |results| == |angles|
      invariant forall k | 0 <= k < |angles| :: angles[k] == 10 * k
      invariant forall k | 0 <= k < |results| :: results[k] == SweepValue(m, 10 * k)
    {
      assert SweepDefined(m, 10 * |angles|);
      var sza := Deg2Rad(m, SZA);
      var saa := Deg2Rad(m, SAA);
      var vza := Deg2Rad(m, i as real);
      var vaa := Deg2Rad(m, VAA);
      // computed by the script and never used
      var raa := RelativeAzimuth(m, saa, vaa);
      angles := angles + [i];
      results := results + [CalcKgeo(m, sza, vza, saa, vaa)];
      i := i + 10;
    }
    assert |angles| == 9;
  }
}

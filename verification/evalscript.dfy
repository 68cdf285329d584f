/** The original evalscript: the same correction as the true-colour script,
    but each kernel recomputes its trigonometry from the four angles, the
    modelled reflectance is accumulated in a loop over `[1, kgeo, kvol]`,
    and the relative azimuth wraps at 180 although its inputs are radians. */
module Evalscript {
  import opened Angles
  import opened Samples

  // Roy et al. 2017, Table 1: [f_iso, f_geo, f_vol]
  const F_BLUE: Coeffs := [0.0774, 0.0079, 0.0372]
  const F_GREEN: Coeffs := [0.1306, 0.0178, 0.0580]
  const F_RED: Coeffs := [0.1690, 0.0227, 0.0574]

  /** Relative azimuth with its wrap threshold written in degrees. Never above
      180; negative only for separations beyond 360. */
  function RelativeAzimuth(saa: real, vaa: real): (r: real)
    ensures r == Abs(saa - vaa) || r == 360.0 - Abs(saa - vaa)
    ensures r <= 180.0
    ensures 0.0 <= r <==> Abs(saa - vaa) <= 360.0
  {
    var phi := Abs(saa - vaa);
    if phi > 180.0 then 360.0 - phi else phi
  }

  lemma RelativeAzimuthSymmetric(a: real, b: real)
    ensures RelativeAzimuth(a, b) == RelativeAzimuth(b, a)
    ensures RelativeAzimuth(a, a) == 0.0
  {
  }

  /** For radian azimuths in [0, 2 pi) the wrap can never fire (2 pi is far
      below 180), so the result is the plain absolute difference. */
  lemma WrapNeverFiresOnRadians(m: Math, saa: real, vaa: real)
    requires 0.0 < m.PI < 90.0
    requires 0.0 <= saa < 2.0 * m.PI && 0.0 <= vaa < 2.0 * m.PI
    ensures RelativeAzimuth(saa, vaa) == Abs(saa - vaa)
  {
  }

  /** Sun at azimuth 0 and view at 3 pi / 2: the result is 3 pi / 2, beyond
      the [0, pi] a relative azimuth should lie in. */
  lemma RelativeAzimuthExceedsPi(m: Math)
    requires 0.0 < m.PI < 90.0
    ensures RelativeAzimuth(0.0, 3.0 * m.PI / 2.0) == 3.0 * m.PI / 2.0 > m.PI
  {
  }

  /** `calc_cos_xi` (Lucht et al. 2000, eq. 43). */
  function CosXi(m: Math, theta: real, vartheta: real, phi: real): real
  {
    m.cos(theta) * m.cos(vartheta) + m.sin(theta) * m.sin(vartheta) * m.cos(phi)
  }

  /** What `calc_kgeo` hands to `acos`: `cost` clamped from above at 1. */
  function AcosArgument(m: Math, sza: real, vza: real, phi: real): (x: real)
    requires SecantsDefined(m, sza, vza)
    ensures x <= 1.0
    ensures x == 1.0 || x == CosT(m, sza, vza, phi)
    ensures CosT(m, sza, vza, phi) <= 1.0 ==> x == CosT(m, sza, vza, phi)
  {
    Min(1.0, CosT(m, sza, vza, phi))
  }

  /** `cost` before the clamp (eqs. 41-42). */
  function CosT(m: Math, sza: real, vza: real, phi: real): real
    requires SecantsDefined(m, sza, vza)
  {
    var d := m.sqrt(Pow2(m.tan(sza)) + Pow2(m.tan(vza)) - 2.0 * m.tan(sza) * m.tan(vza) * m.cos(phi));
    var tantansin := m.tan(sza) * m.tan(vza) * m.sin(phi);
    var costtop := m.sqrt(Pow2(d) + Pow2(tantansin));
    2.0 * costtop / (Sec(m, sza) + Sec(m, vza))
  }

  /** Li-Sparse-Reciprocal kernel for a given relative azimuth (eqs. 39-43). */
  function KgeoAt(m: Math, sza: real, vza: real, phi: real): real
    requires m.PI != 0.0 && SecantsDefined(m, sza, vza)
  {
    var cosXiPrime := CosXi(m, sza, vza, phi);
    var t := m.acos(AcosArgument(m, sza, vza, phi));
    var bigO := (1.0 / m.PI) * (t - m.sin(t) * m.cos(t)) * (Sec(m, sza) + Sec(m, vza));
    bigO - Sec(m, sza) - Sec(m, vza) + 1.0 / 2.0 * (1.0 + cosXiPrime) * Sec(m, sza) * Sec(m, vza)
  }

  /** `calc_kgeo`: the azimuth is taken as `relative_azimuth(vaa, saa)`. */
  function Kgeo(m: Math, sza: real, vza: real, saa: real, vaa: real): real
    requires m.PI != 0.0 && SecantsDefined(m, sza, vza)
  {
    KgeoAt(m, sza, vza, RelativeAzimuth(vaa, saa))
  }

  /** Ross-Thick kernel for a given relative azimuth (eqs. 38, 44). */
  function KvolAt(m: Math, sza: real, vza: real, phi: real): real
    requires m.cos(sza) + m.cos(vza) != 0.0
  {
    var cosXi := CosXi(m, sza, vza, phi);
    var xi := m.acos(cosXi);
    ((m.PI / 2.0 - xi) * cosXi + m.sin(xi)) / (m.cos(sza) + m.cos(vza)) - m.PI / 4.0
  }

  /** `calc_kvol`: the azimuth is taken as `relative_azimuth(saa, vaa)`. */
  function Kvol(m: Math, sza: real, vza: real, saa: real, vaa: real): real
    requires m.cos(sza) + m.cos(vza) != 0.0
  {
    KvolAt(m, sza, vza, RelativeAzimuth(saa, vaa))
  }

  /** The two kernels pass the azimuths in opposite orders, yet see the same
      relative azimuth. */
  lemma KernelsShareAzimuth(m: Math, sza: real, vza: real, saa: real, vaa: real)
    requires KernelsDefined(m, sza, vza)
    ensures Kgeo(m, sza, vza, saa, vaa) == KgeoAt(m, sza, vza, RelativeAzimuth(saa, vaa))
    ensures Kvol(m, sza, vza, saa, vaa) == KvolAt(m, sza, vza, RelativeAzimuth(saa, vaa))
  {
    RelativeAzimuthSymmetric(saa, vaa);
  }

  /** The modelled reflectance `f_iso + f_geo kgeo + f_vol kvol`
      (Roy et al. 2017, eq. 6; Lucht et al. 2000, eq. 37). */
  function RhoModis(m: Math, sza: real, vza: real, saa: real, vaa: real, f: Coeffs): real
    requires KernelsDefined(m, sza, vza)
  {
    f[0] + f[1] * Kgeo(m, sza, vza, saa, vaa) + f[2] * Kvol(m, sza, vza, saa, vaa)
  }

  /** The first `n` products `ks[i] * f[i]`, summed in index order. */
  function PartialSum(ks: seq<real>, f: seq<real>, n: nat): real
    requires n <= |ks| && n <= |f|
  {
    if n == 0 then 0.0 else PartialSum(ks, f, n - 1) + ks[n - 1] * f[n - 1]
  }

  lemma PartialSumOfThree(ks: seq<real>, f: seq<real>)
    requires |ks| == 3 && |f| == 3 && ks[0] == 1.0
    ensures PartialSum(ks, f, 3) == f[0] + f[1] * ks[1] + f[2] * ks[2]
  {
    calc {
      PartialSum(ks, f, 3);
      PartialSum(ks, f, 2) + ks[2] * f[2];
      PartialSum(ks, f, 1) + ks[1] * f[1] + ks[2] * f[2];
      PartialSum(ks, f, 0) + ks[0] * f[0] + ks[1] * f[1] + ks[2] * f[2];
    }
  }

  /** `calc_rho_modis`: accumulates `k_s[i] * f[i]` over `k_s = [1, kgeo, kvol]`. */
  method CalcRhoModis(m: Math, sza: real, vza: real, saa: real, vaa: real, f: Coeffs) returns (rhoModis: real)
    requires KernelsDefined(m, sza, vza)
    ensures rhoModis == RhoModis(m, sza, vza, saa, vaa, f)
  {
    var kgeo := Kgeo(m, sza, vza, saa, vaa);
    var kvol := Kvol(m, sza, vza, saa, vaa);
    var ks := [1.0, kgeo, kvol];
    rhoModis := 0.0;
    for i := 0 to |ks|
      invariant rhoModis == PartialSum(ks, f, i)
    {
      rhoModis := rhoModis + ks[i] * f[i];
    }
    PartialSumOfThree(ks, f);
  }

  /** Both geometries are defined and the band's modelled reflectance at the
      actual geometry is nonzero. */
  predicate RatioDefined(m: Math, sza: real, vza: real, saa: real, vaa: real, f: Coeffs)
  {
    KernelsDefined(m, sza, vza) && KernelsDefined(m, sza, 0.0)
    && RhoModis(m, sza, vza, saa, vaa, f) != 0.0
  }

  /** Roy et al. 2017, eq. 5 (second part). */
  function CLambda(m: Math, sza: real, vza: real, saa: real, vaa: real, f: Coeffs): real
    requires RatioDefined(m, sza, vza, saa, vaa, f)
  {
    RhoModis(m, sza, 0.0, saa, vaa, f) / RhoModis(m, sza, vza, saa, vaa, f)
  }

  /** Nadir identity: at view zenith 0 the ratio's two calls coincide. */
  lemma CLambdaAtNadir(m: Math, sza: real, saa: real, vaa: real, f: Coeffs)
    requires RatioDefined(m, sza, 0.0, saa, vaa, f)
    ensures CLambda(m, sza, 0.0, saa, vaa, f) == 1.0
  {
    var rho := RhoModis(m, sza, 0.0, saa, vaa, f);
    assert CLambda(m, sza, 0.0, saa, vaa, f) == rho / rho;
  }

  /** `calc_c_lambda`: the modelled nadir reflectance over the modelled
      actual reflectance. */
  method CalcCLambda(m: Math, sza: real, vza: real, saa: real, vaa: real, f: Coeffs) returns (c: real)
    requires RatioDefined(m, sza, vza, saa, vaa, f)
    ensures c == CLambda(m, sza, vza, saa, vaa, f)
    ensures c * RhoModis(m, sza, vza, saa, vaa, f) == RhoModis(m, sza, 0.0, saa, vaa, f)
    ensures vza == 0.0 ==> c == 1.0
  {
    var nadir := CalcRhoModis(m, sza, 0.0, saa, vaa, f);
    var actual := CalcRhoModis(m, sza, vza, saa, vaa, f);
    c := nadir / actual;
  }

  /** Roy et al. 2017, eq. 5 (first part). */
  function Nbar(m: Math, rS2: real, f: Coeffs, sza: real, vza: real, saa: real, vaa: real): real
    requires RatioDefined(m, sza, vza, saa, vaa, f)
  {
    CLambda(m, sza, vza, saa, vaa, f) * rS2
  }

  /** The correction is linear in the reflectance; zero stays zero. */
  lemma NbarLinear(m: Math, f: Coeffs, sza: real, vza: real, saa: real, vaa: real, a: real, x: real, y: real)
    requires RatioDefined(m, sza, vza, saa, vaa, f)
    ensures Nbar(m, a * x + y, f, sza, vza, saa, vaa)
            == a * Nbar(m, x, f, sza, vza, saa, vaa) + Nbar(m, y, f, sza, vza, saa, vaa)
    ensures Nbar(m, 0.0, f, sza, vza, saa, vaa) == 0.0
  {
  }

  /** `calc_nbar`. */
  method CalcNbar(m: Math, rS2: real, f: Coeffs, sza: real, vza: real, saa: real, vaa: real) returns (nbar: real)
    requires RatioDefined(m, sza, vza, saa, vaa, f)
    ensures nbar == Nbar(m, rS2, f, sza, vza, saa, vaa)
    ensures vza == 0.0 ==> nbar == rS2
  {
    var cLambda := CalcCLambda(m, sza, vza, saa, vaa, f);
    nbar := cLambda * rS2;
  }

  /** The sample's angles in radians. */
  datatype Geometry = Geometry(sza: real, vza: real, saa: real, vaa: real)

  function GeometryOf(m: Math, s: Sample): Geometry
  {
    Geometry(
      Deg2Rad(m, s.sunZenithAngles), Deg2Rad(m, s.viewZenithMean),
      Deg2Rad(m, s.sunAzimuthAngles), Deg2Rad(m, s.viewAzimuthMean))
  }

  /** All three band ratios are defined for the sample. */
  predicate Computable(m: Math, s: Sample)
  {
    var g := GeometryOf(m, s);
    && RatioDefined(m, g.sza, g.vza, g.saa, g.vaa, F_BLUE)
    && RatioDefined(m, g.sza, g.vza, g.saa, g.vaa, F_GREEN)
    && RatioDefined(m, g.sza, g.vza, g.saa, g.vaa, F_RED)
  }

  /** The corrected pixel of one sample: red, green, blue, each times 2.5. */
  function Pixel(m: Math, s: Sample): seq<real>
    requires Computable(m, s)
  {
    var g := GeometryOf(m, s);
    [ 2.5 * Nbar(m, s.B04, F_RED, g.sza, g.vza, g.saa, g.vaa),
      2.5 * Nbar(m, s.B03, F_GREEN, g.sza, g.vza, g.saa, g.vaa),
      2.5 * Nbar(m, s.B02, F_BLUE, g.sza, g.vza, g.saa, g.vaa) ]
  }

  /** `evaluatePixel`: the pixel of the first sample with view geometry, or
      three zeros when there is none. */
  method EvaluatePixel(m: Math, sample: seq<Sample>) returns (r: seq<real>)
    requires FirstAvailableIndex(sample).Some? ==>
               Computable(m, sample[FirstAvailableIndex(sample).value])
    ensures FirstAvailableIndex(sample).None? ==> r == [0.0, 0.0, 0.0]
    ensures FirstAvailableIndex(sample).Some? ==>
              r == Pixel(m, sample[FirstAvailableIndex(sample).value])
  {
    for i := 0 to |sample|
      invariant forall j | 0 <= j < i :: !Available(sample[j])
    {
      if sample[i].viewAzimuthMean > 1.0 {
        FirstAvailableAt(sample, i);
        var available := sample[i];
        var saa := Deg2Rad(m, available.sunAzimuthAngles);
        var sza := Deg2Rad(m, available.sunZenithAngles);
        var vaa := Deg2Rad(m, available.viewAzimuthMean);
        var vza := Deg2Rad(m, available.viewZenithMean);
        assert GeometryOf(m, available) == Geometry(sza, vza, saa, vaa);
        var nbarBlue := CalcNbar(m, available.B02, F_BLUE, sza, vza, saa, vaa);
        var nbarGreen := CalcNbar(m, available.B03, F_GREEN, sza, vza, saa, vaa);
        var nbarRed := CalcNbar(m, available.B04, F_RED, sza, vza, saa, vaa);
        return [2.5 * nbarRed, 2.5 * nbarGreen, 2.5 * nbarBlue];
      }
    }
    return [0.0, 0.0, 0.0];
  }

  /** Nadir identity for the whole pixel: each band is 2.5 times its
      reflectance. */
  lemma PixelAtNadir(m: Math, s: Sample)
    requires s.viewZenithMean == 0.0 && Computable(m, s)
    ensures Pixel(m, s) == [2.5 * s.B04, 2.5 * s.B03, 2.5 * s.B02]
  {
    var g := GeometryOf(m, s);
    assert g.vza == 0.0;
    CLambdaAtNadir(m, g.sza, g.saa, g.vaa, F_RED);
    CLambdaAtNadir(m, g.sza, g.saa, g.vaa, F_GREEN);
    CLambdaAtNadir(m, g.sza, g.saa, g.vaa, F_BLUE);
  }
}

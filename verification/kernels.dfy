/** The Python package's kernel functions: angle conversions (shared, in
    `Angles`), an unwrapped relative azimuth, the phase-angle cosine and the
    two kernels, each recomputing its trigonometry from four radian angles. */
module Kernels {
  import opened Angles

  /** The absolute azimuth difference, with no wrap-around. */
  function RelativeAzimuth(saa: real, vaa: real): (r: real)
    ensures r >= 0.0
    ensures r == vaa - saa || r == saa - vaa
  {
    Abs(vaa - saa)
  }

  lemma RelativeAzimuthSymmetric(a: real, b: real)
    ensures RelativeAzimuth(a, b) == RelativeAzimuth(b, a)
    ensures RelativeAzimuth(a, a) == 0.0
  {
  }

  /** The package's tests expect pi/6 for (2 pi/3, 3 pi/2) and 0 for
      (pi/2, 3 pi/2); the function returns 5 pi/6 and pi. */
  lemma RelativeAzimuthDisagreesWithTests(m: Math)
    requires m.PI > 0.0
    ensures RelativeAzimuth(2.0 * m.PI / 3.0, 3.0 * m.PI / 2.0) == 5.0 * m.PI / 6.0 != m.PI / 6.0
    ensures RelativeAzimuth(m.PI / 2.0, 3.0 * m.PI / 2.0) == m.PI != 0.0
  {
  }

  /** `calc_cos_xi` (Lucht et al. 2000, eq. 43). */
  function CalcCosXi(m: Math, theta: real, vartheta: real, phi: real): real
  {
    m.cos(theta) * m.cos(vartheta) + m.sin(theta) * m.sin(vartheta) * m.cos(phi)
  }

  /** The phase-angle test case: zeniths pi/2 and 3 pi/2 at relative azimuth 0
      give -1. */
  lemma CosXiTestValue(m: Math)
    requires m.cos(m.PI / 2.0) == 0.0 && m.sin(m.PI / 2.0) == 1.0
    requires m.sin(3.0 * m.PI / 2.0) == -1.0 && m.cos(0.0) == 1.0
    ensures CalcCosXi(m, m.PI / 2.0, 3.0 * m.PI / 2.0, 0.0) == -1.0
  {
  }

  /** `cos_t` before the clamp (eqs. 41-42, h/b = 2). */
  function CosT(m: Math, theta: real, vartheta: real, phi: real): real
    requires SecantsDefined(m, theta, vartheta)
  {
    var d := m.sqrt(Pow2(m.tan(theta)) + Pow2(m.tan(vartheta)) - 2.0 * m.tan(theta) * m.tan(vartheta) * m.cos(phi));
    2.0 * m.sqrt(Pow2(d) + Pow2(m.tan(theta) * m.tan(vartheta) * m.sin(phi))) / (Sec(m, theta) + Sec(m, vartheta))
  }

  /** What `calc_kgeo` hands to `arccos`: `minimum(1, cos_t)`. */
  function AcosArgument(m: Math, theta: real, vartheta: real, phi: real): (x: real)
    requires SecantsDefined(m, theta, vartheta)
    ensures x <= 1.0
    ensures x == 1.0 || x == CosT(m, theta, vartheta, phi)
    ensures CosT(m, theta, vartheta, phi) <= 1.0 ==> x == CosT(m, theta, vartheta, phi)
  {
    Min(1.0, CosT(m, theta, vartheta, phi))
  }

  /** Li-Sparse-Reciprocal kernel for a given relative azimuth (eqs. 39-44). */
  function KgeoAt(m: Math, theta: real, vartheta: real, phi: real): real
    requires m.PI != 0.0 && SecantsDefined(m, theta, vartheta)
  {
    var cosXiPrime := CalcCosXi(m, theta, vartheta, phi);
    var t := m.acos(AcosArgument(m, theta, vartheta, phi));
    var bigO := (1.0 / m.PI) * (t - m.sin(t) * m.cos(t)) * (Sec(m, theta) + Sec(m, vartheta));
    bigO - Sec(m, theta) - Sec(m, vartheta) + 0.5 * (1.0 + cosXiPrime) * Sec(m, theta) * Sec(m, vartheta)
  }

  /** `calc_kgeo`. */
  function CalcKgeo(m: Math, sza: real, vza: real, saa: real, vaa: real): real
    requires m.PI != 0.0 && SecantsDefined(m, sza, vza)
  {
    KgeoAt(m, sza, vza, RelativeAzimuth(saa, vaa))
  }

  /** Ross-Thick kernel for a given relative azimuth (eq. 38). */
  function KvolAt(m: Math, theta: real, vartheta: real, phi: real): real
    requires m.cos(theta) + m.cos(vartheta) != 0.0
  {
    var cosXi := CalcCosXi(m, theta, vartheta, phi);
    var xi := m.acos(cosXi);
    ((m.PI / 2.0 - xi) * cosXi + m.sin(xi)) / (m.cos(theta) + m.cos(vartheta)) - m.PI / 4.0
  }

  /** `calc_kvol`. */
  function CalcKvol(m: Math, sza: real, vza: real, saa: real, vaa: real): real
    requires m.cos(sza) + m.cos(vza) != 0.0
  {
    KvolAt(m, sza, vza, RelativeAzimuth(saa, vaa))
  }

  /** Both kernels depend on the azimuths only through the one relative
      azimuth: swapping sun and view azimuth changes neither. */
  lemma KernelsShareAzimuth(m: Math, sza: real, vza: real, saa: real, vaa: real)
    requires KernelsDefined(m, sza, vza)
    ensures CalcKgeo(m, sza, vza, saa, vaa) == CalcKgeo(m, sza, vza, vaa, saa)
    ensures CalcKvol(m, sza, vza, saa, vaa) == CalcKvol(m, sza, vza, vaa, saa)
  {
    RelativeAzimuthSymmetric(saa, vaa);
  }

  /** At nadir, given the values of sin, cos and tan at 0, the phase cosine is
      the solar zenith's cosine whatever the azimuths. */
  lemma NadirPhase(m: Math, sza: real, phi: real)
    requires ZeroFacts(m)
    ensures CalcCosXi(m, sza, 0.0, phi) == m.cos(sza)
  {
  }
}

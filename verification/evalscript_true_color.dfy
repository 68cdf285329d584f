/** The true-colour evalscript: per pixel it picks the first sample with view
    geometry, builds the geometric constants once for the actual view and
    once for a nadir view (view zenith 0), evaluates the Li-Sparse-Reciprocal
    and Ross-Thick kernels on both, and scales each visible band by the ratio
    of the modelled nadir reflectance to the modelled actual reflectance
    (Roy et al. 2017, eqs. 5-6; Lucht et al. 2000, eqs. 37-44). Angles inside
    are radians. */
module TrueColor {
  import opened Angles
  import opened Samples
  import Kernels

  /** `c.cos`, `c.sin`: one value per solar zenith, view zenith, relative azimuth. */
  datatype ByAngle = ByAngle(sza: real, vza: real, phi: real)

  /** `c.sec`, `c.tan`: one value per zenith. */
  datatype ByZenith = ByZenith(sza: real, vza: real)

  /** The constants computed once per geometry and shared by both kernels. */
  datatype Constants = Constants(
    cos: ByAngle,
    sin: ByAngle,
    sec: ByZenith,
    tan: ByZenith,
    cosXi: real)

  /** The kernels at the actual geometry and at nadir. */
  datatype KernelSet = KernelSet(
    kgeo: real,
    kvol: real,
    kgeoVzaZero: real,
    kvolVzaZero: real)

  /** Brightness multiplier applied to every output band. */
  const LUM: real := 2.5

  /** `f_values`: an object keyed by band, in insertion order B04, B03, B02;
      each value is `[f_iso, f_geo, f_vol]`. The keys are distinct, so the
      value found under the i-th key is the i-th entry's. */
  const F_VALUES: seq<(Band, Coeffs)> := [
    (Red, [0.1690, 0.0227, 0.0574]),
    (Green, [0.1306, 0.0178, 0.0580]),
    (Blue, [0.0774, 0.0079, 0.0372])
  ]

  /** `Object.keys`: the bands in insertion order. */
  function Keys(fv: seq<(Band, Coeffs)>): (keys: seq<Band>)
    ensures |keys| == |fv| && forall i | 0 <= i < |fv| :: keys[i] == fv[i].0
  {
    seq(|fv|, i requires 0 <= i < |fv| => fv[i].0)
  }

  /** `f_values[band]`: the triple stored under a key, if the key is present
      at all. */
  function Lookup(fv: seq<(Band, Coeffs)>, b: Band): (r: Option<Coeffs>)
    ensures r.None? <==> forall i | 0 <= i < |fv| :: fv[i].0 != b
    ensures r.Some? ==> exists i | 0 <= i < |fv| :: fv[i] == (b, r.value) && forall j | 0 <= j < i :: fv[j].0 != b
  {
    if |fv| == 0 then None
    else if fv[0].0 == b then Some(fv[0].1)
    else
      var r := Lookup(fv[1..], b);
      assert r.Some? ==> exists i | 0 <= i < |fv[1..]| :: fv[1..][i] == (b, r.value) && forall j | 0 <= j < i :: fv[1..][j].0 != b;
      r
  }

  /** No key occurs twice. */
  predicate DistinctKeys(fv: seq<(Band, Coeffs)>)
  {
    forall j, k | 0 <= j < k < |fv| :: fv[j].0 != fv[k].0
  }

  /** With distinct keys, the value found under the i-th key of
      `Object.keys` is the i-th entry's triple, so reading the triple by
      position is reading it by key. */
  lemma {:induction false} LookupByPosition(fv: seq<(Band, Coeffs)>, i: nat)
    requires DistinctKeys(fv) && i < |fv|
    ensures Lookup(fv, Keys(fv)[i]) == Some(fv[i].1)
  {
    if i > 0 {
      assert fv[0].0 != fv[i].0;
      assert fv[1..][i - 1] == fv[i];
      LookupByPosition(fv[1..], i - 1);
    }
  }

  /** Every key of `f_values` looks up its own triple. */
  lemma KeysLookUpTheirOwnTriples()
    ensures forall i | 0 <= i < |F_VALUES| :: Lookup(F_VALUES, Keys(F_VALUES)[i]) == Some(F_VALUES[i].1)
  {
    forall i | 0 <= i < |F_VALUES|
      ensures Lookup(F_VALUES, Keys(F_VALUES)[i]) == Some(F_VALUES[i].1)
    {
      LookupByPosition(F_VALUES, i);
    }
  }

  /** The smaller of the two angular separations of two azimuths. */
  function RelativeAzimuth(m: Math, saa: real, vaa: real): (r: real)
    ensures r == Min(Abs(saa - vaa), 2.0 * m.PI - Abs(saa - vaa))
    ensures r <= m.PI
    ensures m.PI >= 0.0 ==> (0.0 <= r <==> Abs(saa - vaa) <= 2.0 * m.PI)
  {
    var phi := Abs(saa - vaa);
    if phi > m.PI then 2.0 * m.PI - phi else phi
  }

  lemma RelativeAzimuthSymmetric(m: Math, a: real, b: real)
    ensures RelativeAzimuth(m, a, b) == RelativeAzimuth(m, b, a)
    ensures m.PI >= 0.0 ==> RelativeAzimuth(m, a, a) == 0.0
  {
  }

  /** Azimuths of 350 and 10 degrees are 20 degrees apart, not 340. */
  lemma RelativeAzimuthWrapsAround(m: Math)
    requires m.PI > 0.0
    ensures RelativeAzimuth(m, Deg2Rad(m, 350.0), Deg2Rad(m, 10.0)) == Deg2Rad(m, 20.0)
    ensures RelativeAzimuth(m, 0.0, Deg2Rad(m, 20.0)) == Deg2Rad(m, 20.0)
  {
    assert Deg2Rad(m, 350.0) - Deg2Rad(m, 10.0) == 340.0 * m.PI / 180.0;
  }

  function BuildConstants(m: Math, sza: real, vza: real, saa: real, vaa: real): (c: Constants)
    requires m.cos(sza) != 0.0 && m.cos(vza) != 0.0
    ensures c.sec.sza * c.cos.sza == 1.0 && c.sec.vza * c.cos.vza == 1.0
    ensures c.tan.sza * c.cos.sza == c.sin.sza && c.tan.vza * c.cos.vza == c.sin.vza
    ensures c.cos.phi == m.cos(RelativeAzimuth(m, saa, vaa))
    ensures c.sin.phi == m.sin(RelativeAzimuth(m, saa, vaa))
    ensures c.cos.sza == m.cos(sza) && c.cos.vza == m.cos(vza)
    ensures c.sin.sza == m.sin(sza) && c.sin.vza == m.sin(vza)
    ensures c.cosXi == Kernels.CalcCosXi(m, sza, vza, RelativeAzimuth(m, saa, vaa))
  {
    var phi := RelativeAzimuth(m, saa, vaa);
    var cos := ByAngle(m.cos(sza), m.cos(vza), m.cos(phi));
    var sin := ByAngle(m.sin(sza), m.sin(vza), m.sin(phi));
    var sec := ByZenith(Sec(m, sza), Sec(m, vza));
    var tan := ByZenith(sin.sza / cos.sza, sin.vza / cos.vza);
    // Lucht et al. 2000, eq. 43
    Constants(cos, sin, sec, tan, cos.sza * cos.vza + sin.sza * sin.vza * cos.phi)
  }

  /** The divisions of both kernels are defined for these constants. */
  predicate ConstantsDefined(m: Math, c: Constants)
  {
    m.PI != 0.0 && c.sec.sza + c.sec.vza != 0.0 && c.cos.sza + c.cos.vza != 0.0
  }

  /** `cost` before the clamp (Lucht et al. 2000, eqs. 41-42, h/b = 2). */
  function CosT(m: Math, c: Constants): real
    requires c.sec.sza + c.sec.vza != 0.0
  {
    var dsq := Pow2(c.tan.sza) + Pow2(c.tan.vza) - 2.0 * c.tan.sza * c.tan.vza * c.cos.phi;
    var tantansin := c.tan.sza * c.tan.vza * c.sin.phi;
    var costtop := m.sqrt(dsq + Pow2(tantansin));
    2.0 * costtop / (c.sec.sza + c.sec.vza)
  }

  /** What `calc_kgeo` hands to `acos`: `cost` clamped from above at 1. */
  function AcosArgument(m: Math, c: Constants): (x: real)
    requires c.sec.sza + c.sec.vza != 0.0
    ensures x <= 1.0
    ensures CosT(m, c) <= 1.0 ==> x == CosT(m, c)
    ensures CosT(m, c) > 1.0 ==> x == 1.0
  {
    Min(1.0, CosT(m, c))
  }

  /** The geometric kernel once the overlap angle `t` is known (eqs. 39-40). */
  function KgeoAt(m: Math, c: Constants, t: real): real
    requires m.PI != 0.0
  {
    var bigO := (1.0 / m.PI) * (t - m.sin(t) * m.cos(t)) * (c.sec.sza + c.sec.vza);
    bigO - c.sec.sza - c.sec.vza + 1.0 / 2.0 * (1.0 + c.cosXi) * c.sec.sza * c.sec.vza
  }

  /** Li-Sparse-Reciprocal kernel. Any `cost` at or above 1 gives exactly the
      kernel of `cost = 1`. */
  function Kgeo(m: Math, c: Constants): (k: real)
    requires m.PI != 0.0 && c.sec.sza + c.sec.vza != 0.0
    ensures CosT(m, c) >= 1.0 ==> k == KgeoAt(m, c, m.acos(1.0))
  {
    KgeoAt(m, c, m.acos(AcosArgument(m, c)))
  }

  /** With `acos(1) = 0` a saturated `cost` leaves no overlap term `O`. */
  lemma KgeoSaturated(m: Math, c: Constants)
    requires m.PI != 0.0 && c.sec.sza + c.sec.vza != 0.0
    requires m.acos(1.0) == 0.0 && m.sin(0.0) == 0.0
    requires CosT(m, c) >= 1.0
    ensures Kgeo(m, c) == -c.sec.sza - c.sec.vza + (1.0 + c.cosXi) * c.sec.sza * c.sec.vza / 2.0
  {
  }

  /** Ross-Thick kernel (eqs. 38, 44). */
  function Kvol(m: Math, c: Constants): real
    requires c.cos.sza + c.cos.vza != 0.0
  {
    var xi := m.acos(c.cosXi);
    ((m.PI / 2.0 - xi) * c.cosXi + m.sin(xi)) / (c.cos.sza + c.cos.vza) - m.PI / 4.0
  }

  /** The nadir constants differ from the actual ones only in the view-zenith
      fields, which take their nadir values, and in the phase angle, which
      becomes the solar zenith. */
  lemma NadirConstants(m: Math, sza: real, vza: real, saa: real, vaa: real)
    requires ZeroFacts(m)
    requires m.cos(sza) != 0.0 && m.cos(vza) != 0.0
    ensures var c := BuildConstants(m, sza, vza, saa, vaa);
            var z := BuildConstants(m, sza, 0.0, saa, vaa);
            && z.tan.vza == 0.0 && z.sec.vza == 1.0 && z.cos.vza == 1.0 && z.sin.vza == 0.0
            && z.cos.sza == c.cos.sza && z.sin.sza == c.sin.sza
            && z.sec.sza == c.sec.sza && z.tan.sza == c.tan.sza
            && z.cos.phi == c.cos.phi && z.sin.phi == c.sin.phi
            && z.cosXi == c.cos.sza
  {
  }

  /** Constants with no view-zenith tangent give kernels that do not see the
      relative azimuth: only the zenith fields and the phase cosine matter. */
  lemma KernelsWithoutAzimuth(m: Math, z: Constants, z': Constants)
    requires ConstantsDefined(m, z) && z.tan.vza == 0.0
    requires z.sec == z'.sec && z.tan == z'.tan && z.cosXi == z'.cosXi
    requires z.cos.sza == z'.cos.sza && z.cos.vza == z'.cos.vza
    ensures ConstantsDefined(m, z') && Kgeo(m, z) == Kgeo(m, z') && Kvol(m, z) == Kvol(m, z')
  {
    assert z.tan.sza * z.tan.vza == 0.0;
    assert CosT(m, z) == CosT(m, z');
  }

  /** At nadir both kernels depend on the solar zenith alone: the azimuths
      drop out. */
  lemma NadirKernelsIgnoreAzimuth(m: Math, sza: real, saa: real, vaa: real, saa': real, vaa': real)
    requires ZeroFacts(m)
    requires m.cos(sza) != 0.0
    requires ConstantsDefined(m, BuildConstants(m, sza, 0.0, saa, vaa))
    ensures var z := BuildConstants(m, sza, 0.0, saa, vaa);
            var z' := BuildConstants(m, sza, 0.0, saa', vaa');
            ConstantsDefined(m, z') && Kgeo(m, z) == Kgeo(m, z') && Kvol(m, z) == Kvol(m, z')
  {
    var z := BuildConstants(m, sza, 0.0, saa, vaa);
    var z' := BuildConstants(m, sza, 0.0, saa', vaa');
    NadirConstants(m, sza, 0.0, saa, vaa);
    NadirConstants(m, sza, 0.0, saa', vaa');
    KernelsWithoutAzimuth(m, z, z');
  }

  /** Roy et al. 2017, eq. 6: the modelled reflectance of one band. */
  function CalcRhoModis(kgeo: real, kvol: real, f: Coeffs): real
  {
    f[0] + f[1] * kgeo + f[2] * kvol
  }

  /** Roy et al. 2017, eq. 5 (second part): modelled nadir reflectance over
      modelled actual reflectance. */
  function CalcCLambda(kernels: KernelSet, f: Coeffs): (r: real)
    requires CalcRhoModis(kernels.kgeo, kernels.kvol, f) != 0.0
    ensures r * CalcRhoModis(kernels.kgeo, kernels.kvol, f)
            == CalcRhoModis(kernels.kgeoVzaZero, kernels.kvolVzaZero, f)
    ensures kernels.kgeo == kernels.kgeoVzaZero && kernels.kvol == kernels.kvolVzaZero ==> r == 1.0
  {
    CalcRhoModis(kernels.kgeoVzaZero, kernels.kvolVzaZero, f) / CalcRhoModis(kernels.kgeo, kernels.kvol, f)
  }

  /** Roy et al. 2017, eq. 5 (first part). */
  function CalcNbar(rS2: real, f: Coeffs, kernels: KernelSet): (r: real)
    requires CalcRhoModis(kernels.kgeo, kernels.kvol, f) != 0.0
    ensures r * CalcRhoModis(kernels.kgeo, kernels.kvol, f)
            == CalcRhoModis(kernels.kgeoVzaZero, kernels.kvolVzaZero, f) * rS2
    ensures kernels.kgeo == kernels.kgeoVzaZero && kernels.kvol == kernels.kvolVzaZero ==> r == rS2
  {
    var cLambda := CalcCLambda(kernels, f);
    cLambda * rS2
  }

  /** The correction is linear in the reflectance; zero stays zero. */
  lemma NbarLinear(f: Coeffs, kernels: KernelSet, a: real, x: real, y: real)
    requires CalcRhoModis(kernels.kgeo, kernels.kvol, f) != 0.0
    ensures CalcNbar(a * x + y, f, kernels) == a * CalcNbar(x, f, kernels) + CalcNbar(y, f, kernels)
    ensures CalcNbar(0.0, f, kernels) == 0.0
  {
  }

  /** The sample's angles in radians and everything the kernels divide by is
      nonzero, at the actual geometry and at nadir. */
  predicate GeometryDefined(m: Math, s: Sample)
  {
    var saa := Deg2Rad(m, s.sunAzimuthAngles);
    var sza := Deg2Rad(m, s.sunZenithAngles);
    var vaa := Deg2Rad(m, s.viewAzimuthMean);
    var vza := Deg2Rad(m, s.viewZenithMean);
    && m.cos(sza) != 0.0 && m.cos(vza) != 0.0 && m.cos(0.0) != 0.0
    && ConstantsDefined(m, BuildConstants(m, sza, vza, saa, vaa))
    && ConstantsDefined(m, BuildConstants(m, sza, 0.0, saa, vaa))
  }

  /** The four kernels of a sample (`kernels` in `evaluatePixel`). */
  function SampleKernels(m: Math, s: Sample): KernelSet
    requires GeometryDefined(m, s)
  {
    var saa := Deg2Rad(m, s.sunAzimuthAngles);
    var sza := Deg2Rad(m, s.sunZenithAngles);
    var vaa := Deg2Rad(m, s.viewAzimuthMean);
    var vza := Deg2Rad(m, s.viewZenithMean);
    var constant := BuildConstants(m, sza, vza, saa, vaa);
    var cVzaZero := BuildConstants(m, sza, 0.0, saa, vaa);
    KernelSet(Kgeo(m, constant), Kvol(m, constant), Kgeo(m, cVzaZero), Kvol(m, cVzaZero))
  }

  /** Every band's ratio is defined for this sample. */
  predicate Computable(m: Math, s: Sample, fv: seq<(Band, Coeffs)>)
  {
    && GeometryDefined(m, s)
    && var k := SampleKernels(m, s);
       forall i | 0 <= i < |fv| :: CalcRhoModis(k.kgeo, k.kvol, fv[i].1) != 0.0
  }

  /** `bands.map(...)`: each band's reflectance corrected with its own
      coefficients and scaled by `lum`. The triple is read by position,
      which `KeysLookUpTheirOwnTriples` shows is the one stored under the
      band's key. */
  function MapNbar(s: Sample, bands: seq<Band>, fv: seq<(Band, Coeffs)>, kernels: KernelSet, lum: real): seq<real>
    requires |bands| == |fv|
    requires forall i | 0 <= i < |fv| :: CalcRhoModis(kernels.kgeo, kernels.kvol, fv[i].1) != 0.0
  {
    seq(|bands|, k requires 0 <= k < |bands| => lum * CalcNbar(Reflectance(s, bands[k]), fv[k].1, kernels))
  }

  /** The corrected pixel for one chosen sample: one entry per key of the
      coefficient object, in key order. */
  function Pixel(m: Math, s: Sample, fv: seq<(Band, Coeffs)>): seq<real>
    requires Computable(m, s, fv)
  {
    MapNbar(s, Keys(fv), fv, SampleKernels(m, s), LUM)
  }

  /** `evaluatePixel`: the pixel of the first sample with view geometry, or
      three zeros when no sample has it (an empty list included). */
  method EvaluatePixel(m: Math, sample: seq<Sample>) returns (r: seq<real>)
    requires FirstAvailableIndex(sample).Some? ==>
               Computable(m, sample[FirstAvailableIndex(sample).value], F_VALUES)
    ensures FirstAvailableIndex(sample).None? ==> r == [0.0, 0.0, 0.0]
    ensures FirstAvailableIndex(sample).Some? ==>
              r == Pixel(m, sample[FirstAvailableIndex(sample).value], F_VALUES)
  {
    for i := 0 to |sample|
      invariant forall j | 0 <= j < i :: !Available(sample[j])
    {
      if sample[i].viewAzimuthMean > 1.0 {
        FirstAvailableAt(sample, i);
        var available := sample[i];
        var saa := Deg2Rad(m, available.sunAzimuthAngles);
        var sza := Deg2Rad(m, available.sunZenithAngles);
        var vaa := Deg2Rad(m, available.viewAzimuthMean);
        var vza := Deg2Rad(m, available.viewZenithMean);

        var constant := BuildConstants(m, sza, vza, saa, vaa);
        var cVzaZero := BuildConstants(m, sza, 0.0, saa, vaa);
        var kernels := KernelSet(Kgeo(m, constant), Kvol(m, constant), Kgeo(m, cVzaZero), Kvol(m, cVzaZero));

        var bands := Keys(F_VALUES);
        var lum := 2.5;
        return MapNbar(available, bands, F_VALUES, kernels, lum);
      }
    }
    return [0.0, 0.0, 0.0];
  }

  /** The output is red, green, blue: B04, B03 and B02 with their own
      coefficient triples, each scaled by 2.5. */
  lemma OutputOrder(m: Math, s: Sample)
    requires Computable(m, s, F_VALUES)
    ensures var k := SampleKernels(m, s);
            && CalcRhoModis(k.kgeo, k.kvol, [0.1690, 0.0227, 0.0574]) != 0.0
            && CalcRhoModis(k.kgeo, k.kvol, [0.1306, 0.0178, 0.0580]) != 0.0
            && CalcRhoModis(k.kgeo, k.kvol, [0.0774, 0.0079, 0.0372]) != 0.0
            && Pixel(m, s, F_VALUES) == [
              2.5 * CalcNbar(s.B04, [0.1690, 0.0227, 0.0574], k),
              2.5 * CalcNbar(s.B03, [0.1306, 0.0178, 0.0580], k),
              2.5 * CalcNbar(s.B02, [0.0774, 0.0079, 0.0372], k)]
  {
    var k := SampleKernels(m, s);
    assert F_VALUES[0].1 == [0.1690, 0.0227, 0.0574];
    assert F_VALUES[1].1 == [0.1306, 0.0178, 0.0580];
    assert F_VALUES[2].1 == [0.0774, 0.0079, 0.0372];
    var keys := Keys(F_VALUES);
    assert keys[0] == Red && keys[1] == Green && keys[2] == Blue;
    var p := MapNbar(s, keys, F_VALUES, k, LUM);
    assert p[0] == 2.5 * CalcNbar(s.B04, F_VALUES[0].1, k);
    assert p[1] == 2.5 * CalcNbar(s.B03, F_VALUES[1].1, k);
    assert p[2] == 2.5 * CalcNbar(s.B02, F_VALUES[2].1, k);
  }

  /** A band's output depends on its own reflectance and coefficients only:
      samples with the same angles and the same reflectance in that band, and
      tables that agree on its entry, give that entry the same output, however
      the other bands differ. */
  lemma CrossBandIndependence(m: Math, s: Sample, s': Sample, fv: seq<(Band, Coeffs)>, fv': seq<(Band, Coeffs)>, i: nat)
    requires Computable(m, s, fv) && Computable(m, s', fv')
    requires i < |fv| && i < |fv'| && fv[i] == fv'[i]
    requires s.sunAzimuthAngles == s'.sunAzimuthAngles && s.sunZenithAngles == s'.sunZenithAngles
    requires s.viewAzimuthMean == s'.viewAzimuthMean && s.viewZenithMean == s'.viewZenithMean
    requires Reflectance(s, fv[i].0) == Reflectance(s', fv[i].0)
    ensures Pixel(m, s, fv)[i] == Pixel(m, s', fv')[i]
  {
    assert SampleKernels(m, s) == SampleKernels(m, s');
  }

  /** Nadir identity: with a view zenith of 0 every ratio is 1 and each band
      comes out as 2.5 times its reflectance. */
  lemma NadirIdentity(m: Math, s: Sample)
    requires s.viewZenithMean == 0.0
    requires Computable(m, s, F_VALUES)
    ensures Pixel(m, s, F_VALUES) == [2.5 * s.B04, 2.5 * s.B03, 2.5 * s.B02]
  {
    var k := SampleKernels(m, s);
    assert Deg2Rad(m, s.viewZenithMean) == 0.0;
    assert k.kgeo == k.kgeoVzaZero && k.kvol == k.kvolVzaZero;
    OutputOrder(m, s);
  }
}

/** How the implementations of the correction relate: where they agree
    (coefficients, the modelled reflectance, the kernels for small azimuth
    separations, the pixel at nadir) and where their relative azimuths part
    ways. */
module Variants {
  import opened Angles
  import opened Samples
  import TrueColor
  import Evalscript
  import Kernels
  import Brdf
  import KGeo

  /** The three visible-band triples are the same in both evalscripts and in
      the Python table. */
  lemma CoefficientTablesAgree()
    ensures TrueColor.F_VALUES == [(Red, Evalscript.F_RED), (Green, Evalscript.F_GREEN), (Blue, Evalscript.F_BLUE)]
    ensures forall i | 0 <= i < |TrueColor.F_VALUES| ::
              Brdf.FKwargs(Brdf.BRDF_PARAMS, Key(TrueColor.F_VALUES[i].0)) == Brdf.Ok(TrueColor.F_VALUES[i].1)
  {
    Brdf.ParamsCoverSixBands();
  }

  /** The accumulated sum of evalscript.js and the Python sum written in the
      order iso, vol, geo both equal `f_iso + f_geo kgeo + f_vol kvol`. */
  lemma RhoModisFormsAgree(m: Math, sza: real, vza: real, saa: real, vaa: real, f: Coeffs)
    requires KernelsDefined(m, sza, vza)
    ensures Evalscript.RhoModis(m, sza, vza, saa, vaa, f)
            == TrueColor.CalcRhoModis(Evalscript.Kgeo(m, sza, vza, saa, vaa), Evalscript.Kvol(m, sza, vza, saa, vaa), f)
    ensures Brdf.CalcRhoModis(m, sza, vza, saa, vaa, f[0], f[1], f[2])
            == TrueColor.CalcRhoModis(Kernels.CalcKgeo(m, sza, vza, saa, vaa), Kernels.CalcKvol(m, sza, vza, saa, vaa), f)
  {
  }

  /** The four relative azimuths are different functions: sun at 0 and view
      at pi/4 separates the k_geo form from the true-colour one, sun at 0 and
      view at 3 pi/2 separates the evalscript.js and Python forms from it. */
  lemma AzimuthVariantsDisagree(m: Math)
    requires 3.0 < m.PI < 4.0
    ensures TrueColor.RelativeAzimuth(m, 0.0, m.PI / 4.0) == m.PI / 4.0
    ensures KGeo.RelativeAzimuth(m, 0.0, m.PI / 4.0) == 3.0 * m.PI / 4.0
    ensures TrueColor.RelativeAzimuth(m, 0.0, 3.0 * m.PI / 2.0) == m.PI / 2.0
    ensures Evalscript.RelativeAzimuth(0.0, 3.0 * m.PI / 2.0) == 3.0 * m.PI / 2.0
    ensures Kernels.RelativeAzimuth(0.0, 3.0 * m.PI / 2.0) == 3.0 * m.PI / 2.0
  {
  }

  /** Whenever the 180 threshold does not fire, evalscript.js and the Python
      package compute the same two kernels. */
  lemma EvalscriptKernelsMatchPython(m: Math, sza: real, vza: real, saa: real, vaa: real)
    requires KernelsDefined(m, sza, vza)
    requires Abs(saa - vaa) <= 180.0
    ensures Evalscript.Kgeo(m, sza, vza, saa, vaa) == Kernels.CalcKgeo(m, sza, vza, saa, vaa)
    ensures Evalscript.Kvol(m, sza, vza, saa, vaa) == Kernels.CalcKvol(m, sza, vza, saa, vaa)
  {
    var phi := Kernels.RelativeAzimuth(saa, vaa);
    assert Evalscript.RelativeAzimuth(vaa, saa) == phi;
    assert Evalscript.RelativeAzimuth(saa, vaa) == phi;
    assert Evalscript.KgeoAt(m, sza, vza, phi) == Kernels.KgeoAt(m, sza, vza, phi);
  }

  /** For separations up to pi the true-colour volumetric kernel, computed
      from the cached constants, equals the Python one. */
  lemma TrueColorKvolMatchesPython(m: Math, sza: real, vza: real, saa: real, vaa: real)
    requires m.cos(sza) != 0.0 && m.cos(vza) != 0.0 && m.cos(sza) + m.cos(vza) != 0.0
    requires Abs(saa - vaa) <= m.PI
    ensures TrueColor.Kvol(m, TrueColor.BuildConstants(m, sza, vza, saa, vaa))
            == Kernels.CalcKvol(m, sza, vza, saa, vaa)
  {
    var c := TrueColor.BuildConstants(m, sza, vza, saa, vaa);
    assert TrueColor.RelativeAzimuth(m, saa, vaa) == Kernels.RelativeAzimuth(saa, vaa);
    assert c.cosXi == Kernels.CalcCosXi(m, sza, vza, Kernels.RelativeAzimuth(saa, vaa));
  }

  /** On radian azimuths in [0, 2 pi) the missing wrap of evalscript.js
      gives either the wrapped separation or its reflection 2 pi - r, and the
      wrapped one exactly when the separation is at most pi. What this does to
      the volumetric kernel is stated by `AzimuthDefectKeepsKvol`; the
      geometric kernel is not covered. */
  lemma AzimuthDefectIsReflection(m: Math, saa: real, vaa: real)
    requires 0.0 < m.PI < 90.0
    requires 0.0 <= saa < 2.0 * m.PI && 0.0 <= vaa < 2.0 * m.PI
    ensures var r := TrueColor.RelativeAzimuth(m, saa, vaa);
            var e := Evalscript.RelativeAzimuth(saa, vaa);
            (e == r || e == 2.0 * m.PI - r) && (e == r <==> Abs(saa - vaa) <= m.PI)
  {
    Evalscript.WrapNeverFiresOnRadians(m, saa, vaa);
  }

  /** The volumetric kernel of evalscript.js is unharmed by its missing wrap,
      given that cosine is symmetric about pi at the separation: it reads the
      azimuth only through its cosine. */
  lemma AzimuthDefectKeepsKvol(m: Math, sza: real, vza: real, saa: real, vaa: real)
    requires m.cos(sza) + m.cos(vza) != 0.0
    requires 0.0 < m.PI < 90.0
    requires 0.0 <= saa < 2.0 * m.PI && 0.0 <= vaa < 2.0 * m.PI
    requires m.cos(2.0 * m.PI - Abs(saa - vaa)) == m.cos(Abs(saa - vaa))
    ensures Evalscript.Kvol(m, sza, vza, saa, vaa)
            == Evalscript.KvolAt(m, sza, vza, TrueColor.RelativeAzimuth(m, saa, vaa))
  {
    var d := Abs(saa - vaa);
    Evalscript.WrapNeverFiresOnRadians(m, saa, vaa);
    if d > m.PI {
      var w := 2.0 * m.PI - d;
      assert TrueColor.RelativeAzimuth(m, saa, vaa) == w;
      assert Evalscript.CosXi(m, sza, vza, w) == Evalscript.CosXi(m, sza, vza, d);
    }
  }

  /** At nadir both evalscripts return the same pixel. */
  lemma PixelsAgreeAtNadir(m: Math, s: Sample)
    requires s.viewZenithMean == 0.0
    requires TrueColor.Computable(m, s, TrueColor.F_VALUES) && Evalscript.Computable(m, s)
    ensures TrueColor.Pixel(m, s, TrueColor.F_VALUES) == Evalscript.Pixel(m, s)
  {
    TrueColor.NadirIdentity(m, s);
    Evalscript.PixelAtNadir(m, s);
  }
}

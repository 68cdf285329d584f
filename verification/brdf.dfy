/** The Python package's NBAR correction: the coefficient table for six
    Sentinel-2 bands, the modelled reflectance, the correction ratio and the
    corrected reflectance. A band missing from the table raises `KeyError`,
    modelled as an error result. */
module Brdf {
  import opened Angles
  import opened Kernels

  /** The table `BRDF_PARAMS[field][band]` (Roy et al. 2017, Table 1). */
  type Params = map<string, map<string, real>>

  datatype Error = KeyError(key: string)

  datatype Result<+T> = Ok(value: T) | Err(error: Error)

  /** The three fields `f_kwargs` reads, in the order it reads them. */
  const FIELDS: seq<string> := ["f_iso", "f_geo", "f_vol"]

  const BANDS: set<string> := {"B02", "B03", "B04", "B08", "B11", "B12"}

  const BRDF_PARAMS: Params := map[
    "f_iso" := map["B02" := 0.0774, "B03" := 0.1306, "B04" := 0.1690,
                   "B08" := 0.3093, "B11" := 0.3430, "B12" := 0.2658],
    "f_geo" := map["B02" := 0.0079, "B03" := 0.0178, "B04" := 0.0227,
                   "B08" := 0.0330, "B11" := 0.0453, "B12" := 0.0387],
    "f_vol" := map["B02" := 0.0372, "B03" := 0.0580, "B04" := 0.0574,
                   "B08" := 0.1535, "B11" := 0.1154, "B12" := 0.0639]
  ]

  /** Each of the three fields holds exactly the six bands. */
  lemma ParamsCoverSixBands()
    ensures BRDF_PARAMS.Keys == {"f_iso", "f_geo", "f_vol"}
    ensures BRDF_PARAMS["f_iso"].Keys == BANDS
    ensures BRDF_PARAMS["f_geo"].Keys == BANDS
    ensures BRDF_PARAMS["f_vol"].Keys == BANDS
  {
  }

  /** `calc_rho_modis` (Roy et al. 2017, eq. 6; Lucht et al. 2000, eq. 37). */
  function CalcRhoModis(m: Math, sza: real, vza: real, saa: real, vaa: real,
                        fIso: real, fGeo: real, fVol: real): real
    requires KernelsDefined(m, sza, vza)
  {
    fIso + fVol * CalcKvol(m, sza, vza, saa, vaa) + fGeo * CalcKgeo(m, sza, vza, saa, vaa)
  }

  /** The `f_kwargs` of `calc_c_lambda`: the band's triple, looked up field
      by field in the order f_iso, f_geo, f_vol; the first missing key is
      the error. */
  function FKwargs(params: Params, band: string): (r: Result<Coeffs>)
    ensures r.Ok? <==> forall field | field in FIELDS :: field in params && band in params[field]
    ensures r.Ok? ==> r.value == [params["f_iso"][band], params["f_geo"][band], params["f_vol"][band]]
    ensures r.Err? ==> exists i | 0 <= i < |FIELDS| ::
              && (forall j | 0 <= j < i :: FIELDS[j] in params && band in params[FIELDS[j]])
              && (if FIELDS[i] !in params then r.error.key == FIELDS[i]
                  else band !in params[FIELDS[i]] && r.error.key == band)
  {
    if "f_iso" !in params then
      assert FIELDS[0] == "f_iso";
      Err(KeyError("f_iso"))
    else if band !in params["f_iso"] then
      assert FIELDS[0] == "f_iso";
      Err(KeyError(band))
    else if "f_geo" !in params then
      assert FIELDS[0] == "f_iso" && FIELDS[1] == "f_geo";
      Err(KeyError("f_geo"))
    else if band !in params["f_geo"] then
      assert FIELDS[0] == "f_iso" && FIELDS[1] == "f_geo";
      Err(KeyError(band))
    else if "f_vol" !in params then
      assert FIELDS[0] == "f_iso" && FIELDS[1] == "f_geo" && FIELDS[2] == "f_vol";
      Err(KeyError("f_vol"))
    else if band !in params["f_vol"] then
      assert FIELDS[0] == "f_iso" && FIELDS[1] == "f_geo" && FIELDS[2] == "f_vol";
      Err(KeyError(band))
    else Ok([params["f_iso"][band], params["f_geo"][band], params["f_vol"][band]])
  }

  /** With the package's table, exactly the six bands have coefficients;
      any other band is a `KeyError` naming it. */
  lemma KnownBandsOnly(band: string)
    ensures FKwargs(BRDF_PARAMS, band).Ok? <==> band in BANDS
    ensures band !in BANDS ==> FKwargs(BRDF_PARAMS, band) == Err(KeyError(band))
  {
    ParamsCoverSixBands();
  }

  /** When the band is known, both geometries are defined and its modelled
      reflectance at the actual geometry is nonzero. An unknown band needs
      nothing: its `KeyError` is raised before any kernel runs. */
  predicate RatioDefined(m: Math, params: Params, sza: real, vza: real, saa: real, vaa: real, band: string)
  {
    var f := FKwargs(params, band);
    f.Ok? ==>
      && KernelsDefined(m, sza, vza) && KernelsDefined(m, sza, 0.0)
      && CalcRhoModis(m, sza, vza, saa, vaa, f.value[0], f.value[1], f.value[2]) != 0.0
  }

  /** `calc_c_lambda`: the band's modelled nadir reflectance over its modelled
      actual reflectance. */
  function CalcCLambda(m: Math, params: Params, sza: real, vza: real, saa: real, vaa: real, band: string): (r: Result<real>)
    requires RatioDefined(m, params, sza, vza, saa, vaa, band)
    ensures r.Ok? <==> FKwargs(params, band).Ok?
    ensures r.Err? ==> r == Err(FKwargs(params, band).error)
    ensures r.Ok? ==> var f := FKwargs(params, band).value;
                      r.value * CalcRhoModis(m, sza, vza, saa, vaa, f[0], f[1], f[2])
                      == CalcRhoModis(m, sza, 0.0, saa, vaa, f[0], f[1], f[2])
    ensures r.Ok? && vza == 0.0 ==> r.value == 1.0
  {
    match FKwargs(params, band)
    case Err(e) => Err(e)
    case Ok(f) =>
      Ok(CalcRhoModis(m, sza, 0.0, saa, vaa, f[0], f[1], f[2])
         / CalcRhoModis(m, sza, vza, saa, vaa, f[0], f[1], f[2]))
  }

  /** A band outside the table fails with a `KeyError` naming it, whatever
      the angles, even where every kernel would divide by zero. */
  lemma UnknownBandFailsAtAnyGeometry(m: Math, sza: real, vza: real, saa: real, vaa: real, band: string)
    requires band !in BANDS
    ensures RatioDefined(m, BRDF_PARAMS, sza, vza, saa, vaa, band)
    ensures CalcCLambda(m, BRDF_PARAMS, sza, vza, saa, vaa, band) == Err(KeyError(band))
    ensures CalcNbar(m, BRDF_PARAMS, 1.0, band, sza, vza, saa, vaa) == Err(KeyError(band))
  {
    KnownBandsOnly(band);
  }

  /** A band's ratio reads only that band's coefficients: tables that agree
      on it give the same result, however the other bands differ. */
  lemma CLambdaCrossBandIndependent(m: Math, params: Params, params': Params,
                                    sza: real, vza: real, saa: real, vaa: real, band: string)
    requires RatioDefined(m, params, sza, vza, saa, vaa, band)
    requires forall field | field in FIELDS ::
               (field in params <==> field in params') &&
               (field in params ==> (band in params[field] <==> band in params'[field])) &&
               (field in params && band in params[field] ==> params[field][band] == params'[field][band])
    ensures RatioDefined(m, params', sza, vza, saa, vaa, band)
    ensures CalcCLambda(m, params, sza, vza, saa, vaa, band) == CalcCLambda(m, params', sza, vza, saa, vaa, band)
  {
    assert FKwargs(params, band) == FKwargs(params', band);
  }

  /** `calc_nbar`: the reflectance times the band's ratio. */
  function CalcNbar(m: Math, params: Params, rS2: real, band: string,
                    sza: real, vza: real, saa: real, vaa: real): (r: Result<real>)
    requires RatioDefined(m, params, sza, vza, saa, vaa, band)
    ensures r.Ok? <==> FKwargs(params, band).Ok?
    ensures r.Ok? ==> var f := FKwargs(params, band).value;
                      r.value * CalcRhoModis(m, sza, vza, saa, vaa, f[0], f[1], f[2])
                      == CalcRhoModis(m, sza, 0.0, saa, vaa, f[0], f[1], f[2]) * rS2
    ensures r.Ok? && vza == 0.0 ==> r.value == rS2
  {
    match CalcCLambda(m, params, sza, vza, saa, vaa, band)
    case Err(e) => Err(e)
    case Ok(cLambda) => Ok(cLambda * rS2)
  }

  /** The corrected reflectance is linear in the input reflectance, and a
      zero reflectance stays zero. */
  lemma NbarLinear(m: Math, params: Params, band: string, sza: real, vza: real, saa: real, vaa: real,
                   a: real, x: real, y: real)
    requires RatioDefined(m, params, sza, vza, saa, vaa, band)
    requires FKwargs(params, band).Ok?
    ensures CalcNbar(m, params, a * x + y, band, sza, vza, saa, vaa).value
            == a * CalcNbar(m, params, x, band, sza, vza, saa, vaa).value
               + CalcNbar(m, params, y, band, sza, vza, saa, vaa).value
    ensures CalcNbar(m, params, 0.0, band, sza, vza, saa, vaa).value == 0.0
  {
  }
}

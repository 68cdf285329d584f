# s2-normalisation: NBAR correction of Sentinel-2 reflectance, in Dafny

The repository corrects Sentinel-2 surface reflectance to nadir view: the
NBAR (nadir BRDF-adjusted reflectance) of Roy et al. 2017. It uses the
Ross-Thick (volumetric) and Li-Sparse-Reciprocal (geometric) kernels of
Lucht et al. 2000. For a band with coefficients `[f_iso, f_geo, f_vol]`, the
modelled reflectance is `rho = f_iso + f_geo kgeo + f_vol kvol`. The
correction ratio `c_lambda` is `rho` at view zenith 0 divided by `rho` at
the actual view zenith. The NBAR is `c_lambda` times the observed
reflectance.

The repository holds three implementations of the correction: two
Sentinel Hub evalscripts and a Python package split over two files. A fourth
script holds only the geometric kernel and a sweep over view zeniths. Each is
modelled on its own:

- `TrueColor` (`javascript/evalscript_true_color.js`): a Sentinel Hub
  evalscript that caches the trigonometry of a geometry in a constants
  record. It wraps the relative azimuth at pi. It returns
  `2.5 * NBAR` for B04, B03, B02 (red, green, blue) of the first sample whose
  view geometry is available, and black when no sample has one.
- `Evalscript` (`javascript/evalscript.js`): the older evalscript. Each
  kernel recomputes its trigonometry from the four angles, and the
  modelled reflectance is accumulated in a loop. Its relative azimuth wraps
  at 180 although its angles are radians.
- `Kernels` and `Brdf` (`s2brdf/kernels.py`, `s2brdf/brdf.py`): the Python
  package. It has an unwrapped relative azimuth and a six-band coefficient
  table, and a band missing from the table raises `KeyError`.
- `KGeo` (`javascript/k_geo.js`): a script that measures the azimuth from
  the direction opposite the sun, then sweeps the geometric kernel over view
  zeniths 0, 10, ..., 80 degrees.

Shared pieces live in `Angles` and `Samples`:

- `Angles` holds the degree/radian conversions and the secant (identical in
  every copy) and the host math library.
- `Samples` holds the sample record and the first-available selection.

`Variants` relates the copies to one another.

The host math library (`Math.cos`, `numpy.arccos`, ...) is a value of the
datatype `Angles.Math` holding `PI` and total functions on reals. A fact
about a particular value, such as `cos 0 = 1` or `cos pi = -1`, is a
precondition of the lemma that needs it. Floating-point division by zero,
which yields an infinity or NaN in the source, is a precondition. These
predicates name where each division is defined:

- `SecantsDefined` and `KernelsDefined`;
- `ConstantsDefined` and `Computable`;
- `RatioDefined` and `SweepDefined`.

Loops in the source are methods proved against specification functions:

- both `evaluatePixel` loops;
- the accumulation in `evalscript.js`'s `calc_rho_modis`;
- the top-level sweep of `k_geo.js`.

## Model

| member | source | states |
|---|---|---|
| Angles.Abs | javascript/evalscript_true_color.js:92 | the absolute value is non-negative and is the argument or its negation |
| Angles.Min | javascript/evalscript_true_color.js:116 | the minimum is below both arguments and is one of them |
| Angles.Sec | s2brdf/kernels.py:20-21 | the secant times the cosine is 1, wherever the cosine is nonzero |
| Angles.ConversionsInverse | s2brdf/kernels.py:4-11 | deg2rad and rad2deg undo each other in both orders (pi nonzero) |
| Angles.ConversionTestValues | tests/s2brdf/test_kernels.py:15-20 | deg2rad(180) is pi and rad2deg(pi/2) is 90 |
| Angles.SecOfPi | tests/s2brdf/test_kernels.py:23-24 | sec(pi) is -1 when cos(pi) is -1 |
| Samples.FirstAvailableIndex | javascript/evalscript_true_color.js:12-16 | the index found is in range and has `viewAzimuthMean > 1`; every earlier sample does not; none is found exactly when no sample qualifies |
| Samples.FirstAvailableAt | javascript/evalscript_true_color.js:12-17 | an available sample preceded only by unavailable ones is the one selected |
| Samples.LaterSamplesIgnored | javascript/evalscript_true_color.js:12-17 | samples after the first available one do not affect the selection |
| TrueColor.Lookup | javascript/evalscript_true_color.js:36 | `f_values[band]` finds nothing exactly when no entry has the key, and otherwise the triple of the first entry with that key |
| TrueColor.LookupByPosition | javascript/evalscript_true_color.js:32-36 | with distinct keys, the triple found under the i-th key of `Object.keys` is the i-th entry's |
| TrueColor.KeysLookUpTheirOwnTriples | javascript/evalscript_true_color.js:45-49 | every key of `f_values` looks up its own triple, so reading the triple by position is reading it by key |
| TrueColor.RelativeAzimuth | javascript/evalscript_true_color.js:89-100 | the separation or 2 pi minus it, whichever is smaller; never above pi; non-negative exactly when the separation is at most 2 pi |
| TrueColor.RelativeAzimuthSymmetric | javascript/evalscript_true_color.js:89-100 | swapping sun and view azimuth changes nothing; equal azimuths give 0 |
| TrueColor.RelativeAzimuthWrapsAround | javascript/evalscript_true_color.js:94-95 | 350 and 10 degrees are 20 degrees apart, the same as 0 and 20 |
| TrueColor.BuildConstants | javascript/evalscript_true_color.js:51-77 | the zenith cosines and sines are those of the inputs; secant times cosine is 1 and tangent times cosine is sine for both zeniths; the azimuth entries are the cosine and sine of the wrapped relative azimuth; cos_xi equals the Python `calc_cos_xi` at that azimuth |
| TrueColor.AcosArgument | javascript/evalscript_true_color.js:115-116 | what reaches acos is at most 1; it is cos t when cos t is at most 1 and 1 otherwise |
| TrueColor.Kgeo | javascript/evalscript_true_color.js:102-125 | when cos t reaches 1 the kernel is evaluated at acos(1) |
| TrueColor.KgeoSaturated | javascript/evalscript_true_color.js:115-122 | when acos(1) = 0 and sin 0 = 0, a cos t of at least 1 leaves no overlap term: the kernel is (1 + cos_xi) sec sza sec vza / 2 - sec sza - sec vza |
| TrueColor.NadirConstants | javascript/evalscript_true_color.js:24 | with view zenith 0, the cached view cosine, sine, tangent and secant are 1, 0, 0, 1 and cos_xi is the solar-zenith cosine |
| TrueColor.KernelsWithoutAzimuth | javascript/evalscript_true_color.js:102-139 | two cached geometries with a zero view-zenith tangent that agree on the secants, tangents, zenith cosines and cos_xi give the same kernels, whatever their azimuths |
| TrueColor.NadirKernelsIgnoreAzimuth | javascript/evalscript_true_color.js:24-29 | the nadir kernels do not depend on the azimuths |
| TrueColor.CalcCLambda | javascript/evalscript_true_color.js:146-149 | the ratio times the modelled actual reflectance is the modelled nadir reflectance; equal kernels give 1 |
| TrueColor.CalcNbar | javascript/evalscript_true_color.js:151-157 | the NBAR times the modelled actual reflectance is the modelled nadir reflectance times the input reflectance, i.e. `c_lambda * r_s2`; equal actual and nadir kernels leave the reflectance unchanged |
| TrueColor.NbarLinear | javascript/evalscript_true_color.js:151-157 | the correction is linear in the reflectance and maps 0 to 0 |
| TrueColor.EvaluatePixel | javascript/evalscript_true_color.js:11-41 | returns [0, 0, 0] when no sample has view geometry, otherwise the pixel of the first sample that has it |
| TrueColor.OutputOrder | javascript/evalscript_true_color.js:32-37 | the output is red, green, blue (B04, B03, B02), each 2.5 times its band's NBAR with that band's coefficients |
| TrueColor.CrossBandIndependence | javascript/evalscript_true_color.js:32-37 | samples with the same angles and the same reflectance in one band, and tables agreeing on that band's entry, give that channel the same output |
| TrueColor.NadirIdentity | javascript/evalscript_true_color.js:11-41 | at view zenith 0 the pixel is 2.5 times the raw B04, B03, B02 |
| Evalscript.RelativeAzimuth | javascript/evalscript.js:43-55 | the separation or 360 minus it; never above 180; non-negative exactly when the separation is at most 360 |
| Evalscript.RelativeAzimuthSymmetric | javascript/evalscript.js:43-55 | swapping the azimuths changes nothing; equal azimuths give 0 |
| Evalscript.WrapNeverFiresOnRadians | javascript/evalscript.js:49 | on radian azimuths in [0, 2 pi) the result is the plain separation |
| Evalscript.RelativeAzimuthExceedsPi | javascript/evalscript.js:43-55 | sun at 0 and view at 3 pi/2 give 3 pi/2, beyond pi |
| Evalscript.AcosArgument | javascript/evalscript.js:76-77 | what reaches acos is at most 1, is 1 or cos t, and is cos t whenever cos t is at most 1 |
| Evalscript.KernelsShareAzimuth | javascript/evalscript.js:62-95 | although calc_kgeo passes (vaa, saa) and calc_kvol (saa, vaa), both kernels see the same relative azimuth |
| Evalscript.PartialSumOfThree | javascript/evalscript.js:120-124 | the accumulated dot product of [1, kgeo, kvol] with f is f_iso + f_geo kgeo + f_vol kvol |
| Evalscript.CalcRhoModis | javascript/evalscript.js:118-128 | the loop computes the modelled reflectance of eq. 37 of Lucht et al. |
| Evalscript.CLambdaAtNadir | javascript/evalscript.js:130-133 | at view zenith 0 the ratio is 1 |
| Evalscript.CalcCLambda | javascript/evalscript.js:130-133 | the ratio times the actual modelled reflectance is the nadir one; it is 1 at nadir |
| Evalscript.NbarLinear | javascript/evalscript.js:135-141 | the correction is linear in the reflectance |
| Evalscript.CalcNbar | javascript/evalscript.js:135-141 | the NBAR is the ratio times the reflectance; at nadir, the reflectance itself |
| Evalscript.EvaluatePixel | javascript/evalscript.js:11-26 | returns [0, 0, 0] when no sample has view geometry, otherwise 2.5 times the red, green, blue NBAR of the first sample that has it |
| Evalscript.PixelAtNadir | javascript/evalscript.js:19-22 | at view zenith 0 the pixel is 2.5 times the raw B04, B03, B02 |
| Kernels.RelativeAzimuth | s2brdf/kernels.py:14-17 | the result is non-negative and is one of the two differences |
| Kernels.RelativeAzimuthSymmetric | s2brdf/kernels.py:14-17 | swapping the azimuths changes nothing; equal azimuths give 0 |
| Kernels.RelativeAzimuthDisagreesWithTests | tests/s2brdf/test_kernels.py:27-30 | the function returns 5 pi/6 and pi where the tests expect pi/6 and 0 |
| Kernels.CosXiTestValue | tests/s2brdf/test_kernels.py:33-35 | zeniths pi/2 and 3 pi/2 at azimuth 0 give -1 |
| Kernels.AcosArgument | s2brdf/kernels.py:50-53 | what reaches arccos is at most 1, is 1 or cos t, and is cos t whenever cos t is at most 1 |
| Kernels.KernelsShareAzimuth | s2brdf/kernels.py:28-82 | swapping sun and view azimuth changes neither kernel |
| Kernels.NadirPhase | s2brdf/kernels.py:24-25 | with view zenith 0 the phase cosine is the solar-zenith cosine |
| Brdf.ParamsCoverSixBands | s2brdf/brdf.py:5-30 | the table has fields f_iso, f_geo, f_vol, each holding exactly B02, B03, B04, B08, B11, B12 |
| Brdf.FKwargs | s2brdf/brdf.py:42-46 | the lookup succeeds exactly when all three fields hold the band, with the band's triple; otherwise the error is raised at the first field, in the order f_iso, f_geo, f_vol, that is absent (naming the field) or lacks the band (naming the band) |
| Brdf.KnownBandsOnly | s2brdf/brdf.py:42-46 | with the package's table, exactly the six bands succeed, and any other band is a KeyError naming it |
| Brdf.CalcCLambda | s2brdf/brdf.py:40-52 | fails exactly when the lookup fails, with its error; otherwise the ratio times the actual modelled reflectance is the nadir one, and it is 1 at nadir |
| Brdf.UnknownBandFailsAtAnyGeometry | s2brdf/brdf.py:42-46 | a band outside the table is a `KeyError` naming it at every geometry, because the lookup runs before any kernel |
| Brdf.CLambdaCrossBandIndependent | s2brdf/brdf.py:40-52 | tables agreeing on one band's triple give that band the same ratio |
| Brdf.CalcNbar | s2brdf/brdf.py:55-60 | fails exactly when the lookup fails; otherwise the NBAR times the modelled actual reflectance is the modelled nadir reflectance times `r_s2`, i.e. `c_lambda * r_s2`; at nadir returns the reflectance |
| Brdf.NbarLinear | s2brdf/brdf.py:55-60 | the correction is linear in the reflectance and maps 0 to 0 |
| KGeo.RelativeAzimuth | javascript/k_geo.js:16-21 | non-negative, and one of the two differences after turning the sun azimuth by pi |
| KGeo.RelativeAzimuthMatchesTests | javascript/k_geo.js:16-21 | this form returns pi/6 and 0 on the cases the Python tests check |
| KGeo.AcosArgument | javascript/k_geo.js:42-43 | what reaches acos is at most 1, is 1 or cos t, and is cos t whenever cos t is at most 1 |
| KGeo.KgeoSwapsAzimuths | javascript/k_geo.js:28 | the kernel sees the azimuth of the sun turned by pi, measured from the view |
| KGeo.RelativeAzimuthAsymmetric | javascript/k_geo.js:16-21 | the azimuth is not symmetric: sun 0 and view pi/4 give 3 pi/4, the reverse 5 pi/4, so the swapped arguments at line 28 change the result |
| KGeo.Sweep | javascript/k_geo.js:55-75 | `angles` is 0, 10, ..., 80 and `results` holds the kernel at each of those view zeniths, sun at zenith 45 and azimuth 180, view azimuth 0 |
| Variants.CoefficientTablesAgree | s2brdf/brdf.py:5-30 | the visible-band triples of both evalscripts and of the Python table are the same |
| Variants.RhoModisFormsAgree | javascript/evalscript.js:118-128 | the accumulated sum, and the Python sum written in the order iso, vol, geo, both equal f_iso + f_geo kgeo + f_vol kvol |
| Variants.AzimuthVariantsDisagree | javascript/k_geo.js:16-21 | the true-colour, k_geo and evalscript/Python relative azimuths differ on explicit inputs |
| Variants.EvalscriptKernelsMatchPython | javascript/evalscript.js:57-110 | when the 180 wrap does not fire, evalscript.js and the Python package compute the same kernels |
| Variants.TrueColorKvolMatchesPython | javascript/evalscript_true_color.js:127-139 | for separations up to pi, the cached-constants volumetric kernel equals the Python one |
| Variants.AzimuthDefectIsReflection | javascript/evalscript.js:47-53 | on radian inputs, evalscript.js's azimuth is the wrapped one or 2 pi minus it, and the wrapped one exactly when the separation is at most pi |
| Variants.AzimuthDefectKeepsKvol | javascript/evalscript.js:92-110 | on radian inputs, and given cos(2 pi - d) = cos d at the separation d, evalscript.js's volumetric kernel equals the one computed with the azimuth wrapped at pi |
| Variants.PixelsAgreeAtNadir | javascript/evalscript.js:11-26 | at nadir both evalscripts return the same pixel |

## Left out

- `setup()` in both evalscripts is left out. It declares the input bands and the output size. It does not compute anything.
- The `dataMask` input that `evalscript.js` declares is left out, because it is never read.
- `console.log` at the end of `k_geo.js` (I/O) is left out. `KGeo.Sweep` returns the two lists instead.
- `setup.py` and `s2brdf/__init__.py` are packaging only.
- Floating-point rounding, infinities and NaN are not modelled. Reals are exact. Every division by zero is excluded by a precondition, not given a NaN result.
- Numeric properties of cos, sin, tan, sqrt and acos, beyond the point values a lemma names, are not modelled. The math library is an arbitrary `Angles.Math` value.
- `test_calc_kgeo`'s golden values (tests/s2brdf/test_kernels.py:38-43) need actual trigonometry. Exact reals over uninterpreted functions cannot reproduce them.
- `TrueColor.Kgeo`: the contract covers only the clamp. The kernel formula is eq. 39-42 of Lucht et al., stated in the body.
- `evalscript.js` and `k_geo.js` assign `kgeo` without a declaration, creating a global variable. The value returned is the same, and the leak is not modelled.
- `build_constants` creates the record and then fills the tangents and `cos_xi` in a second step. It is modelled as one datatype value, because the record is never changed after it is returned.
- The JavaScript `f_values` object is an ordered sequence of (band, triple) pairs. `Object.keys` returns string keys in insertion order, which the sequence keeps.
- numpy broadcasting over arrays is not modelled. The Python functions are modelled on single angles and reflectances.

## Findings

| source | as written | input that shows it | evidently intended | confidence | as-written member | corrected member |
|---|---|---|---|---|---|---|
| javascript/evalscript.js:49-50 | the wrap threshold is 180 and the wrap value 360, while the angles are radians (deg2rad at lines 15-18) | saa = 0, vaa = 3 pi/2 gives 3 pi/2, beyond pi | wrap at pi to 2 pi - phi, as evalscript_true_color.js:94-95 does | high, not executed | Evalscript.RelativeAzimuthExceedsPi | TrueColor.RelativeAzimuth |
| s2brdf/kernels.py:14-17 | `abs(vaa - saa)` | saa = 2 pi/3, vaa = 3 pi/2 gives 5 pi/6 where tests/s2brdf/test_kernels.py:29 expects pi/6; saa = pi/2, vaa = 3 pi/2 gives pi where line 30 expects 0 | the azimuth measured from the direction opposite the sun, `abs(vaa - pi - saa)`, as javascript/k_geo.js:20 computes | medium, not executed | Kernels.RelativeAzimuthDisagreesWithTests | KGeo.RelativeAzimuth |

On radian inputs the evalscript.js defect replaces the wrapped azimuth r
by its reflection 2 pi - r (`Variants.AzimuthDefectIsReflection`). Given
that cosine is symmetric about pi at the separation, the volumetric kernel
is unchanged (`Variants.AzimuthDefectKeepsKvol`). The geometric kernel also
reads only the cosine of the azimuth and the square of its sine, so it
should be unchanged as well, but the model does not prove that.

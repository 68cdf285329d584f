/** Angle conversions and the host math library shared by every variant of the
    BRDF correction (the evalscripts, the Python package and the k_geo sweep).

    The host's floating-point library (`Math.PI`, `Math.cos`, numpy's `cos`,
    `arccos`, `sqrt`, ...) is modelled as a record of total functions over
    `real` about which nothing is known: a lemma that needs a value such as
    `cos 0 = 1` states it as a hypothesis. */
module Angles {

  /** The math library: pi and the five functions the kernels call. */
  datatype Math = Math(
    PI: real,
    cos: real -> real,
    sin: real -> real,
    tan: real -> real,
    acos: real -> real,
    sqrt: real -> real)

  /** The values at zero that make the nadir geometry degenerate nicely. */
  predicate ZeroFacts(m: Math)
  {
    m.cos(0.0) == 1.0 && m.sin(0.0) == 0.0
  }

  /** A band's kernel weights `[f_iso, f_geo, f_vol]` (Roy et al. 2017, Table 1). */
  type Coeffs = f: seq<real> | |f| == 3 witness [0.0, 0.0, 0.0]

  datatype Option<T> = None | Some(value: T)

  function Abs(x: real): (r: real)
    ensures r >= 0.0 && (r == x || r == -x)
  {
    if x < 0.0 then -x else x
  }

  function Min(a: real, b: real): (r: real)
    ensures r <= a && r <= b && (r == a || r == b)
  {
    if a <= b then a else b
  }

  /** `Math.pow(x, 2)` and Python's `x**2`. */
  function Pow2(x: real): real
  {
    x * x
  }

  function Deg2Rad(m: Math, x: real): real
  {
    x * m.PI / 180.0
  }

  function Rad2Deg(m: Math, x: real): real
    requires m.PI != 0.0
  {
    x / m.PI * 180.0
  }

  function Sec(m: Math, x: real): (r: real)
    requires m.cos(x) != 0.0
    ensures r * m.cos(x) == 1.0
  {
    1.0 / m.cos(x)
  }

  /** The secants of both zeniths exist and do not cancel: what the
      geometric kernel divides by. */
  predicate SecantsDefined(m: Math, sza: real, vza: real)
  {
    m.cos(sza) != 0.0 && m.cos(vza) != 0.0 && Sec(m, sza) + Sec(m, vza) != 0.0
  }

  /** Everything both kernels divide by is nonzero. */
  predicate KernelsDefined(m: Math, sza: real, vza: real)
  {
    m.PI != 0.0 && SecantsDefined(m, sza, vza) && m.cos(sza) + m.cos(vza) != 0.0
  }

  /** Over the reals the two conversions undo each other, in both orders. */
  lemma ConversionsInverse(m: Math, x: real)
    requires m.PI != 0.0
    ensures Rad2Deg(m, Deg2Rad(m, x)) == x
    ensures Deg2Rad(m, Rad2Deg(m, x)) == x
  {
    calc {
      Rad2Deg(m, Deg2Rad(m, x));
      (x * m.PI / 180.0) / m.PI * 180.0;
      x * (m.PI / m.PI);
      x;
    }
    calc {
      Deg2Rad(m, Rad2Deg(m, x));
      (x / m.PI * 180.0) * m.PI / 180.0;
      x * (m.PI / m.PI);
      x;
    }
  }

  /** The two conversion test cases: 180 degrees is pi, pi/2 is 90 degrees. */
  lemma ConversionTestValues(m: Math)
    requires m.PI != 0.0
    ensures Deg2Rad(m, 180.0) == m.PI
    ensures Rad2Deg(m, m.PI / 2.0) == 90.0
  {
    calc {
      Rad2Deg(m, m.PI / 2.0);
      (m.PI / 2.0) / m.PI * 180.0;
      (m.PI / m.PI) * 90.0;
      90.0;
    }
  }

  /** The secant test case: `sec(pi) = -1` once `cos(pi) = -1`. */
  lemma SecOfPi(m: Math)
    requires m.cos(m.PI) == -1.0
    ensures Sec(m, m.PI) == -1.0
  {
  }
}

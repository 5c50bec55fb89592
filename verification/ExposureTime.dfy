/**
  Exposure planning (python/rts2/snrexp.py): the closed form for the time that reaches
  a signal to noise ratio, the longest unsaturated time, and the best accumulation.
  Numbers are exact reals; square root and power of ten are given by their laws.
*/
module ExposureTime {
  const PI := 3.141592653589793
  const PSF_AP2 := 2.25                   // pipeline aperture, 1.5 squared
  const SKY_MAX_FRAC := 0.5
  const PEAK_MAX_FRAC := 0.8
  const MAX_ACC := 1000
  const SLACK := 0.000001                  // of the time grid
  const TIME_GRID := [1.0, 2.0, 3.0, 5.0, 10.0, 15.0, 20.0, 30.0, 45.0, 60.0, 90.0, 120.0,
                      180.0, 240.0, 300.0, 450.0, 600.0, 900.0]
  const SUB_GRID := [0.1, 0.2, 0.3, 0.5, 1.0, 2.0, 3.0, 5.0, 10.0, 15.0, 20.0, 30.0, 45.0, 60.0, 90.0, 120.0,
                     180.0, 240.0, 300.0, 450.0, 600.0, 900.0]
  const LONGEST := 900.0

  datatype Option<+T> = None | Some(value: T)

  datatype Functions = Functions(sqrt: real -> real, pow10: real -> real)

  predicate AddsUp(m: Functions, x: real, y: real) {
    m.pow10(x + y) == m.pow10(x) * m.pow10(y)
  }

  /** What is known of the square root and the power of ten. */
  ghost predicate Laws(m: Functions) {
    && (forall x :: x >= 0.0 ==> m.sqrt(x) >= 0.0 && m.sqrt(x) * m.sqrt(x) == x)
    && (forall x :: m.pow10(x) > 0.0)
    && (forall x, y :: x <= y ==> m.pow10(x) <= m.pow10(y))
    && (forall x, y :: AddsUp(m, x, y))
    && m.pow10(0.0) == 1.0 && m.pow10(1.0) == 10.0
  }

  datatype Camera = Camera(gain: real, floor: real, bgk: real, sat: real, accumulate: bool)

  /** `peak` is the fraction of the flux in the central pixel, which the source takes from erf. */
  datatype Conditions = Conditions(cam: Camera, zp1: real, s: real, fwhm: real, age: real, grow: real, peak: real)

  predicate Physical(c: Conditions) {
    && c.cam.gain > 0.0 && c.cam.floor >= 0.0 && c.cam.bgk > 0.0 && c.cam.sat >= 0.0
    && c.s >= 0.0 && c.grow >= 0.0 && c.peak >= 0.0
  }

  // ----- Signal to noise

  /** The flux of the star per second. */
  function Flux(m: Functions, c: Conditions, mag: real): real {
    m.pow10(-0.4 * (mag - c.zp1))
  }

  function Area(c: Conditions): (a: real)
    ensures a > 0.0
  {
    Squares(c.fwhm);
    PI * (c.fwhm * c.fwhm + PSF_AP2)
  }

  /** The photons of n sub-exposures of t seconds. */
  function Signal(f: real, t: real, n: real): real {
    n * t * f
  }

  /** The variance of n sub-exposures of t seconds: photons, and sky and read noise of the area. */
  function Noise(f: real, c: Conditions, t: real, n: real): real
    requires c.cam.gain > 0.0
  {
    Signal(f, t, n) / c.cam.gain + Area(c) * n * (c.cam.floor + c.s * t)
  }

  /** snr_of, and Conditions.snr with its n read noises; the first is the second with n = 1. */
  function Snr(m: Functions, c: Conditions, mag: real, t: real, n: int): real
    requires Physical(c) && Laws(m) && t > 0.0 && n >= 1
  {
    var f := Flux(m, c, mag);
    RootOfNoise(m, f, c, t, n as real);
    Signal(f, t, n as real) / m.sqrt(Noise(f, c, t, n as real))
  }

  /** What the noise grows by every second, and what it starts with. */
  function Rate(f: real, c: Conditions): (b: real)
    requires Physical(c)
    ensures f > 0.0 ==> b > 0.0
  {
    assert f > 0.0 ==> f / c.cam.gain > 0.0;
    assert Area(c) * c.s >= 0.0;
    f / c.cam.gain + Area(c) * c.s
  }

  function Start(c: Conditions): (a: real)
    requires Physical(c)
    ensures a >= 0.0
  {
    Area(c) * c.cam.floor
  }

  /** The greater root of g t^2 = p (b t + a). */
  function Root(m: Functions, g: real, b: real, a: real, p: real): real
    requires g > 0.0
  {
    (p * b + m.sqrt(p * b * (p * b) + 4.0 * g * p * a)) / (2.0 * g)
  }

  function Square(x: real): (y: real)
    ensures x > 0.0 ==> y > 0.0
  {
    if x > 0.0 then (Positive(x, x, x * x); x * x) else x * x
  }

  function ExptimeFor(m: Functions, c: Conditions, mag: real, snr: real): real
    requires Physical(c) && Laws(m)
  {
    var f := Flux(m, c, mag);
    Root(m, Square(f), Rate(f, c), Start(c), Square(snr))
  }

  lemma Squares(x: real)
    ensures x * x >= 0.0
  {
  }

  lemma Positive(x: real, y: real, product: real)
    requires x > 0.0 && y > 0.0 && product == x * y
    ensures product > 0.0
  {
  }

  lemma NoiseIsLinear(f: real, c: Conditions, t: real, n: real)
    requires Physical(c)
    ensures Noise(f, c, t, n) == n * (Rate(f, c) * t + Start(c))
  {
    var g := f / c.cam.gain;
    assert Signal(f, t, n) / c.cam.gain == n * t * g;
  }

  predicate IsRoot(q: real, b: real, a: real, t: real, n: real) {
    q * q == n * (b * t + a)
  }

  lemma RootOfNoise(m: Functions, f: real, c: Conditions, t: real, n: real)
    requires Physical(c) && Laws(m) && f > 0.0 && t > 0.0 && n > 0.0
    ensures var q := m.sqrt(Noise(f, c, t, n));
            q > 0.0 && IsRoot(q, Rate(f, c), Start(c), t, n)
  {
    NoiseIsLinear(f, c, t, n);
    var x := Rate(f, c) * t;
    Positive(Rate(f, c), t, x);
    var v := n * (x + Start(c));
    Positive(n, x + Start(c), v);
    assert m.sqrt(v) * m.sqrt(v) == v;
  }

  /** The ratio is the positive number whose square is signal squared over noise. */
  lemma SnrSquared(m: Functions, c: Conditions, mag: real, t: real, n: int)
    requires Physical(c) && Laws(m) && t > 0.0 && n >= 1
    ensures Squared(Snr(m, c, mag, t, n), Flux(m, c, mag), Rate(Flux(m, c, mag), c), Start(c), t, n as real)
  {
    var f := Flux(m, c, mag);
    RootOfNoise(m, f, c, t, n as real);
    RatioSquared(n as real, f, t, Rate(f, c), Start(c), m.sqrt(Noise(f, c, t, n as real)));
  }

  /** r is the positive root of n (f t)^2 / (b t + a). */
  predicate Squared(r: real, f: real, b: real, a: real, t: real, n: real) {
    r > 0.0 && r * r * (b * t + a) == n * ((f * t) * (f * t))
  }

  lemma RatioSquared(n: real, f: real, t: real, b: real, a: real, q: real)
    requires n > 0.0 && f > 0.0 && t > 0.0 && q > 0.0 && IsRoot(q, b, a, t, n)
    ensures Squared(Signal(f, t, n) / q, f, b, a, t, n)
  {
    var x := f * t;
    var y := n * x;
    Positive(f, t, x);
    Positive(n, x, y);
    assert Signal(f, t, n) == y;
    Quotient(y, q, n, b * t + a, x);
  }

  lemma Quotient(y: real, q: real, n: real, v: real, x: real)
    requires q > 0.0 && n > 0.0 && y > 0.0 && y == n * x && q * q == n * v
    ensures y / q > 0.0 && (y / q) * (y / q) * v == n * (x * x)
  {
    var r := y / q;
    assert r * q == y;
    assert n * (r * r * v) == (r * q) * (r * q) == n * (n * (x * x));
  }

  // ----- The closed form

  /** The positive root of the signal to noise equation, f^2 t^2 = q^2 (b t + a). */
  lemma QuadraticRoot(g: real, b: real, a: real, p: real, root: real)
    requires g > 0.0 && b > 0.0 && a >= 0.0 && p > 0.0 && root >= 0.0
    requires root * root == (p * b) * (p * b) + 4.0 * g * p * a
    ensures var t := (p * b + root) / (2.0 * g);
            t > 0.0 && p * (b * t + a) == g * t * t
  {
    var k := p * b;
    Positive(p, b, k);
    var t := (k + root) / (2.0 * g);
    var x := 2.0 * g * t;
    assert x == k + root;
    assert x * x - 2.0 * k * x == 4.0 * g * p * a;
    assert x * x == 2.0 * g * (2.0 * (g * t * t));
    assert 2.0 * k * x == 2.0 * g * (2.0 * (k * t));
    assert 4.0 * g * p * a == 2.0 * g * (2.0 * (p * a));
    assert 2.0 * g * (2.0 * (g * t * t)) == 2.0 * g * (2.0 * (k * t + p * a));
  }

  /** Signal squared over noise grows with the time. */
  lemma Rising(f: real, b: real, a: real, t: real, r: real, t': real, r': real)
    requires f > 0.0 && b > 0.0 && a >= 0.0 && 0.0 < t < t'
    requires Squared(r, f, b, a, t, 1.0) && Squared(r', f, b, a, t', 1.0)
    ensures r < r'
  {
    Positive(b, t, b * t);
    Positive(b, t', b * t');
    var g, v, v' := f * f, b * t + a, b * t' + a;
    Positive(f, f, g);
    CrossProducts(b, a, t, t');
    FluxSquared(f, t);
    FluxSquared(f, t');
    CrossSquares(g, t * t, v, r * r, t' * t', v', r' * r');
    LessSquares(r, r', v * v');
  }

  lemma CrossSquares(g: real, x: real, v: real, p: real, x': real, v': real, p': real)
    requires g > 0.0 && v > 0.0 && v' > 0.0 && x * v' < x' * v
    requires p * v == g * x && p' * v' == g * x'
    ensures v * v' > 0.0 && p * (v * v') < p' * (v * v')
  {
    Positive(v, v', v * v');
    Positive(g, x' * v - x * v', g * (x' * v - x * v'));
    assert p * (v * v') == (g * x) * v' == g * (x * v');
    assert p' * (v * v') == (g * x') * v == g * (x' * v);
  }

  lemma CrossProducts(b: real, a: real, t: real, t': real)
    requires b > 0.0 && a >= 0.0 && 0.0 < t < t'
    ensures t * t * (b * t' + a) < t' * t' * (b * t + a)
  {
    var p, d := t * t', t' - t;
    Positive(t, t', p);
    var q := b * p;
    Positive(b, p, q);
    Positive(q, d, q * d);
    Positive(t' + t, d, (t' + t) * d);
    assert t' * t' * (b * t + a) - t * t * (b * t' + a) == b * (t * t') * (t' - t) + a * ((t' + t) * (t' - t));
  }

  lemma LessSquares(r: real, r': real, w: real)
    requires r > 0.0 && r' > 0.0 && w > 0.0 && (r * r) * w < (r' * r') * w
    ensures r < r'
  {
    Positive(r' + r, w, (r' + r) * w);
    assert (r' - r) * ((r' + r) * w) > 0.0;
  }

  lemma LongerIsBetter(m: Functions, c: Conditions, mag: real, t: real, t': real)
    requires Physical(c) && Laws(m) && 0.0 < t < t'
    ensures Snr(m, c, mag, t, 1) < Snr(m, c, mag, t', 1)
  {
    var f := Flux(m, c, mag);
    SnrSquared(m, c, mag, t, 1);
    SnrSquared(m, c, mag, t', 1);
    Rising(f, Rate(f, c), Start(c), t, Snr(m, c, mag, t, 1), t', Snr(m, c, mag, t', 1));
  }

  lemma SameSquare(r: real, q: real, f: real, b: real, a: real, t: real)
    requires Squared(r, f, b, a, t, 1.0) && Squared(q, f, b, a, t, 1.0) && b > 0.0 && a >= 0.0 && t > 0.0
    ensures r == q
  {
    assert b * t > 0.0;
    var v := b * t + a;
    assert (r * r - q * q) * v == 0.0;
    assert (r - q) * (r + q) == 0.0;
  }

  /** exptime_for is the one positive time at which the wanted ratio is met exactly. */
  lemma ExptimeReaches(m: Functions, c: Conditions, mag: real, snr: real)
    requires Physical(c) && Laws(m) && snr > 0.0
    ensures var need := ExptimeFor(m, c, mag, snr);
            && need > 0.0
            && Snr(m, c, mag, need, 1) == snr
            && forall t :: t > 0.0 ==> (Snr(m, c, mag, t, 1) >= snr <==> t >= need)
  {
    var f := Flux(m, c, mag);
    var b, a := Rate(f, c), Start(c);
    var need := ExptimeFor(m, c, mag, snr);
    ExptimeIsRoot(m, c, mag, snr);
    SnrSquared(m, c, mag, need, 1);
    SameSquare(Snr(m, c, mag, need, 1), snr, f, b, a, need);
    forall t | t > 0.0 ensures Snr(m, c, mag, t, 1) >= snr <==> t >= need {
      if t < need {
        LongerIsBetter(m, c, mag, t, need);
      } else if t > need {
        LongerIsBetter(m, c, mag, need, t);
      }
    }
  }

  lemma ExptimeIsRoot(m: Functions, c: Conditions, mag: real, snr: real)
    requires Physical(c) && Laws(m) && snr > 0.0
    ensures var f := Flux(m, c, mag);
            var need := ExptimeFor(m, c, mag, snr);
            need > 0.0 && Squared(snr, f, Rate(f, c), Start(c), need, 1.0)
  {
    var f := Flux(m, c, mag);
    ClosedForm(m, Square(f), Rate(f, c), Start(c), Square(snr));
    RootIsSquared(f, snr, Square(f), Square(snr), Rate(f, c), Start(c), ExptimeFor(m, c, mag, snr));
  }

  lemma RootIsSquared(f: real, q: real, g: real, p: real, b: real, a: real, t: real)
    requires g == f * f && p == q * q && q > 0.0 && p * (b * t + a) == g * t * t
    ensures Squared(q, f, b, a, t, 1.0)
  {
    FluxSquared(f, t);
  }

  lemma ClosedForm(m: Functions, g: real, b: real, a: real, p: real)
    requires Laws(m) && g > 0.0 && b > 0.0 && a >= 0.0 && p > 0.0
    ensures var t := Root(m, g, b, a, p); t > 0.0 && p * (b * t + a) == g * t * t
  {
    var k := p * b;
    Squares(k);
    var q := g * p;
    Positive(g, p, q);
    ProductsGrow(0.0, 0.0, q, a);
    assert 4.0 * g * p * a == 4.0 * (q * a);
    var x := k * k + 4.0 * g * p * a;
    assert m.sqrt(x) * m.sqrt(x) == x && m.sqrt(x) >= 0.0;
    QuadraticRoot(g, b, a, p, m.sqrt(x));
  }

  lemma FluxSquared(f: real, t: real)
    ensures (f * t) * (f * t) == (f * f) * t * t
  {
  }

  lemma MoreIsBetter(m: Functions, c: Conditions, mag: real, t: real, n: int, n': int)
    requires Physical(c) && Laws(m) && t > 0.0 && 1 <= n < n'
    ensures Snr(m, c, mag, t, n) < Snr(m, c, mag, t, n')
  {
    var f := Flux(m, c, mag);
    SnrSquared(m, c, mag, t, n);
    SnrSquared(m, c, mag, t, n');
    MoreSquared(Snr(m, c, mag, t, n), Snr(m, c, mag, t, n'), f, Rate(f, c), Start(c), t, n as real, n' as real);
  }

  lemma MoreSquared(r: real, r': real, f: real, b: real, a: real, t: real, n: real, n': real)
    requires f > 0.0 && b > 0.0 && a >= 0.0 && t > 0.0 && n < n'
    requires Squared(r, f, b, a, t, n) && Squared(r', f, b, a, t, n')
    ensures r < r'
  {
    var x := f * t;
    var y := x * x;
    Positive(b, t, b * t);
    Positive(f, t, x);
    Positive(x, x, y);
    Positive(n' - n, y, (n' - n) * y);
    LessSquares(r, r', b * t + a);
  }

  // ----- Saturation

  datatype Limit = Sky | Star

  /** Sky per second and pixel, growing from the moment it was measured. */
  function SkyAt(m: Functions, dark: real, grow: real, moment: real): real {
    dark * m.pow10(grow * moment)
  }

  /** The sky at the end of an exposure of t seconds starting now. */
  function SkyRate(m: Functions, c: Conditions, t: real): real
    requires Physical(c)
  {
    SkyAt(m, c.s / c.cam.bgk, c.grow, c.age + t)
  }

  /** How far the limit is exceeded after t seconds of star and sky. */
  function ExcessOf(sat: real, star: real, limit: Limit, sky: real, t: real): real {
    match limit
    case Sky => sky * t - SKY_MAX_FRAC * sat
    case Star => (star + sky) * t - PEAK_MAX_FRAC * sat
  }

  /** The flux of the star in the central pixel. */
  function PeakFlux(m: Functions, c: Conditions, mag: Option<real>): real {
    (if mag.Some? then Flux(m, c, mag.value) else 0.0) * c.peak
  }

  function Excess(m: Functions, c: Conditions, mag: Option<real>, limit: Limit, t: real): real
    requires Physical(c)
  {
    ExcessOf(c.cam.sat, PeakFlux(m, c, mag), limit, SkyRate(m, c, t), t)
  }

  /** Without a magnitude there is no star to saturate. */
  function Limits(mag: Option<real>): seq<Limit> {
    if mag.Some? then [Sky, Star] else [Sky]
  }

  predicate Unsaturated(m: Functions, c: Conditions, mag: Option<real>, t: real)
    requires Physical(c)
  {
    forall k :: 0 <= k < |Limits(mag)| ==> Excess(m, c, mag, Limits(mag)[k], t) <= 0.0
  }

  lemma ProductsGrow(x: real, y: real, x': real, y': real)
    requires 0.0 <= x <= x' && 0.0 <= y <= y'
    ensures 0.0 <= x * y <= x' * y'
  {
    assert x * y <= x' * y <= x' * y';
  }

  lemma SkyGrows(m: Functions, c: Conditions, t: real, t': real)
    requires Physical(c) && Laws(m) && t <= t'
    ensures 0.0 <= SkyRate(m, c, t) <= SkyRate(m, c, t')
  {
    SkyAtGrows(m, c.s / c.cam.bgk, c.grow, c.age + t, c.age + t');
  }

  lemma SkyAtGrows(m: Functions, dark: real, grow: real, t: real, t': real)
    requires Laws(m) && dark >= 0.0 && grow >= 0.0 && t <= t'
    ensures 0.0 <= SkyAt(m, dark, grow, t) <= SkyAt(m, dark, grow, t')
  {
    var x, x' := grow * t, grow * t';
    GrowthGrows(grow, t, t', x, x');
    assert 0.0 < m.pow10(x) <= m.pow10(x');
    ProductsGrow(dark, m.pow10(x), dark, m.pow10(x'));
  }

  lemma GrowthGrows(grow: real, t: real, t': real, x: real, x': real)
    requires grow >= 0.0 && t <= t' && x == grow * t && x' == grow * t'
    ensures x <= x'
  {
  }

  lemma ExcessGrows(m: Functions, c: Conditions, mag: Option<real>, limit: Limit, t: real, t': real)
    requires Physical(c) && Laws(m) && 0.0 <= t <= t'
    ensures Excess(m, c, mag, limit, t) <= Excess(m, c, mag, limit, t')
  {
    SkyGrows(m, c, t, t');
    PeakIsPositive(m, c, mag);
    ExcessOfGrows(c.cam.sat, PeakFlux(m, c, mag), limit, SkyRate(m, c, t), t, SkyRate(m, c, t'), t');
  }

  lemma PeakIsPositive(m: Functions, c: Conditions, mag: Option<real>)
    requires Physical(c) && Laws(m)
    ensures PeakFlux(m, c, mag) >= 0.0
  {
    ProductsGrow(0.0, 0.0, if mag.Some? then Flux(m, c, mag.value) else 0.0, c.peak);
  }

  lemma ExcessOfGrows(sat: real, star: real, limit: Limit, sky: real, t: real, sky': real, t': real)
    requires star >= 0.0 && 0.0 <= sky <= sky' && 0.0 <= t <= t'
    ensures ExcessOf(sat, star, limit, sky, t) <= ExcessOf(sat, star, limit, sky', t')
  {
    match limit
    case Sky => ProductsGrow(sky, t, sky', t');
    case Star => ProductsGrow(star + sky, t, star + sky', t');
  }

  lemma ShorterIsUnsaturated(m: Functions, c: Conditions, mag: Option<real>, t: real, t': real)
    requires Physical(c) && Laws(m) && 0.0 <= t <= t' && Unsaturated(m, c, mag, t')
    ensures Unsaturated(m, c, mag, t)
  {
    forall k | 0 <= k < |Limits(mag)| ensures Excess(m, c, mag, Limits(mag)[k], t) <= 0.0 {
      ExcessGrows(m, c, mag, Limits(mag)[k], t, t');
    }
  }

  /** What is left of the longest time after n halvings. */
  function Part(n: nat): (w: real)
    ensures w > 0.0
  {
    if n == 0 then LONGEST else Part(n - 1) / 2.0
  }

  const HALVINGS := 60

  function Width(): real {
    Part(HALVINGS)
  }

  method Bisect(m: Functions, c: Conditions, mag: Option<real>, limit: Limit) returns (lo: real)
    requires Physical(c) && Excess(m, c, mag, limit, LONGEST) > 0.0
    ensures 0.0 <= lo < lo + Width() <= LONGEST
    ensures Excess(m, c, mag, limit, lo) <= 0.0 < Excess(m, c, mag, limit, lo + Width())
  {
    lo := 0.0;
    var hi := LONGEST;
    for i := 0 to HALVINGS
      invariant 0.0 <= lo < hi <= LONGEST && hi == lo + Part(i)
      invariant Excess(m, c, mag, limit, lo) <= 0.0 < Excess(m, c, mag, limit, hi)
    {
      var mid := (lo + hi) / 2.0;
      if Excess(m, c, mag, limit, mid) <= 0.0 {
        lo := mid;
      } else {
        hi := mid;
      }
    }
  }

  /** What max_time promises: no limit is exceeded up to its answer, one is within `Width` after it. */
  ghost predicate IsMaxTime(m: Functions, c: Conditions, mag: Option<real>, best: Option<real>, which: Option<Limit>)
    requires Physical(c)
  {
    match best
    case None => which == None && Unsaturated(m, c, mag, LONGEST)
    case Some(lo) =>
      && 0.0 <= lo < LONGEST && Unsaturated(m, c, mag, lo)
      && which.Some? && which.value in Limits(mag)
      && Excess(m, c, mag, which.value, lo + Width()) > 0.0
  }

  method MaxTime(m: Functions, c: Conditions, mag: Option<real>) returns (best: Option<real>, which: Option<Limit>)
    requires Physical(c) && Laws(m)
    ensures IsMaxTime(m, c, mag, best, which)
  {
    var limits := Limits(mag);
    best, which := None, None;
    for i := 0 to |limits|
      invariant best.None? ==> which == None
      invariant best.None? ==> forall k :: 0 <= k < i ==> Excess(m, c, mag, limits[k], LONGEST) <= 0.0
      invariant best.Some? ==>
                  && 0.0 <= best.value < LONGEST && which.Some? && which.value in limits
                  && Excess(m, c, mag, which.value, best.value + Width()) > 0.0
                  && forall k :: 0 <= k < i ==> Excess(m, c, mag, limits[k], best.value) <= 0.0
    {
      var limit := limits[i];
      if Excess(m, c, mag, limit, LONGEST) <= 0.0 {
        if best.Some? {
          ExcessGrows(m, c, mag, limit, best.value, LONGEST);
        }
        continue;
      }
      var lo := Bisect(m, c, mag, limit);
      if best.None? || lo < best.value {
        ghost var far := if best.None? then LONGEST else best.value;
        forall k | 0 <= k < i ensures Excess(m, c, mag, limits[k], lo) <= 0.0 {
          ExcessGrows(m, c, mag, limits[k], lo, far);
        }
        best, which := Some(lo), Some(limit);
      } else {
        ExcessGrows(m, c, mag, limit, best.value, lo);
      }
    }
  }

  /** Every time up to the answer is safe, every one beyond it by `Width` saturates. */
  lemma MaxTimeSeparates(m: Functions, c: Conditions, mag: Option<real>, best: real, which: Option<Limit>, t: real)
    requires Physical(c) && Laws(m) && IsMaxTime(m, c, mag, Some(best), which) && t >= 0.0
    ensures t <= best ==> Unsaturated(m, c, mag, t)
    ensures t >= best + Width() ==> !Unsaturated(m, c, mag, t)
  {
    if t <= best {
      ShorterIsUnsaturated(m, c, mag, t, best);
    } else if t >= best + Width() {
      ExcessGrows(m, c, mag, which.value, best + Width(), t);
      var k :| 0 <= k < |Limits(mag)| && Limits(mag)[k] == which.value;
    }
  }

  // ----- The time grid

  predicate Ascending(grid: seq<real>) {
    forall i, j :: 0 <= i < j < |grid| ==> grid[i] < grid[j]
  }

  function Min(x: real, y: real): real {
    if y < x then y else x
  }

  function Max(x: real, y: real): real {
    if y > x then y else x
  }

  /** The least grid time at or above t within the limits, up to the slack. */
  method RoundUp(t: real, tmin: real, tmax: real) returns (r: real)
    ensures var u := Min(Max(t, tmin), tmax);
            && u - SLACK <= r <= tmax
            && (r in TIME_GRID || r == tmax)
            && forall g :: g in TIME_GRID && u - SLACK <= g <= tmax ==> r <= g
  {
    var u := Min(Max(t, tmin), tmax);
    GridsAscend();
    for i := 0 to |TIME_GRID|
      invariant forall k :: 0 <= k < i ==> !(u - SLACK <= TIME_GRID[k] <= tmax)
    {
      if u - SLACK <= TIME_GRID[i] <= tmax {
        return TIME_GRID[i];
      }
    }
    r := tmax;
  }

  /** The largest grid time at or below t, up to the slack; the smallest of all when none is. */
  method RoundDown(t: real, grid: seq<real>) returns (r: real)
    requires grid != [] && Ascending(grid)
    ensures r in grid && (r <= t + SLACK || (r == grid[0] && forall g :: g in grid ==> g > t + SLACK))
    ensures forall g :: g in grid && g <= t + SLACK ==> g <= r
  {
    r := grid[0];
    for i := 0 to |grid|
      invariant r in grid
      invariant forall k :: 0 <= k < i && grid[k] <= t + SLACK ==> grid[k] <= r
      invariant r <= t + SLACK || (r == grid[0] && forall k :: 0 <= k < i ==> grid[k] > t + SLACK)
    {
      if grid[i] <= t + SLACK {
        r := grid[i];
      }
    }
  }

  lemma {:induction false} StepsAscend(grid: seq<real>)
    requires forall i :: 0 <= i < |grid| - 1 ==> grid[i] < grid[i + 1]
    ensures Ascending(grid)
  {
    if grid != [] {
      var n := |grid| - 1;
      StepsAscend(grid[..n]);
      forall i, j | 0 <= i < j < |grid| ensures grid[i] < grid[j] {
        if j == n {
          assert grid[..n][i] <= grid[..n][n - 1];
        } else {
          assert grid[..n][i] < grid[..n][j];
        }
      }
    }
  }

  lemma GridsAscend()
    ensures Ascending(TIME_GRID) && Ascending(SUB_GRID)
    ensures TIME_GRID[0] == 1.0 && SUB_GRID[0] == 0.1
    ensures forall g :: g in SUB_GRID ==> g > 0.0
  {
    forall i | 0 <= i < |TIME_GRID| - 1 ensures TIME_GRID[i] < TIME_GRID[i + 1] {
    }
    StepsAscend(TIME_GRID);
    forall i | 0 <= i < |SUB_GRID| - 1 ensures SUB_GRID[i] < SUB_GRID[i + 1] {
    }
    StepsAscend(SUB_GRID);
  }

  // ----- Accumulation

  /** What is asked: the ratio for a magnitude, or without one a total of t seconds. */
  datatype Request = Request(mag: Option<real>, snr: real, t: real, tsat: real, tmax: real)

  /** The most sub-exposures that fit, at least one. */
  function MaxCount(sub: real, tmax: real): (n: int)
    requires sub > 0.0
    ensures 1 <= n <= MAX_ACC
  {
    var fit := (tmax / sub + 0.000000001).Floor;
    var n := if fit < MAX_ACC then fit else MAX_ACC;
    if n > 1 then n else 1
  }

  function Ceil(x: real): int {
    -(-x).Floor
  }

  predicate Reaches(m: Functions, c: Conditions, q: Request, sub: real, n: int)
    requires Physical(c) && Laws(m) && q.mag.Some? && sub > 0.0 && n >= 1
  {
    Snr(m, c, q.mag.value, sub, n) >= q.snr
  }

  /** n times t seconds. */
  function Total(t: real, n: int): real {
    n as real * t
  }

  lemma TotalGrows(k: int, n: int, t: real)
    requires k <= n && t >= 0.0
    ensures Total(t, k) <= Total(t, n)
  {
  }

  /** What an accumulation is judged by: the smaller, compared from the left, the better. */
  datatype Key = Key(missed: int, value: real, count: int)

  predicate Less(a: Key, b: Key) {
    if a.missed != b.missed then a.missed < b.missed
    else if a.value != b.value then a.value < b.value
    else a.count < b.count
  }

  function KeyOf(m: Functions, c: Conditions, q: Request, sub: real, n: int): Key
    requires Physical(c) && Laws(m) && sub > 0.0 && n >= 1
  {
    if q.mag.None? then
      var off := Total(sub, n) - q.t;
      Key(0, if off < 0.0 then -off else off, n)
    else if Reaches(m, c, q, sub, n) then Key(0, Total(sub, n), n)
    else Key(1, -Snr(m, c, q.mag.value, sub, n), n)
  }

  /** The count tried with one sub-exposure: just enough, if that fits. */
  ghost predicate IsCount(m: Functions, c: Conditions, q: Request, sub: real, n: int)
    requires Physical(c) && Laws(m) && sub > 0.0
  {
    && 1 <= n <= MaxCount(sub, q.tmax)
    && if q.mag.None? then
         var wanted := Ceil(q.t / sub - 0.000000001);
         n == if wanted < 1 then 1 else if wanted < MaxCount(sub, q.tmax) then wanted else MaxCount(sub, q.tmax)
       else
         && (forall k :: 1 <= k < n ==> !Reaches(m, c, q, sub, k))
         && (n < MaxCount(sub, q.tmax) ==> Reaches(m, c, q, sub, n))
  }

  method CountFor(m: Functions, c: Conditions, q: Request, sub: real) returns (n: int)
    requires Physical(c) && Laws(m) && sub > 0.0
    ensures IsCount(m, c, q, sub, n)
  {
    var nmax := MaxCount(sub, q.tmax);
    if q.mag.None? {
      n := Ceil(q.t / sub - 0.000000001);
      n := if n < 1 then 1 else n;
      n := if n < nmax then n else nmax;
      return;
    }
    n := 1;
    while n < nmax && Snr(m, c, q.mag.value, sub, n) < q.snr
      invariant 1 <= n <= nmax
      invariant forall k :: 1 <= k < n ==> !Reaches(m, c, q, sub, k)
    {
      n := n + 1;
    }
  }

  /** No sub-exposure below saturation does better with its own count. */
  ghost predicate IsBest(m: Functions, c: Conditions, q: Request, subs: seq<real>, sub: real, n: int)
    requires Physical(c) && Laws(m)
  {
    && sub in subs && 0.0 < sub <= q.tsat && IsCount(m, c, q, sub, n)
    && forall g, k :: g in subs && 0.0 < g <= q.tsat && IsCount(m, c, q, g, k) ==>
                        !Less(KeyOf(m, c, q, g, k), KeyOf(m, c, q, sub, n))
  }

  lemma CountIsUnique(m: Functions, c: Conditions, q: Request, sub: real, n: int, k: int)
    requires Physical(c) && Laws(m) && sub > 0.0 && IsCount(m, c, q, sub, n) && IsCount(m, c, q, sub, k)
    ensures n == k
  {
  }

  /** One more sub-exposure tried. */
  lemma BetterOfTwo(m: Functions, c: Conditions, q: Request, subs: seq<real>, sub: real, n: int, g: real, k: int)
    requires Physical(c) && Laws(m) && IsBest(m, c, q, subs, sub, n)
    requires 0.0 < g <= q.tsat && IsCount(m, c, q, g, k)
    ensures if Less(KeyOf(m, c, q, g, k), KeyOf(m, c, q, sub, n))
            then IsBest(m, c, q, subs + [g], g, k) else IsBest(m, c, q, subs + [g], sub, n)
  {
    forall k' | IsCount(m, c, q, g, k') ensures k' == k {
      CountIsUnique(m, c, q, g, k, k');
    }
  }

  lemma FirstIsBest(m: Functions, c: Conditions, q: Request, g: real, k: int)
    requires Physical(c) && Laws(m) && 0.0 < g <= q.tsat && IsCount(m, c, q, g, k)
    ensures IsBest(m, c, q, [g], g, k)
  {
    forall k' | IsCount(m, c, q, g, k') ensures k' == k {
      CountIsUnique(m, c, q, g, k, k');
    }
  }

  lemma TooLongChangesNothing(m: Functions, c: Conditions, q: Request, subs: seq<real>, sub: real, n: int, g: real)
    requires Physical(c) && Laws(m) && IsBest(m, c, q, subs, sub, n) && g > q.tsat
    ensures IsBest(m, c, q, subs + [g], sub, n)
  {
  }

  method Accumulation(m: Functions, c: Conditions, q: Request) returns (sub: real, n: int)
    requires Physical(c) && Laws(m)
    ensures if q.tsat < SUB_GRID[0] then sub == SUB_GRID[0] && n == 1 else IsBest(m, c, q, SUB_GRID, sub, n)
  {
    GridsAscend();
    var best := false;
    sub, n := SUB_GRID[0], 1;
    for i := 0 to |SUB_GRID|
      invariant !best ==> sub == SUB_GRID[0] && n == 1
      invariant best <==> i > 0 && SUB_GRID[0] <= q.tsat
      invariant best ==> IsBest(m, c, q, SUB_GRID[..i], sub, n)
    {
      var g := SUB_GRID[i];
      assert SUB_GRID[..i + 1] == SUB_GRID[..i] + [g];
      if g <= q.tsat {
        var k := CountFor(m, c, q, g);
        if !best {
          FirstIsBest(m, c, q, g, k);
          best, sub, n := true, g, k;
        } else {
          BetterOfTwo(m, c, q, SUB_GRID[..i], sub, n, g, k);
          if Less(KeyOf(m, c, q, g, k), KeyOf(m, c, q, sub, n)) {
            sub, n := g, k;
          }
        }
      } else if best {
        TooLongChangesNothing(m, c, q, SUB_GRID[..i], sub, n, g);
      }
    }
    assert SUB_GRID[..|SUB_GRID|] == SUB_GRID;
  }

  /** A sub-exposure that does not saturate, with a count that fits. */
  predicate Candidate(q: Request, g: real, k: int) {
    g in SUB_GRID && 0.0 < g <= q.tsat && 1 <= k <= MaxCount(g, q.tmax)
  }

  lemma CountExists(m: Functions, c: Conditions, q: Request, g: real) returns (n: int)
    requires Physical(c) && Laws(m) && q.mag.Some? && g > 0.0
    ensures IsCount(m, c, q, g, n)
  {
    n := 1;
    while n < MaxCount(g, q.tmax) && !Reaches(m, c, q, g, n)
      invariant 1 <= n <= MaxCount(g, q.tmax)
      invariant forall k :: 1 <= k < n ==> !Reaches(m, c, q, g, k)
    {
      n := n + 1;
    }
  }

  /** A shorter total time, or the same with no more readouts. */
  predicate Sooner(total: real, n: int, other: real, k: int) {
    total < other || (total == other && n <= k)
  }

  lemma SoonerThanMore(total: real, n: int, middle: real, least: int, other: real, k: int)
    requires Sooner(total, n, middle, least) && middle <= other && least <= k
    ensures Sooner(total, n, other, k)
  {
  }

  /** As good as another: reaching the ratio if that does, sooner and with fewer readouts, or coming closer. */
  predicate AsGoodAs(m: Functions, c: Conditions, q: Request, sub: real, n: int, g: real, k: int)
    requires Physical(c) && Laws(m) && q.mag.Some? && sub > 0.0 && n >= 1 && g > 0.0 && k >= 1
  {
    && (Reaches(m, c, q, g, k) ==>
          && Reaches(m, c, q, sub, n)
          && Sooner(Total(sub, n), n, Total(g, k), k))
    && (!Reaches(m, c, q, sub, n) ==>
          !Reaches(m, c, q, g, k) && Snr(m, c, q.mag.value, g, k) <= Snr(m, c, q.mag.value, sub, n))
  }

  /**
    The accumulation found is optimal. If any fitting candidate reaches the ratio, so does
    the result, with the least total time, then the fewest readouts, and with no count to
    spare; if none does, no candidate gives a higher ratio.
  */
  lemma AccumulationIsOptimal(m: Functions, c: Conditions, q: Request, sub: real, n: int, g: real, k: int)
    requires Physical(c) && Laws(m) && q.mag.Some? && IsBest(m, c, q, SUB_GRID, sub, n) && Candidate(q, g, k)
    ensures Candidate(q, sub, n) && AsGoodAs(m, c, q, sub, n, g, k)
    ensures forall j :: 1 <= j < n ==> !Reaches(m, c, q, sub, j)
  {
    var least := CountExists(m, c, q, g);
    BestBeats(m, c, q, sub, n, g, least);
    AnyCount(m, c, q, sub, n, g, least, k);
  }

  /** The result against any sub-exposure with its own count. */
  lemma BestBeats(m: Functions, c: Conditions, q: Request, sub: real, n: int, g: real, k: int)
    requires Physical(c) && Laws(m) && q.mag.Some? && IsBest(m, c, q, SUB_GRID, sub, n)
    requires g in SUB_GRID && 0.0 < g <= q.tsat && IsCount(m, c, q, g, k)
    ensures AsGoodAs(m, c, q, sub, n, g, k)
  {
    assert !Less(KeyOf(m, c, q, g, k), KeyOf(m, c, q, sub, n));
  }

  /** What is as good as the count tried is as good as any that fits. */
  lemma AnyCount(m: Functions, c: Conditions, q: Request, sub: real, n: int, g: real, least: int, k: int)
    requires Physical(c) && Laws(m) && q.mag.Some? && sub > 0.0 && n >= 1 && g > 0.0
    requires IsCount(m, c, q, g, least) && 1 <= k <= MaxCount(g, q.tmax)
    requires AsGoodAs(m, c, q, sub, n, g, least)
    ensures AsGoodAs(m, c, q, sub, n, g, k)
  {
    if Reaches(m, c, q, g, k) {
      EnoughReaches(m, c, q, g, least, k);
      TotalGrows(least, k, g);
      SoonerThanMore(Total(sub, n), n, Total(g, least), least, Total(g, k), k);
    } else if !Reaches(m, c, q, g, least) && k < least {
      MoreIsBetter(m, c, q.mag.value, g, k, least);
    }
  }

  /** The count tried reaches the ratio if any count that fits does. */
  lemma EnoughReaches(m: Functions, c: Conditions, q: Request, g: real, least: int, k: int)
    requires Physical(c) && Laws(m) && q.mag.Some? && g > 0.0 && IsCount(m, c, q, g, least)
    requires 1 <= k <= MaxCount(g, q.tmax) && Reaches(m, c, q, g, k)
    ensures least <= k && Reaches(m, c, q, g, least)
  {
  }

  // ----- The plan of one camera and filter

  /** t seconds n times; `need` is what the ratio asks for, `cap` what saturates, at `tsat`. */
  datatype Entry = Entry(t: real, n: int, need: Option<real>, cap: Option<Limit>, tsat: Option<real>)

  /** A missing or zero fallback means the longest time allowed. */
  function Fallback(fallback: Option<real>, tmax: real): real {
    Min(if fallback.Some? && fallback.value != 0.0 then fallback.value else tmax, tmax)
  }

  datatype Plan = Plan(mag: Option<real>, snr: real, tmin: real, tmax: real, fallback: Option<real>)

  /** The time wanted before saturation was looked at. */
  ghost predicate IsWanted(m: Functions, c: Conditions, p: Plan, need: Option<real>, wanted: real)
    requires Physical(c) && Laws(m)
  {
    if p.mag.None? then need == None && wanted == Fallback(p.fallback, p.tmax)
    else
      && need == Some(ExptimeFor(m, c, p.mag.value, p.snr))
      && Min(Max(need.value, p.tmin), p.tmax) - SLACK <= wanted <= p.tmax
      && (wanted in TIME_GRID || wanted == p.tmax)
  }

  /** A time cut for saturation: down the grid, or into an accumulation. */
  ghost predicate IsCut(m: Functions, c: Conditions, p: Plan, wanted: real, tsat: real, t: real, n: int)
    requires Physical(c) && Laws(m)
  {
    if c.cam.accumulate then
      if tsat < SUB_GRID[0] then t == SUB_GRID[0] && n == 1
      else IsBest(m, c, Request(p.mag, p.snr, wanted, tsat, p.tmax), SUB_GRID, t, n)
    else
      && n == 1 && t in TIME_GRID
      && (t <= tsat + SLACK || (t == TIME_GRID[0] && t > tsat + SLACK))
      && forall g :: g in TIME_GRID && g <= tsat + SLACK ==> g <= t
  }

  ghost predicate IsEntry(m: Functions, c: Conditions, p: Plan, e: Entry, wanted: real, which: Option<Limit>)
    requires Physical(c) && Laws(m)
  {
    && IsWanted(m, c, p, e.need, wanted)
    && IsMaxTime(m, c, p.mag, e.tsat, which)
    && if e.tsat.None? || wanted <= e.tsat.value then e.cap == None && e.t == wanted && e.n == 1
       else e.cap == which && IsCut(m, c, p, wanted, e.tsat.value, e.t, e.n)
  }

  method PlanEntry(m: Functions, c: Conditions, p: Plan) returns (e: Entry)
    requires Physical(c) && Laws(m)
    ensures exists wanted, which :: IsEntry(m, c, p, e, wanted, which)
  {
    var need: Option<real>, t, n := None, 0.0, 1;
    if p.mag.None? {
      t := Fallback(p.fallback, p.tmax);
    } else {
      need := Some(ExptimeFor(m, c, p.mag.value, p.snr));
      t := RoundUp(need.value, p.tmin, p.tmax);
    }
    ghost var wanted := t;
    var tsat, limit := MaxTime(m, c, p.mag);
    var cap: Option<Limit> := None;
    if tsat.Some? && t > tsat.value {
      cap := limit;
      if c.cam.accumulate {
        t, n := Accumulation(m, c, Request(p.mag, p.snr, t, tsat.value, p.tmax));
      } else {
        GridsAscend();
        t := RoundDown(tsat.value, TIME_GRID);
      }
    }
    e := Entry(t, n, need, cap, tsat);
    assert IsEntry(m, c, p, e, wanted, limit);
  }

  /**
    An entry that was not cut reaches the wanted ratio, up to the slack of the grid,
    unless the longest time allowed is shorter than what is needed; then it does not.
  */
  lemma UncutEntryReaches(m: Functions, c: Conditions, p: Plan, e: Entry, wanted: real, which: Option<Limit>)
    requires Physical(c) && Laws(m) && p.mag.Some? && p.snr > 0.0 && p.tmax > 0.0
    requires IsEntry(m, c, p, e, wanted, which) && e.cap == None && e.t == wanted
    ensures e.t + SLACK > 0.0
    ensures e.need.value <= p.tmax ==> Snr(m, c, p.mag.value, e.t + SLACK, 1) >= p.snr
    ensures e.need.value > p.tmax + SLACK ==> Snr(m, c, p.mag.value, e.t + SLACK, 1) < p.snr
  {
    ExptimeReaches(m, c, p.mag.value, p.snr);
  }

  /** The conditions so many seconds later: the sky goes on growing. */
  function Later(c: Conditions, wait: real): Conditions {
    c.(age := c.age + wait)
  }

  /** The k-th of sub-exposures t apart does not saturate within u seconds. */
  predicate NthUnsaturated(m: Functions, c: Conditions, mag: Option<real>, t: real, u: real, k: int)
    requires Physical(c)
  {
    Unsaturated(m, Later(c, Total(t, k)), mag, u)
  }

  /** None of n sub-exposures of t seconds saturates, each beginning as the one before ends. */
  predicate AllUnsaturated(m: Functions, c: Conditions, mag: Option<real>, t: real, n: int)
    requires Physical(c)
  {
    forall k :: 0 <= k < n ==> NthUnsaturated(m, c, mag, t, t, k)
  }

  lemma LaterSky(m: Functions, c: Conditions, wait: real, t: real)
    requires Physical(c)
    ensures SkyRate(m, Later(c, wait), t) == SkyRate(m, c, wait + t)
  {
    assert (c.age + wait) + t == c.age + (wait + t);
  }

  lemma ExcessLater(m: Functions, c: Conditions, mag: Option<real>, limit: Limit, t: real, wait: real)
    requires Physical(c)
    ensures Excess(m, Later(c, wait), mag, limit, t)
            == ExcessOf(c.cam.sat, PeakFlux(m, c, mag), limit, SkyRate(m, c, wait + t), t)
  {
    LaterSky(m, c, wait, t);
  }

  lemma LaterExcess(m: Functions, c: Conditions, mag: Option<real>, limit: Limit, t: real, wait: real, wait': real)
    requires Physical(c) && Laws(m) && t >= 0.0 && wait <= wait'
    ensures Excess(m, Later(c, wait), mag, limit, t) <= Excess(m, Later(c, wait'), mag, limit, t)
  {
    SkyGrows(m, c, wait + t, wait' + t);
    PeakIsPositive(m, c, mag);
    ExcessLater(m, c, mag, limit, t, wait);
    ExcessLater(m, c, mag, limit, t, wait');
    ExcessOfGrows(c.cam.sat, PeakFlux(m, c, mag), limit, SkyRate(m, c, wait + t), t, SkyRate(m, c, wait' + t), t);
  }

  lemma EarlierIsUnsaturated(m: Functions, c: Conditions, mag: Option<real>, t: real, u: real, k: int, n: int)
    requires Physical(c) && Laws(m) && t >= 0.0 && u >= 0.0 && k <= n && NthUnsaturated(m, c, mag, t, u, n)
    ensures NthUnsaturated(m, c, mag, t, u, k)
  {
    var wait, wait' := Total(t, k), Total(t, n);
    TotalGrows(k, n, t);
    assert wait <= wait';
    forall i | 0 <= i < |Limits(mag)| ensures Excess(m, Later(c, wait), mag, Limits(mag)[i], u) <= 0.0 {
      LaterExcess(m, c, mag, Limits(mag)[i], u, wait, wait');
      assert Excess(m, Later(c, wait'), mag, Limits(mag)[i], u) <= 0.0;
    }
  }

  /** With a steady sky it does not matter when an exposure begins. */
  lemma SteadySky(m: Functions, c: Conditions, mag: Option<real>, t: real, u: real, k: int)
    requires Physical(c) && c.grow == 0.0
    ensures NthUnsaturated(m, c, mag, t, u, k) <==> Unsaturated(m, c, mag, u)
  {
    var wait := Total(t, k);
    assert c.grow * (c.age + wait + u) == 0.0 == c.grow * (c.age + u);
    assert SkyRate(m, Later(c, wait), u) == SkyRate(m, c, u);
    assert forall limit :: Excess(m, Later(c, wait), mag, limit, u) == Excess(m, c, mag, limit, u);
  }

  /** The last sub-exposure decides for all of them; with a steady sky so does the first. */
  lemma LastSubExposureDecides(m: Functions, c: Conditions, mag: Option<real>, t: real, n: int)
    requires Physical(c) && Laws(m) && t >= 0.0 && n >= 1
    ensures AllUnsaturated(m, c, mag, t, n) <==> NthUnsaturated(m, c, mag, t, t, n - 1)
    ensures c.grow == 0.0 ==> (AllUnsaturated(m, c, mag, t, n) <==> Unsaturated(m, c, mag, t))
  {
    if NthUnsaturated(m, c, mag, t, t, n - 1) {
      forall k | 0 <= k < n ensures NthUnsaturated(m, c, mag, t, t, k) {
        EarlierIsUnsaturated(m, c, mag, t, t, k, n - 1);
      }
    }
    if c.grow == 0.0 {
      SteadySky(m, c, mag, t, t, n - 1);
    }
  }

  /** The smallest step is too long, or a time beyond those that were looked at was allowed. */
  predicate Excused(c: Conditions, p: Plan, e: Entry) {
    || (e.tsat.Some? && e.tsat.value < e.t - SLACK
        && e.t == (if c.cam.accumulate then SUB_GRID[0] else TIME_GRID[0]))
    || (e.tsat.None? && e.t > LONGEST && p.tmax > LONGEST)
  }

  /**
    The k-th sub-exposure of an entry is unsaturated, up to the slack of the grid, unless
    it is excused or the sky brightens until the last one saturates.
  */
  predicate SafeOrExcused(m: Functions, c: Conditions, p: Plan, e: Entry, k: int)
    requires Physical(c)
  {
    e.t >= SLACK && !NthUnsaturated(m, c, p.mag, e.t, e.t - SLACK, k) ==>
      || Excused(c, p, e)
      || (k > 0 && c.grow > 0.0 && !NthUnsaturated(m, c, p.mag, e.t, e.t - SLACK, e.n - 1))
  }

  /**
    Whatever was planned is unsaturated in each of its sub-exposures, but for three cases:
    even the smallest step of the grid is too long; no limit is met within the longest time
    of the grid and a longer one was allowed; or the sky brightens until the last
    sub-exposure saturates, of which only the first was looked at.
  */
  lemma PlannedIsUnsaturated(m: Functions, c: Conditions, p: Plan, e: Entry, wanted: real, which: Option<Limit>, k: int)
    requires Physical(c) && Laws(m) && IsEntry(m, c, p, e, wanted, which) && 0 <= k < e.n
    ensures SafeOrExcused(m, c, p, e, k)
  {
    if e.t >= SLACK {
      FirstIsUnsaturated(m, c, p, e, wanted, which);
      NthFollowsFirst(m, c, p, e, k);
    }
  }

  lemma NthFollowsFirst(m: Functions, c: Conditions, p: Plan, e: Entry, k: int)
    requires Physical(c) && Laws(m) && e.t >= SLACK && 0 <= k < e.n
    requires Unsaturated(m, c, p.mag, e.t - SLACK) || Excused(c, p, e)
    ensures SafeOrExcused(m, c, p, e, k)
  {
    var t, u, n := e.t, e.t - SLACK, e.n;
    if k == 0 {
      assert Later(c, Total(t, k)) == c;
    } else if c.grow == 0.0 {
      SteadySky(m, c, p.mag, t, u, k);
    } else if NthUnsaturated(m, c, p.mag, t, u, n - 1) {
      EarlierIsUnsaturated(m, c, p.mag, t, u, k, n - 1);
    }
  }

  lemma FirstIsUnsaturated(m: Functions, c: Conditions, p: Plan, e: Entry, wanted: real, which: Option<Limit>)
    requires Physical(c) && Laws(m) && IsEntry(m, c, p, e, wanted, which) && e.t - SLACK >= 0.0
    ensures !Unsaturated(m, c, p.mag, e.t - SLACK) ==> Excused(c, p, e)
    ensures e.tsat.Some? && e.tsat.value + Width() <= e.t - SLACK ==> !Unsaturated(m, c, p.mag, e.t - SLACK)
  {
    var t := e.t - SLACK;
    match e.tsat
    case Some(tsat) => MaxTimeSeparates(m, c, p.mag, tsat, which, t);
    case None =>
      if t <= LONGEST {
        ShorterIsUnsaturated(m, c, p.mag, t, LONGEST);
      }
  }

  /** The second case does happen: beyond 900 s nothing is checked. */
  lemma BeyondTheGridMaySaturate(m: Functions)
    requires Laws(m)
    ensures var c := Conditions(Camera(1.0, 0.0, 1.0, 50000.0, false), 20.0, 20.0, 2.0, 0.0, 0.0, 0.5);
            var p := Plan(None, 10.0, 1.0, 1800.0, None);
            && Physical(c)
            && IsEntry(m, c, p, Entry(1800.0, 1, None, None, None), 1800.0, None)
            && !Unsaturated(m, c, p.mag, 1800.0 - SLACK)
  {
    var c := Conditions(Camera(1.0, 0.0, 1.0, 50000.0, false), 20.0, 20.0, 2.0, 0.0, 0.0, 0.5);
    forall t ensures SkyRate(m, c, t) == 20.0 {
      assert c.grow * (c.age + t) == 0.0;
    }
    var none: Option<real> := None;
    assert Limits(none)[0] == Sky;
    assert Excess(m, c, none, Sky, 1800.0 - SLACK) > 0.0;
  }

  // ----- A rising twilight

  /** An accumulating camera under a sky that grows tenfold in 1000 s. */
  const RISING := Conditions(Camera(1.0, 0.0, 1.0, 50000.0, true), 20.0, 1000.0, 2.0, 0.0, 0.001, 0.5)

  const HALF_AN_HOUR := Plan(None, 10.0, 1.0, 2000.0, None)

  lemma {:induction false} PartsShrink(n: nat)
    requires n >= 10
    ensures Part(n) <= 1.0
  {
    if n > 10 {
      PartsShrink(n - 1);
    } else {
      assert Part(3) == 112.5;
      assert Part(6) == 14.0625;
      assert Part(9) < 2.0;
    }
  }

  /** The sky of it at both ends: five seconds are safe at first, and none are after 1000 s. */
  lemma RisingSky(m: Functions)
    requires Laws(m)
    ensures SkyRate(m, RISING, 6.0) * 6.0 <= 25000.0
    ensures SkyRate(m, RISING, LONGEST) * LONGEST > 25000.0
    ensures SkyRate(m, RISING, 2000.0) >= 10000.0
  {
    var half := m.pow10(0.5);
    assert AddsUp(m, 0.5, 0.5);
    assert half * half == 10.0;
    assert half <= 4.0 by {
      if half > 4.0 {
        ProductsGrow(4.0, 4.0, half, half);
        assert false;
      }
    }
    assert RISING.grow * (RISING.age + 6.0) == 0.006 && m.pow10(0.006) <= half;
    assert RISING.grow * (RISING.age + LONGEST) == 0.9 && m.pow10(0.9) >= m.pow10(0.0);
    assert RISING.grow * (RISING.age + 2000.0) == 2.0 && m.pow10(2.0) >= m.pow10(1.0);
  }

  lemma RisingLimit(m: Functions, e: Entry, wanted: real, which: Option<Limit>)
    requires Laws(m) && IsEntry(m, RISING, HALF_AN_HOUR, e, wanted, which)
    ensures wanted == 2000.0 && e.tsat.Some? && 5.0 <= e.tsat.value < LONGEST
    ensures IsBest(m, RISING, Request(None, 10.0, 2000.0, e.tsat.value, 2000.0), SUB_GRID, e.t, e.n)
    ensures IsMaxTime(m, RISING, None, e.tsat, which)
  {
    RisingSky(m);
    PartsShrink(HALVINGS);
    var none: Option<real> := None;
    assert Limits(none) == [Sky];
    assert Excess(m, RISING, none, Limits(none)[0], LONGEST) > 0.0;
    if e.tsat.Some? && e.tsat.value < 5.0 {
      ExcessGrows(m, RISING, none, Sky, e.tsat.value + Width(), 6.0);
      assert false;
    }
  }

  /** 400 times 5 s make up the time, so what is chosen makes it up as well, in no more. */
  lemma RisingChoice(m: Functions, tsat: real, t: real, n: int)
    requires Laws(m) && tsat >= 5.0
    requires IsBest(m, RISING, Request(None, 10.0, 2000.0, tsat, 2000.0), SUB_GRID, t, n)
    ensures Total(t, n) == 2000.0 && n <= 400
  {
    var q := Request(None, 10.0, 2000.0, tsat, 2000.0);
    assert SUB_GRID[7] == 5.0;
    assert MaxCount(5.0, 2000.0) == 400;
    assert IsCount(m, RISING, q, 5.0, 400);
    assert !Less(KeyOf(m, RISING, q, 5.0, 400), KeyOf(m, RISING, q, t, n));
  }

  /** An exposure that begins late under that sky is lost from 5 s on. */
  lemma RisingLater(m: Functions, start: real, t: real)
    requires Laws(m) && t >= 5.0 && start == 2000.0 - t
    ensures !Unsaturated(m, Later(RISING, start), None, t)
  {
    RisingSky(m);
    LaterSky(m, RISING, start, t);
    var none: Option<real> := None;
    assert Limits(none)[0] == Sky;
    ProductsGrow(10000.0, 5.0, SkyRate(m, RISING, 2000.0), t);
    assert Excess(m, Later(RISING, start), none, Sky, t) > 0.0;
  }

  /**
    Every plan of 2000 s under that sky is accumulated of sub-exposures of which the first
    is unsaturated and the last is not.
  */
  lemma RisingTwilightSaturates(m: Functions, e: Entry, wanted: real, which: Option<Limit>)
    requires Laws(m) && IsEntry(m, RISING, HALF_AN_HOUR, e, wanted, which)
    ensures e.n > 1 && Unsaturated(m, RISING, None, e.t)
    ensures !NthUnsaturated(m, RISING, None, e.t, e.t, e.n - 1)
  {
    RisingLimit(m, e, wanted, which);
    RisingBest(m, e.tsat.value, which, e.t, e.n);
  }

  lemma RisingBest(m: Functions, tsat: real, which: Option<Limit>, t: real, n: int)
    requires Laws(m) && IsMaxTime(m, RISING, None, Some(tsat), which) && tsat >= 5.0
    requires IsBest(m, RISING, Request(None, 10.0, 2000.0, tsat, 2000.0), SUB_GRID, t, n)
    ensures n > 1 && Unsaturated(m, RISING, None, t) && !NthUnsaturated(m, RISING, None, t, t, n - 1)
  {
    RisingChoice(m, tsat, t, n);
    RisingEnd(m, tsat, which, t, n);
  }

  lemma RisingEnd(m: Functions, tsat: real, which: Option<Limit>, t: real, n: int)
    requires Laws(m) && IsMaxTime(m, RISING, None, Some(tsat), which)
    requires 0.0 < t <= tsat && n <= 400 && Total(t, n) == 2000.0
    ensures n > 1 && Unsaturated(m, RISING, None, t) && !NthUnsaturated(m, RISING, None, t, t, n - 1)
  {
    MaxTimeSeparates(m, RISING, None, tsat, which, t);
    SharesOfTime(t, n);
    RisingLater(m, Total(t, n - 1), t);
  }

  lemma SharesOfTime(t: real, n: int)
    requires 0.0 < t < LONGEST && n <= 400 && Total(t, n) == 2000.0
    ensures n > 1 && t >= 5.0 && Total(t, n - 1) == 2000.0 - t
  {
    if t < 5.0 {
      ProductsGrow(0.0, t, n as real, 5.0);
    }
    assert Total(t, n - 1) == Total(t, n) - t;
  }
}

/** The scalar helpers of the `math` namespace: a rand()-driven uniform sample,
    absolute value, clamping and linear interpolation. Single-precision floats
    are modelled as reals. */
module MathUtil {

  /** `randf` reduces the value of `rand()` modulo this many steps (the
      literal 10000 in RandF below). */
  const RAND_STEPS: nat := 10000

  function Min(a: real, b: real): real { if a <= b then a else b }

  function Max(a: real, b: real): real { if a <= b then b else a }

  /** `randf(a, b)`, with the value `rnd` that `rand()` returned as a
      parameter (rand() never returns a negative value). The sample is one of
      RAND_STEPS evenly spaced points starting at `a`, so it never reaches `b`. */
  function RandF(a: real, b: real, rnd: nat): (r: real)
    ensures a < b ==> a <= r < b
    ensures b < a ==> b < r <= a
    ensures a == b ==> r == a
    ensures rnd % RAND_STEPS == 0 ==> r == a
  {
    var k := (rnd % 10000) as real / 10000.0;
    var r := k * (b - a) + a;
    SampleBounds(a, b, k, r);
    r
  }

  /** For a weight `k` in [0, 1), the point `r = k * (b - a) + a` lies between
      `a` (included) and `b` (excluded), and is `a` when `k` is 0. */
  lemma SampleBounds(a: real, b: real, k: real, r: real)
    requires 0.0 <= k < 1.0 && r == k * (b - a) + a
    ensures a < b ==> a <= r < b
    ensures b < a ==> b < r <= a
    ensures a == b || k == 0.0 ==> r == a
  {
    var d := b - a;
    if k == 0.0 {
      assert k * d == 0.0;
    }
    if d == 0.0 {
      assert k * d == 0.0;
    }
    ProductSign(d, k);
    ProductSign(d, 1.0 - k);
    assert d * (1.0 - k) == d - d * k;
  }

  /** `absf`: the magnitude of `f`. */
  function Absf(f: real): (r: real)
    ensures r >= 0.0
    ensures r == f || r == -f
    ensures r == f <==> f >= 0.0
  {
    if f < 0.0 then -f else f
  }

  /** `clampf(f, a, b)`: `a` when `f` is below it, otherwise `b` when `f` is
      above that, otherwise `f`. */
  function Clampf(f: real, a: real, b: real): (r: real)
    ensures a <= b ==> a <= r <= b
    ensures a <= f <= b ==> r == f
    ensures f < a ==> r == a
    ensures a <= f && b < f ==> r == b
  {
    if f < a then a else if f > b then b else f
  }

  /** Clamping an already clamped value changes nothing. */
  lemma ClampfIdempotent(f: real, a: real, b: real)
    requires a <= b
    ensures Clampf(Clampf(f, a, b), a, b) == Clampf(f, a, b)
  {
  }

  /** `interpolate(a0, a1, w)`: the point at weight `w` on the line through
      `a0` (weight 0) and `a1` (weight 1). There is no easing: the weight is
      used as it is. */
  function Interpolate(a0: real, a1: real, w: real): (r: real)
    ensures w == 0.0 ==> r == a0
    ensures w == 1.0 ==> r == a1
    ensures a0 == a1 ==> r == a0
    ensures 0.0 <= w <= 1.0 ==> Min(a0, a1) <= r <= Max(a0, a1)
    ensures w < 0.0 && a0 < a1 ==> r < a0
    ensures w < 0.0 && a1 < a0 ==> a0 < r
  {
    var r := (a1 - a0) * w + a0;
    InterpolateBounds(a0, a1, w, r);
    r
  }

  /** The facts about `r = (a1 - a0) * w + a0` behind Interpolate's contract. */
  lemma InterpolateBounds(a0: real, a1: real, w: real, r: real)
    requires r == (a1 - a0) * w + a0
    ensures w == 0.0 ==> r == a0
    ensures w == 1.0 ==> r == a1
    ensures a0 == a1 ==> r == a0
    ensures 0.0 <= w <= 1.0 ==> Min(a0, a1) <= r <= Max(a0, a1)
    ensures w < 0.0 && a0 < a1 ==> r < a0
    ensures w < 0.0 && a1 < a0 ==> a0 < r
  {
    var d := a1 - a0;
    if w == 0.0 {
      assert d * w == 0.0;
    }
    if w == 1.0 {
      assert d * w == d;
    }
    if d == 0.0 {
      assert d * w == 0.0;
    }
    if 0.0 <= w <= 1.0 {
      ProductSign(d, w);
      ProductSign(d, 1.0 - w);
      assert d * (1.0 - w) == d - d * w;
    }
    if w < 0.0 {
      ProductSign(d, -w);
      assert d * (-w) == -(d * w);
    }
  }

  /** The sign of a product with a non-negative factor `q`. */
  lemma ProductSign(p: real, q: real)
    requires q >= 0.0
    ensures p >= 0.0 ==> p * q >= 0.0
    ensures p <= 0.0 ==> p * q <= 0.0
    ensures p > 0.0 && q > 0.0 ==> p * q > 0.0
    ensures p < 0.0 && q > 0.0 ==> p * q < 0.0
  {
  }
}

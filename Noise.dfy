/** The coherent noise field: a 32-bit multiply/xor/rotate hash that picks a
    gradient direction per lattice point, the dot product of that gradient
    with the offset to the sample point, and the bilinear blend of the four
    corner dot products around the sample. */
module Noise {
  import opened MathUtil

  type Vec2 = (real, real)

  /** An assignment of a gradient vector to every lattice point. */
  type Gradient = (int, int) -> Vec2

  /** The cosine and sine of an angle (the model does not compute them). */
  type Trig = real -> Vec2

  // ---------------------------------------------------------------------
  // randomGradient

  /** `8 * sizeof(unsigned)`, the word width w. */
  const WORD_BITS: nat := 32
  /** `w / 2`, the rotation width s. */
  const ROTATE_BITS: nat := WORD_BITS / 2

  const MUL_A: bv32 := 3284157443
  const MUL_B: bv32 := 1911520717
  const MUL_C: bv32 := 2048419325

  /** The conversion `unsigned a = ix`: the two's-complement bit pattern of
      an `int`, that is, its value modulo 2^32. */
  function ToUnsigned(i: int): bv32
  {
    (i % 0x1_0000_0000) as bv32
  }

  /** `x << s | x >> w - s`. */
  function Rotate(x: bv32): (r: bv32)
    ensures r == x.RotateLeft(16)
  {
    (x << ROTATE_BITS) | (x >> (WORD_BITS - ROTATE_BITS))
  }

  /** Rotating by half the word twice gives back the word. */
  lemma RotateInvolution(x: bv32)
    ensures Rotate(Rotate(x)) == x
  {
  }

  /** The two locals `a` and `b` of randomGradient after its five updates,
      starting from the bit patterns `ua` of `ix` and `ub` of `iy`, before `a`
      is turned into an angle. Every step is unsigned arithmetic modulo 2^32. */
  function Mix(ua: bv32, ub: bv32): (bv32, bv32)
  {
    var a := ua * MUL_A;
    var b := ub ^ Rotate(a);
    var b := b * MUL_B;
    var a := a ^ Rotate(b);
    var a := a * MUL_C;
    (a, b)
  }

  /** The lattice origin hashes to 0, whatever the multipliers. */
  lemma MixOfOrigin()
    ensures Mix(0, 0) == (0, 0)
  {
  }

  /** The 32-bit value randomGradient turns into an angle: the final `a`. */
  function GradientHash(ix: int, iy: int): bv32
  {
    Mix(ToUnsigned(ix), ToUnsigned(iy)).0
  }

  /** The decimal approximation of pi written in randomGradient. */
  const PI_APPROX: real := 3.14159265

  /** `~(~0u >> 1)`: the top bit of an unsigned. */
  const TOP_BIT: bv32 := !(!0 >> 1)

  /** The divisor of the angle scaling, 2^31. */
  const HALF_TURN: real := 2147483648.0

  /** `~(~0u >> 1)` is 2^31, the divisor used by Angle. */
  lemma TopBitIsHalfTurn()
    ensures TOP_BIT == 0x8000_0000
    ensures (TOP_BIT as int) as real == HALF_TURN
  {
  }

  /** `a * (3.14159265 / ~(~0u >> 1))`: the hash scaled to an angle in
      [0, 2 * 3.14159265), which lies inside [0, 2 pi). */
  function Angle(a: bv32): (r: real)
    ensures 0.0 <= r < 2.0 * PI_APPROX
    ensures a == 0 ==> r == 0.0
  {
    var n := (a as int) as real;
    assert 0.0 <= n < 4294967296.0;
    n * PI_APPROX / HALF_TURN
  }

  /** randomGradient: `(cos, sin)` of the hashed angle, where `trig` supplies
      cosine and sine. The seed parameter is accepted and never read. */
  function RandomGradient(trig: Trig, ix: int, iy: int, seed: int): Vec2
  {
    trig(Angle(GradientHash(ix, iy)))
  }

  /** The seed never affects the gradient. */
  lemma GradientSeedIndependent(trig: Trig, ix: int, iy: int, s1: int, s2: int)
    ensures RandomGradient(trig, ix, iy, s1) == RandomGradient(trig, ix, iy, s2)
  {
  }

  /** The gradient field randomGradient defines for one seed. */
  function HashGradient(trig: Trig, seed: int): Gradient
  {
    (ix: int, iy: int) => RandomGradient(trig, ix, iy, seed)
  }

  // ---------------------------------------------------------------------
  // dotGridGradient and getPerlinNoise

  /** `static_cast<int>`: rounds toward zero. */
  function Trunc(r: real): (t: int)
    ensures r >= 0.0 ==> t as real <= r < t as real + 1.0
    ensures r < 0.0 ==> t as real - 1.0 < r <= t as real
  {
    if r >= 0.0 then r.Floor else -((-r).Floor)
  }

  /** Truncation leaves integers unchanged. */
  lemma TruncOfInt(i: int)
    ensures Trunc(i as real) == i
  {
  }

  /** dotGridGradient: the dot product of the gradient at (ix, iy) with the
      offset from (ix, iy) to (x, y). */
  function DotGridGradient(g: Gradient, ix: int, iy: int, x: real, y: real): (r: real)
    ensures x == ix as real && y == iy as real ==> r == 0.0
  {
    var d := (x - ix as real, y - iy as real);
    d.0 * g(ix, iy).0 + d.1 * g(ix, iy).1
  }

  /** The four corner dot products around (x, y) for the corner (x0, y0),
      blended with the weights `sx` along x and `sy` along y. At each of the
      four corners the blend is that corner's own dot product. */
  function Blend(g: Gradient, x0: int, y0: int, x: real, y: real): (r: real)
    ensures x == x0 as real && y == y0 as real ==> r == DotGridGradient(g, x0, y0, x, y)
    ensures x == x0 as real + 1.0 && y == y0 as real ==> r == DotGridGradient(g, x0 + 1, y0, x, y)
    ensures x == x0 as real && y == y0 as real + 1.0 ==> r == DotGridGradient(g, x0, y0 + 1, x, y)
    ensures x == x0 as real + 1.0 && y == y0 as real + 1.0 ==> r == DotGridGradient(g, x0 + 1, y0 + 1, x, y)
  {
    var sx := x - x0 as real;
    var sy := y - y0 as real;
    var ix0 := Interpolate(DotGridGradient(g, x0, y0, x, y), DotGridGradient(g, x0 + 1, y0, x, y), sx);
    var ix1 := Interpolate(DotGridGradient(g, x0, y0 + 1, x, y), DotGridGradient(g, x0 + 1, y0 + 1, x, y), sx);
    Interpolate(ix0, ix1, sy)
  }

  /** getPerlinNoise over an arbitrary gradient field: corners chosen by
      truncation, x1 = x0 + 1 and y1 = y0 + 1, linear weights. */
  function PerlinNoise(g: Gradient, x: real, y: real): real
  {
    Blend(g, Trunc(x), Trunc(y), x, y)
  }

  /** getPerlinNoise(x, y, seed): the truncating noise with the gradients of
      randomGradient. */
  function GetPerlinNoise(trig: Trig, x: real, y: real, seed: int): real
  {
    PerlinNoise(HashGradient(trig, seed), x, y)
  }

  /** The seed never affects the noise value, as written or corrected. */
  lemma NoiseSeedIndependent(trig: Trig, x: real, y: real, s1: int, s2: int)
    ensures GetPerlinNoise(trig, x, y, s1) == GetPerlinNoise(trig, x, y, s2)
    ensures GetPerlinNoiseFloor(trig, x, y, s1) == GetPerlinNoiseFloor(trig, x, y, s2)
  {
    BlendSeedIndependent(trig, s1, s2, Trunc(x), Trunc(y), x, y);
    BlendSeedIndependent(trig, s1, s2, x.Floor, y.Floor, x, y);
  }

  /** The blend around any corner (x0, y0) is the same for two seeds. */
  lemma BlendSeedIndependent(trig: Trig, s1: int, s2: int, x0: int, y0: int, x: real, y: real)
    ensures Blend(HashGradient(trig, s1), x0, y0, x, y) == Blend(HashGradient(trig, s2), x0, y0, x, y)
  {
    var g1, g2 := HashGradient(trig, s1), HashGradient(trig, s2);
    GradientSeedIndependent(trig, x0, y0, s1, s2);
    GradientSeedIndependent(trig, x0 + 1, y0, s1, s2);
    GradientSeedIndependent(trig, x0, y0 + 1, s1, s2);
    GradientSeedIndependent(trig, x0 + 1, y0 + 1, s1, s2);
    BlendCongruent(g1, g2, x0, y0, x, y);
  }

  /** The blend reads the gradient field only at the four corners. */
  lemma BlendCongruent(g1: Gradient, g2: Gradient, x0: int, y0: int, x: real, y: real)
    requires g1(x0, y0) == g2(x0, y0) && g1(x0 + 1, y0) == g2(x0 + 1, y0)
    requires g1(x0, y0 + 1) == g2(x0, y0 + 1) && g1(x0 + 1, y0 + 1) == g2(x0 + 1, y0 + 1)
    ensures Blend(g1, x0, y0, x, y) == Blend(g2, x0, y0, x, y)
  {
    assert DotGridGradient(g1, x0, y0, x, y) == DotGridGradient(g2, x0, y0, x, y);
    assert DotGridGradient(g1, x0 + 1, y0, x, y) == DotGridGradient(g2, x0 + 1, y0, x, y);
    assert DotGridGradient(g1, x0, y0 + 1, x, y) == DotGridGradient(g2, x0, y0 + 1, x, y);
    assert DotGridGradient(g1, x0 + 1, y0 + 1, x, y) == DotGridGradient(g2, x0 + 1, y0 + 1, x, y);
  }

  /** The weight `x - trunc(x)`: in [0, 1) for x >= 0, in (-1, 0) for
      negative x that is not an integer, 0 at integers. */
  lemma TruncWeight(x: real)
    ensures x >= 0.0 ==> 0.0 <= x - Trunc(x) as real < 1.0
    ensures x < 0.0 && x != x.Floor as real ==> -1.0 < x - Trunc(x) as real < 0.0
    ensures x == x.Floor as real ==> x - Trunc(x) as real == 0.0
  {
    if x == x.Floor as real {
      TruncOfInt(x.Floor);
    } else if x < 0.0 {
      var t := Trunc(x);
      assert t as real - 1.0 < x <= t as real;
      assert x != t as real;
    }
  }

  /** At a lattice point the noise is 0, whatever the gradients. */
  lemma NoiseZeroAtLatticePoints(g: Gradient, ix: int, iy: int)
    ensures PerlinNoise(g, ix as real, iy as real) == 0.0
    ensures PerlinNoiseFloor(g, ix as real, iy as real) == 0.0
  {
    TruncOfInt(ix);
    TruncOfInt(iy);
  }

  // ---------------------------------------------------------------------
  // Bilinear blending stays within the corner values only when the corners
  // surround the sample point.

  function Min4(a: real, b: real, c: real, d: real): real { Min(Min(a, b), Min(c, d)) }

  function Max4(a: real, b: real, c: real, d: real): real { Max(Max(a, b), Max(c, d)) }

  /** `v` lies within the range of the four corner dot products of the cell
      with lower corner (x0, y0). */
  ghost predicate WithinCorners(g: Gradient, x0: int, y0: int, x: real, y: real, v: real)
  {
    var n00 := DotGridGradient(g, x0, y0, x, y);
    var n10 := DotGridGradient(g, x0 + 1, y0, x, y);
    var n01 := DotGridGradient(g, x0, y0 + 1, x, y);
    var n11 := DotGridGradient(g, x0 + 1, y0 + 1, x, y);
    Min4(n00, n10, n01, n11) <= v <= Max4(n00, n10, n01, n11)
  }

  /** When both weights lie in [0, 1], the blend is within the corner range. */
  lemma BlendWithinCorners(g: Gradient, x0: int, y0: int, x: real, y: real)
    requires 0.0 <= x - x0 as real <= 1.0 && 0.0 <= y - y0 as real <= 1.0
    ensures WithinCorners(g, x0, y0, x, y, Blend(g, x0, y0, x, y))
  {
  }

  /** The noise as getPerlinNoise evidently intends it: the lower corners are
      the floors, so the four corners surround (x, y). */
  function PerlinNoiseFloor(g: Gradient, x: real, y: real): real
  {
    Blend(g, x.Floor, y.Floor, x, y)
  }

  /** The corrected getPerlinNoise(x, y, seed) with the gradients of
      randomGradient. */
  function GetPerlinNoiseFloor(trig: Trig, x: real, y: real, seed: int): real
  {
    PerlinNoiseFloor(HashGradient(trig, seed), x, y)
  }

  /** The corrected noise always lies within the range of the four corner
      dot products around the sample point. */
  lemma FloorNoiseWithinCorners(g: Gradient, x: real, y: real)
    ensures x.Floor as real <= x < x.Floor as real + 1.0
    ensures y.Floor as real <= y < y.Floor as real + 1.0
    ensures WithinCorners(g, x.Floor, y.Floor, x, y, PerlinNoiseFloor(g, x, y))
  {
    BlendWithinCorners(g, x.Floor, y.Floor, x, y);
  }

  /** On the non-negative quadrant truncation is the floor, so there the
      noise as written is the corrected one. */
  lemma NoiseAgreesOnNonNegativeQuadrant(g: Gradient, x: real, y: real)
    requires x >= 0.0 && y >= 0.0
    ensures PerlinNoise(g, x, y) == PerlinNoiseFloor(g, x, y)
  {
    assert Trunc(x) == x.Floor && Trunc(y) == y.Floor;
  }

  /** As written, the noise at (-0.999, 0) uses the corners x = 0 and x = 1,
      which do not surround the point: the weight is -0.999 and the value
      (-3.994002 for gradients alternating between (1, 0) and (-1, 0) along
      x) lies far outside the range [-0.999, 1.999] of its corner dot
      products. */
  lemma TruncNoiseLeavesCorners()
    ensures var g: Gradient := (ix: int, iy: int) => if ix % 2 == 0 then (1.0, 0.0) else (-1.0, 0.0);
            Trunc(-0.999) == 0
            && PerlinNoise(g, -0.999, 0.0) == -3.994002
            && !WithinCorners(g, Trunc(-0.999), Trunc(0.0), -0.999, 0.0, PerlinNoise(g, -0.999, 0.0))
  {
    var g: Gradient := (ix: int, iy: int) => if ix % 2 == 0 then (1.0, 0.0) else (-1.0, 0.0);
    assert Trunc(-0.999) == 0;
    assert Trunc(0.0) == 0;
    assert DotGridGradient(g, 0, 0, -0.999, 0.0) == -0.999;
    assert DotGridGradient(g, 1, 0, -0.999, 0.0) == 1.999;
    assert DotGridGradient(g, 0, 1, -0.999, 0.0) == -0.999;
    assert DotGridGradient(g, 1, 1, -0.999, 0.0) == 1.999;
  }
}

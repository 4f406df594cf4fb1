/**
  The coherent-noise kernels of `Noise`: the integer hash, value noise, the
  gradient-vector index and its table reads, gradient noise at one lattice
  vertex, the lattice-base rule and the vertex schedule of gradient coherent
  noise, and the octant index of simplex-style noise.

  Java `int` arithmetic on the hash keeps the low 32 bits of the mathematical
  result: the first sum of products is reduced once, with `Pattern`, and the
  later steps are carried out on `bv32`, whose `*` and `+` wrap around exactly
  as Java's do. Doubles are `real`.
*/
module Noise {
  import opened JavaInt

  const X_NOISE_GEN: int32 := 1619
  const Y_NOISE_GEN: int32 := 31337
  const Z_NOISE_GEN: int32 := 6971
  const SEED_NOISE_GEN: int32 := 1013
  const SHIFT_NOISE_GEN: bv5 := 8

  /** Length of a gradient table: 256 vectors of 4 entries (x, y, z and padding). */
  const RANDOM_VECTORS_LENGTH: nat := 1024

  /** The documented range of `intValueNoise3D`: 0 to 2147483647. */
  type NoiseInt = x: int32 | 0 <= x

  // ---------------------------------------------------------------------------
  // Integer hashing
  // ---------------------------------------------------------------------------

  /**
    The combined-coordinate hash that starts `intValueNoise3D` and both
    gradient-vector index computations: a wrapping 32-bit sum of products.
  */
  function CoordinateHash(x: int32, y: int32, z: int32, seed: int32): bv32 {
    Pattern(X_NOISE_GEN * x + Y_NOISE_GEN * y + Z_NOISE_GEN * z + SEED_NOISE_GEN * seed)
  }

  /** The value of the `int` whose pattern is `b & 0x7fffffff`: the low 31 bits of `b`. */
  function Low31(b: bv32): NoiseInt {
    ((b & 0x7fff_ffff) as bv31) as int
  }

  /**
    `intValueNoise3D`: for every input, under Java's wraparound, a non-negative
    `int`, so within the documented range 0 to 2147483647.
  */
  function IntValueNoise3D(x: int32, y: int32, z: int32, seed: int32): (r: int32)
    ensures 0 <= r
  {
    var n := CoordinateHash(x, y, z, seed) & 0x7fff_ffff;
    var n' := AShr(n, 13) ^ n;
    Low31(n' * (n' * n' * 60493 + 19990303) + 1376312589)
  }

  /**
    After the first mask, `n` is a non-negative `int`, so Java's arithmetic
    `n >> 13` is the logical shift and `(n >> 13) ^ n` is non-negative too.
  */
  lemma AvalancheInputNonNegative(x: int32, y: int32, z: int32, seed: int32)
    ensures var n := CoordinateHash(x, y, z, seed) & 0x7fff_ffff;
            n < 0x8000_0000 && AShr(n, 13) == n >> 13 && (AShr(n, 13) ^ n) < 0x8000_0000
  {
  }

  /** `valueNoise3D`: the integer noise scaled into the unit interval. */
  function ValueNoise3D(x: int32, y: int32, z: int32, seed: int32): (r: real)
    ensures 0.0 <= r <= 1.0
  {
    IntValueNoise3D(x, y, z, seed) as real / 2147483647.0
  }

  // ---------------------------------------------------------------------------
  // Gradient vectors
  // ---------------------------------------------------------------------------

  /**
    The gradient-vector index shared by the gradient kernel and the
    simplex-style kernel: the hash folded with an arithmetic shift and masked
    to 8 bits.
  */
  function VectorIndex(ix: int32, iy: int32, iz: int32, seed: int32): (i: bv32)
    ensures i <= 0xff
  {
    var v := CoordinateHash(ix, iy, iz, seed);
    var v' := v ^ AShr(v, SHIFT_NOISE_GEN);
    v' & 0xff
  }

  /**
    The bits that Java's arithmetic shift fills with the sign are discarded by
    the mask, so the index is the same as with a logical shift.
  */
  lemma VectorIndexIgnoresSignFill(ix: int32, iy: int32, iz: int32, seed: int32)
    ensures var v := CoordinateHash(ix, iy, iz, seed);
            VectorIndex(ix, iy, iz, seed) == (v ^ (v >> 8)) & 0xff
  {
  }

  /** A gradient vector read from a table. */
  datatype Gradient = Gradient(x: real, y: real, z: real)

  /**
    The three reads `(i << 2)`, `(i << 2) + 1`, `(i << 2) + 2` for an 8-bit
    index: three distinct entries of block `i`, all inside a 256 x 4 table,
    at the offsets `4 * i`, `4 * i + 1` and `4 * i + 2`.
  */
  lemma GradientReadsInOneBlock(i: bv32)
    requires i <= 0xff
    ensures (i << 2) as int == 4 * (i as bv8) as int
    ensures (i << 2) < (i << 2) + 1 < (i << 2) + 2 < RANDOM_VECTORS_LENGTH as bv32
    ensures (i << 2) / 4 == ((i << 2) + 1) / 4 == ((i << 2) + 2) / 4 == i
  {
  }

  /**
    The gradient vector at index `i` of a 256 x 4 table: the entries at
    `i << 2` and the two after it, with the offset written as `4 * i`.
  */
  function GradientVector(vectors: seq<real>, i: bv32): Gradient
    requires |vectors| == RANDOM_VECTORS_LENGTH && i <= 0xff
  {
    var b := 4 * (i as bv8) as int;
    Gradient(vectors[b], vectors[b + 1], vectors[b + 2])
  }

  /** The gradient vector at index `i` is made of the reads at `(i << 2)`, `(i << 2) + 1` and `(i << 2) + 2`. */
  lemma GradientVectorIsBlock(vectors: seq<real>, i: bv32)
    requires |vectors| == RANDOM_VECTORS_LENGTH && i <= 0xff
    ensures (i << 2) as int + 2 < |vectors|
    ensures GradientVector(vectors, i) ==
            Gradient(vectors[(i << 2) as int], vectors[((i << 2) + 1) as int], vectors[((i << 2) + 2) as int])
  {
    GradientReadsInOneBlock(i);
  }

  /** The documented caller contract of `gradientNoise3D`: the point is within one unit of the vertex on each axis. */
  predicate NearVertex(fx: real, fy: real, fz: real, ix: int32, iy: int32, iz: int32) {
    -1.0 <= fx - ix as real <= 1.0 && -1.0 <= fy - iy as real <= 1.0 && -1.0 <= fz - iz as real <= 1.0
  }

  /**
    `gradientNoise3D`: the dot product of the vertex's pseudo-random gradient
    with the offset from the vertex to the point, shifted by 0.5.
  */
  function GradientNoise3D(fx: real, fy: real, fz: real, ix: int32, iy: int32, iz: int32, seed: int32,
                           vectors: seq<real>): real
    requires |vectors| == RANDOM_VECTORS_LENGTH
    requires NearVertex(fx, fy, fz, ix, iy, iz)
  {
    var g := GradientVector(vectors, VectorIndex(ix, iy, iz, seed));
    g.x * (fx - ix as real) + g.y * (fy - iy as real) + g.z * (fz - iz as real) + 0.5
  }

  function Abs(a: real): real { if a < 0.0 then -a else a }

  /** A product with a factor in [-1, 1] is no larger in magnitude than the other factor. */
  lemma ProductWithinUnit(a: real, d: real)
    requires -1.0 <= d <= 1.0
    ensures -Abs(a) <= a * d <= Abs(a)
  {
    var p := if a >= 0.0 then a else -a;
    assert p * (1.0 - d) >= 0.0 && p * (d + 1.0) >= 0.0 by {
      NonNegativeProduct(p, 1.0 - d);
      NonNegativeProduct(p, d + 1.0);
    }
  }

  lemma NonNegativeProduct(p: real, q: real)
    requires p >= 0.0 && q >= 0.0
    ensures p * q >= 0.0
  {
  }

  /** A dot product with an offset within one unit on each axis is bounded by the gradient's magnitudes. */
  lemma DotWithinUnit(gx: real, gy: real, gz: real, dx: real, dy: real, dz: real)
    requires -1.0 <= dx <= 1.0 && -1.0 <= dy <= 1.0 && -1.0 <= dz <= 1.0
    ensures -(Abs(gx) + Abs(gy) + Abs(gz)) <= gx * dx + gy * dy + gz * dz <= Abs(gx) + Abs(gy) + Abs(gz)
  {
    ProductWithinUnit(gx, dx);
    ProductWithinUnit(gy, dy);
    ProductWithinUnit(gz, dz);
  }

  /**
    Gradient noise differs from 0.5 by at most the sum of the magnitudes of the
    gradient's components, since each offset from the vertex is within one
    unit. The documented output range [0, 1] follows for gradients whose
    components sum in magnitude to at most 0.5.
  */
  lemma GradientNoiseBounds(fx: real, fy: real, fz: real, ix: int32, iy: int32, iz: int32, seed: int32,
                            vectors: seq<real>)
    requires |vectors| == RANDOM_VECTORS_LENGTH
    requires NearVertex(fx, fy, fz, ix, iy, iz)
    ensures var g := GradientVector(vectors, VectorIndex(ix, iy, iz, seed));
            var m := Abs(g.x) + Abs(g.y) + Abs(g.z);
            0.5 - m <= GradientNoise3D(fx, fy, fz, ix, iy, iz, seed, vectors) <= 0.5 + m
  {
    var g := GradientVector(vectors, VectorIndex(ix, iy, iz, seed));
    DotWithinUnit(g.x, g.y, g.z, fx - ix as real, fy - iy as real, fz - iz as real);
  }

  /** The gradient noise at the vertex itself is 0.5, whatever the gradient. */
  lemma GradientNoiseAtVertex(fx: real, fy: real, fz: real, ix: int32, iy: int32, iz: int32, seed: int32,
                              vectors: seq<real>)
    requires |vectors| == RANDOM_VECTORS_LENGTH
    requires NearVertex(fx, fy, fz, ix, iy, iz)
    ensures fx == ix as real && fy == iy as real && fz == iz as real ==>
              GradientNoise3D(fx, fy, fz, ix, iy, iz, seed, vectors) == 0.5
  {
  }

  // ---------------------------------------------------------------------------
  // Lattice base
  // ---------------------------------------------------------------------------

  /**
    The coordinates for which the lattice-base rule is modelled: its `(int)`
    cast does not saturate and neither `- 1` nor the caller's `+ 1` wraps.
  */
  predicate LatticeSafe(v: real) {
    -2147483648.0 < v < 2147483647.0
  }

  /**
    The lattice-base rule `(v > 0) ? (int) v : (int) v - 1`. The point lies in
    the unit cell `[b, b + 1]`, which is what makes every vertex of the cell
    meet the caller contract of `gradientNoise3D`.
  */
  function LatticeBase(v: real): (b: int32)
    requires LatticeSafe(v)
    ensures b < MAX_VALUE
    ensures 0.0 <= v - b as real <= 1.0
    ensures -1.0 <= v - (b + 1) as real <= 0.0
  {
    if v > 0.0 then CastToInt(v) else Sub(CastToInt(v), 1)
  }

  /** The lattice base is `floor(v)`, except at non-positive integers, where it is one less. */
  lemma LatticeBaseVersusFloor(v: real)
    requires LatticeSafe(v)
    ensures v > 0.0 || v != v.Floor as real ==> LatticeBase(v) == v.Floor
    ensures v <= 0.0 && v == v.Floor as real ==> LatticeBase(v) == v.Floor - 1
  {
  }

  /**
    What the rule does on the in-range doubles `LatticeSafe` leaves out: a
    point in `[2147483647, 2147483648)` gets the base `MAX_VALUE`, whose
    `+ 1` wraps to `MIN_VALUE`, and a point in `(-2147483649, -2147483648]`
    gets a base whose `- 1` wraps to `MAX_VALUE`. Either way a corner of the
    cell lies far more than one unit from the point.
  */
  lemma LatticeEdgesWrap(v: real)
    ensures 2147483647.0 <= v < 2147483648.0 ==>
              CastToInt(v) == MAX_VALUE && Add(CastToInt(v), 1) == MIN_VALUE &&
              !NearVertex(v, 0.0, 0.0, Add(CastToInt(v), 1), 0, 0)
    ensures -2147483649.0 < v <= -2147483648.0 ==>
              Sub(CastToInt(v), 1) == MAX_VALUE &&
              !NearVertex(v, 0.0, 0.0, Sub(CastToInt(v), 1), 0, 0)
  {
  }

  // ---------------------------------------------------------------------------
  // Gradient coherent noise
  // ---------------------------------------------------------------------------

  datatype NoiseQuality = Fast | Standard | Best

  /** An integer lattice vertex. */
  datatype Vertex = Vertex(ix: int32, iy: int32, iz: int32)

  /** The eight vertices of the cell with lower corner `(x0, y0, z0)`, in the order they are sampled. */
  function CubeCorners(x0: int32, y0: int32, z0: int32): (cs: seq<Vertex>)
    requires x0 < MAX_VALUE && y0 < MAX_VALUE && z0 < MAX_VALUE
    ensures |cs| == 8
  {
    var x1, y1, z1 := x0 + 1, y0 + 1, z0 + 1;
    [Vertex(x0, y0, z0), Vertex(x1, y0, z0), Vertex(x0, y1, z0), Vertex(x1, y1, z0),
     Vertex(x0, y0, z1), Vertex(x1, y0, z1), Vertex(x0, y1, z1), Vertex(x1, y1, z1)]
  }

  /** The corners are exactly the vertices whose coordinates are each the base or one more. */
  lemma CubeCornersMembers(x0: int32, y0: int32, z0: int32)
    requires x0 < MAX_VALUE && y0 < MAX_VALUE && z0 < MAX_VALUE
    ensures forall v :: v in CubeCorners(x0, y0, z0) <==>
      (v.ix == x0 || v.ix == x0 + 1) && (v.iy == y0 || v.iy == y0 + 1) && (v.iz == z0 || v.iz == z0 + 1)
  {
  }

  /** Every corner of the cell around a point is within one unit of the point on each axis. */
  lemma CornersNearPoint(x: real, y: real, z: real)
    requires LatticeSafe(x) && LatticeSafe(y) && LatticeSafe(z)
    ensures var cs := CubeCorners(LatticeBase(x), LatticeBase(y), LatticeBase(z));
            forall k :: 0 <= k < |cs| ==> NearVertex(x, y, z, cs[k].ix, cs[k].iy, cs[k].iz)
  {
  }

  /** Each corner of the cell is sampled exactly once. */
  lemma CubeCornersDistinct(x0: int32, y0: int32, z0: int32)
    requires x0 < MAX_VALUE && y0 < MAX_VALUE && z0 < MAX_VALUE
    ensures var cs := CubeCorners(x0, y0, z0);
            forall j, k :: 0 <= j < k < |cs| ==> cs[j] != cs[k]
  {
  }

  /**
    The values of `f` at the eight corners of the cell with lower corner
    `(x0, y0, z0)`, in the order written out in `gradientCoherentNoise3D`.
  */
  function CornerSamples(f: (int32, int32, int32) --> real, x0: int32, y0: int32, z0: int32): (n: seq<real>)
    requires x0 < MAX_VALUE && y0 < MAX_VALUE && z0 < MAX_VALUE
    requires forall ix, iy, iz :: (ix == x0 || ix == x0 + 1) && (iy == y0 || iy == y0 + 1) && (iz == z0 || iz == z0 + 1)
                                  ==> f.requires(ix, iy, iz)
    ensures |n| == 8
  {
    var x1, y1, z1 := x0 + 1, y0 + 1, z0 + 1;
    [f(x0, y0, z0), f(x1, y0, z0), f(x0, y1, z0), f(x1, y1, z0),
     f(x0, y0, z1), f(x1, y0, z1), f(x0, y1, z1), f(x1, y1, z1)]
  }

  /** Sample `k` is `f` at corner `k` of `CubeCorners`: each corner once, in that order. */
  lemma CornerSamplesInOrder(f: (int32, int32, int32) --> real, x0: int32, y0: int32, z0: int32)
    requires x0 < MAX_VALUE && y0 < MAX_VALUE && z0 < MAX_VALUE
    requires forall ix, iy, iz :: (ix == x0 || ix == x0 + 1) && (iy == y0 || iy == y0 + 1) && (iz == z0 || iz == z0 + 1)
                                  ==> f.requires(ix, iy, iz)
    ensures var cs := CubeCorners(x0, y0, z0);
            forall k :: 0 <= k < 8 ==>
              f.requires(cs[k].ix, cs[k].iy, cs[k].iz) &&
              CornerSamples(f, x0, y0, z0)[k] == f(cs[k].ix, cs[k].iy, cs[k].iz)
  {
  }

  /** Gradient noise around a point, as a function of the vertex; defined within one unit of the point. */
  function NoiseAt(x: real, y: real, z: real, seed: int32, vectors: seq<real>): (int32, int32, int32) --> real
    requires |vectors| == RANDOM_VECTORS_LENGTH
  {
    (ix: int32, iy: int32, iz: int32) requires NearVertex(x, y, z, ix, iy, iz) =>
      GradientNoise3D(x, y, z, ix, iy, iz, seed, vectors)
  }

  /** Gradient noise at the eight corners of the cell around a point, in sampling order. */
  function CellCornerValues(x: real, y: real, z: real, seed: int32, vectors: seq<real>): (n: seq<real>)
    requires |vectors| == RANDOM_VECTORS_LENGTH
    requires LatticeSafe(x) && LatticeSafe(y) && LatticeSafe(z)
    ensures |n| == 8
  {
    CornerSamples(NoiseAt(x, y, z, seed, vectors),
                  LatticeBase(x), LatticeBase(y), LatticeBase(z))
  }

  /**
    Entry `k` of the corner values is gradient noise at corner `k` of
    `CubeCorners`, which is within one unit of the point.
  */
  lemma CellCornerValuesAtCorners(x: real, y: real, z: real, seed: int32, vectors: seq<real>)
    requires |vectors| == RANDOM_VECTORS_LENGTH
    requires LatticeSafe(x) && LatticeSafe(y) && LatticeSafe(z)
    ensures var cs := CubeCorners(LatticeBase(x), LatticeBase(y), LatticeBase(z));
            forall k :: 0 <= k < 8 ==>
              NearVertex(x, y, z, cs[k].ix, cs[k].iy, cs[k].iz) &&
              CellCornerValues(x, y, z, seed, vectors)[k]
              == GradientNoise3D(x, y, z, cs[k].ix, cs[k].iy, cs[k].iz, seed, vectors)
  {
    var f := NoiseAt(x, y, z, seed, vectors);
    var x0, y0, z0 := LatticeBase(x), LatticeBase(y), LatticeBase(z);
    var cs := CubeCorners(x0, y0, z0);
    CornersNearPoint(x, y, z);
    CornerSamplesInOrder(f, x0, y0, z0);
    forall k | 0 <= k < 8
      ensures CellCornerValues(x, y, z, seed, vectors)[k] == GradientNoise3D(x, y, z, cs[k].ix, cs[k].iy, cs[k].iz, seed, vectors)
    {
      assert CellCornerValues(x, y, z, seed, vectors)[k] == f(cs[k].ix, cs[k].iy, cs[k].iz);
    }
  }

  /**
    The interpolant of one axis: the point's offset `v - b` from the cell
    base, taken as is (FAST) or through an S-curve.
  */
  function Interpolant(quality: NoiseQuality, v: real, b: int32, sCurve3: real -> real, sCurve5: real -> real): real {
    var t := v - b as real;
    match quality
    case Fast => t
    case Standard => sCurve3(t)
    case Best => sCurve5(t)
  }

  /**
    Trilinear interpolation of eight corner values in sampling order: four
    interpolations along x, two along y, one along z.
  */
  function Trilinear(lerp: (real, real, real) -> real, n: seq<real>, xs: real, ys: real, zs: real): real
    requires |n| == 8
  {
    lerp(lerp(lerp(n[0], n[1], xs), lerp(n[2], n[3], xs), ys),
         lerp(lerp(n[4], n[5], xs), lerp(n[6], n[7], xs), ys),
         zs)
  }

  function Min(a: real, b: real): real { if a <= b then a else b }
  function Max(a: real, b: real): real { if a <= b then b else a }

  /** An interpolation whose result lies between its two end values for every weight in [0, 1]. */
  ghost predicate Convex(lerp: (real, real, real) -> real) {
    forall a, b, t :: 0.0 <= t <= 1.0 ==> Min(a, b) <= lerp(a, b, t) <= Max(a, b)
  }

  /** An S-curve that maps the unit interval into itself. */
  ghost predicate UnitToUnit(f: real -> real) {
    forall t :: 0.0 <= t <= 1.0 ==> 0.0 <= f(t) <= 1.0
  }

  /** Interpolating with weights in [0, 1] never leaves the range of the corner values. */
  lemma TrilinearWithinCorners(lerp: (real, real, real) -> real, n: seq<real>, xs: real, ys: real, zs: real,
                               lo: real, hi: real)
    requires Convex(lerp)
    requires |n| == 8 && forall k :: 0 <= k < 8 ==> lo <= n[k] <= hi
    requires 0.0 <= xs <= 1.0 && 0.0 <= ys <= 1.0 && 0.0 <= zs <= 1.0
    ensures lo <= Trilinear(lerp, n, xs, ys, zs) <= hi
  {
    var a, b := lerp(n[0], n[1], xs), lerp(n[2], n[3], xs);
    var c, d := lerp(n[4], n[5], xs), lerp(n[6], n[7], xs);
    assert lo <= a <= hi && lo <= b <= hi && lo <= c <= hi && lo <= d <= hi;
    var e, f := lerp(a, b, ys), lerp(c, d, ys);
    assert lo <= e <= hi && lo <= f <= hi;
    assert Min(e, f) <= lerp(e, f, zs) <= Max(e, f);
  }

  /** For every quality, the interpolant of a point in its cell is a weight in [0, 1]. */
  lemma InterpolantIsWeight(quality: NoiseQuality, v: real, sCurve3: real -> real, sCurve5: real -> real)
    requires UnitToUnit(sCurve3) && UnitToUnit(sCurve5)
    requires LatticeSafe(v)
    ensures 0.0 <= Interpolant(quality, v, LatticeBase(v), sCurve3, sCurve5) <= 1.0
  {
  }

  /**
    `gradientCoherentNoise3D`: trilinear interpolation of gradient noise at
    the eight corners of the unit cell around the point, in the order the
    calls are written (`CellCornerValues`, whose entries are the corners of
    `CubeCorners` in turn). Every call meets the caller contract of
    `gradientNoise3D` (Dafny checks each call's precondition). On the
    coordinates `LatticeSafe` admits, the upper corner `x0 + 1` does not wrap.
    S-curves and linear interpolation are the library's helpers, passed in.
  */
  method GradientCoherentNoise3D(x: real, y: real, z: real, seed: int32, quality: NoiseQuality,
                                 vectors: seq<real>, sCurve3: real -> real, sCurve5: real -> real,
                                 linearInterp: (real, real, real) -> real)
    returns (r: real)
    requires |vectors| == RANDOM_VECTORS_LENGTH
    requires LatticeSafe(x) && LatticeSafe(y) && LatticeSafe(z)
    ensures r == Trilinear(linearInterp, CellCornerValues(x, y, z, seed, vectors),
                           Interpolant(quality, x, LatticeBase(x), sCurve3, sCurve5),
                           Interpolant(quality, y, LatticeBase(y), sCurve3, sCurve5),
                           Interpolant(quality, z, LatticeBase(z), sCurve3, sCurve5))
  {
    var x0 := LatticeBase(x);
    var y0 := LatticeBase(y);
    var z0 := LatticeBase(z);

    var xs := Interpolant(quality, x, x0, sCurve3, sCurve5);
    var ys := Interpolant(quality, y, y0, sCurve3, sCurve5);
    var zs := Interpolant(quality, z, z0, sCurve3, sCurve5);

    var n0, n1, ix0, ix1, iy0, iy1;
    n0 := GradientNoise3D(x, y, z, x0, y0, z0, seed, vectors);
    n1 := GradientNoise3D(x, y, z, x0 + 1, y0, z0, seed, vectors);
    ix0 := linearInterp(n0, n1, xs);

    n0 := GradientNoise3D(x, y, z, x0, y0 + 1, z0, seed, vectors);
    n1 := GradientNoise3D(x, y, z, x0 + 1, y0 + 1, z0, seed, vectors);
    ix1 := linearInterp(n0, n1, xs);
    iy0 := linearInterp(ix0, ix1, ys);

    n0 := GradientNoise3D(x, y, z, x0, y0, z0 + 1, seed, vectors);
    n1 := GradientNoise3D(x, y, z, x0 + 1, y0, z0 + 1, seed, vectors);
    ix0 := linearInterp(n0, n1, xs);

    n0 := GradientNoise3D(x, y, z, x0, y0 + 1, z0 + 1, seed, vectors);
    n1 := GradientNoise3D(x, y, z, x0 + 1, y0 + 1, z0 + 1, seed, vectors);
    ix1 := linearInterp(n0, n1, xs);
    iy1 := linearInterp(ix0, ix1, ys);

    r := linearInterp(iy0, iy1, zs);
  }

  /**
    With a convex interpolation and S-curves that keep the unit interval,
    gradient coherent noise lies between the smallest and the largest of the
    eight corner values.
  */
  lemma GradientCoherentNoiseWithinCorners(x: real, y: real, z: real, seed: int32, quality: NoiseQuality,
                                           vectors: seq<real>, sCurve3: real -> real, sCurve5: real -> real,
                                           linearInterp: (real, real, real) -> real, lo: real, hi: real)
    requires |vectors| == RANDOM_VECTORS_LENGTH
    requires LatticeSafe(x) && LatticeSafe(y) && LatticeSafe(z)
    requires Convex(linearInterp) && UnitToUnit(sCurve3) && UnitToUnit(sCurve5)
    requires forall k :: 0 <= k < 8 ==> lo <= CellCornerValues(x, y, z, seed, vectors)[k] <= hi
    ensures lo <= Trilinear(linearInterp, CellCornerValues(x, y, z, seed, vectors),
                            Interpolant(quality, x, LatticeBase(x), sCurve3, sCurve5),
                            Interpolant(quality, y, LatticeBase(y), sCurve3, sCurve5),
                            Interpolant(quality, z, LatticeBase(z), sCurve3, sCurve5)) <= hi
  {
    InterpolantIsWeight(quality, x, sCurve3, sCurve5);
    InterpolantIsWeight(quality, y, sCurve3, sCurve5);
    InterpolantIsWeight(quality, z, sCurve3, sCurve5);
    TrilinearWithinCorners(linearInterp, CellCornerValues(x, y, z, seed, vectors),
                           Interpolant(quality, x, LatticeBase(x), sCurve3, sCurve5),
                           Interpolant(quality, y, LatticeBase(y), sCurve3, sCurve5),
                           Interpolant(quality, z, LatticeBase(z), sCurve3, sCurve5), lo, hi);
  }

  // ---------------------------------------------------------------------------
  // Simplex-style lattice: octant index and vertex hashing
  // ---------------------------------------------------------------------------

  /** `(int)(o + 0.5)` for an offset `o` in [0, 1]: 1 from one half up, 0 below. */
  function HalfBit(o: real): (h: int32)
    requires 0.0 <= o <= 1.0
    ensures h == if o >= 0.5 then 1 else 0
  {
    CastToInt(o + 0.5)
  }

  /** The bit pattern of the Java `int` 0 or 1. */
  function BitPattern(b: int32): bv32
    requires b == 0 || b == 1
  {
    if b == 0 then 0 else 1
  }

  /**
    The octant index `xht | yht << 1 | zht << 2` of three bits: in [0, 7], and
    each bit can be read back, so distinct octants get distinct indices.
  */
  function OctantIndex(xht: int32, yht: int32, zht: int32): (index: bv32)
    requires xht in {0, 1} && yht in {0, 1} && zht in {0, 1}
    ensures index <= 7
    ensures index & 1 == BitPattern(xht) && (index >> 1) & 1 == BitPattern(yht) && (index >> 2) & 1 == BitPattern(zht)
  {
    (BitPattern(xht) << 0) | (BitPattern(yht) << 1) | (BitPattern(zht) << 2)
  }

  /**
    The start of the lattice-point walk of simplex-style noise: the lattice
    base and offsets of the re-oriented point pick one of the eight entries
    of the quality's lookup table (always in bounds).
  */
  function SimplexLookupStart<P>(lookup: seq<P>, xr: real, yr: real, zr: real): (c: P)
    requires |lookup| == 8
    requires LatticeSafe(xr) && LatticeSafe(yr) && LatticeSafe(zr)
    ensures c in lookup
    ensures var xri, yri, zri := xr - LatticeBase(xr) as real, yr - LatticeBase(yr) as real, zr - LatticeBase(zr) as real;
            c == lookup[OctantIndex(HalfBit(xri), HalfBit(yri), HalfBit(zri))]
  {
    var xrb, yrb, zrb := LatticeBase(xr), LatticeBase(yr), LatticeBase(zr);
    var xri, yri, zri := xr - xrb as real, yr - yrb as real, zr - zrb as real;
    lookup[OctantIndex(HalfBit(xri), HalfBit(yri), HalfBit(zri))]
  }

  /**
    The gradient index of a lattice point of simplex-style noise: the point's
    vertex is the cell base plus the point's offset (wrapping `int` addition),
    hashed exactly as `gradientNoise3D` hashes a vertex.
  */
  function SimplexVertexIndex(xrb: int32, yrb: int32, zrb: int32, xrv: int32, yrv: int32, zrv: int32,
                              seed: int32): (i: bv32)
    ensures i <= 0xff
    ensures i == VectorIndex(Add(xrb, xrv), Add(yrb, yrv), Add(zrb, zrv), seed)
  {
    var ix, iy, iz := Add(xrb, xrv), Add(yrb, yrv), Add(zrb, zrv);
    var hashed := CoordinateHash(ix, iy, iz, seed);
    var folded := hashed ^ AShr(hashed, SHIFT_NOISE_GEN);
    folded & 0xff
  }
}

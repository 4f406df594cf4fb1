/**
  The Simplex-style generator module: its configuration, the `[1, 30]` bound on
  the octave count, the octave loop that sums weighted kernel samples, and the
  geometric-series ceiling on its output.
*/
module SimplexSource {
  import opened Wrappers
  import opened JavaInt

  /** The rotation applied before the simplex-style lattice lookup. */
  datatype LatticeOrientation = Classic | XyBeforeZ | XzBeforeY

  /**
    The simplex-style quality level. Only `STANDARD` is named by the generator;
    the other levels are distinguished by their position in the enumeration.
  */
  datatype NoiseQualitySimplex = Standard | OtherQuality(ordinal: nat)

  /** The one exception the generator throws. */
  datatype ConfigError = IllegalArgumentException

  /** A Java `double` that is either a number or NaN; only what `getMaxValue` can produce. */
  datatype Double = Finite(value: real) | NaN

  const DEFAULT_SIMPLEX_FREQUENCY: real := 1.0
  const DEFAULT_SIMPLEX_LACUNARITY: real := 2.0
  const DEFAULT_SIMPLEX_OCTAVE_COUNT: int32 := 6
  const DEFAULT_SIMPLEX_PERSISTENCE: real := 0.5
  const DEFAULT_SIMPLEX_ORIENTATION: LatticeOrientation := XzBeforeY
  const DEFAULT_SIMPLEX_QUALITY: NoiseQualitySimplex := Standard
  const DEFAULT_SIMPLEX_SEED: int32 := 0
  const SIMPLEX_MAX_OCTAVE: int32 := 30

  /** A snapshot of the generator's fields. */
  datatype SimplexConfig = SimplexConfig(
    frequency: real,
    lacunarity: real,
    latticeOrientation: LatticeOrientation,
    noiseQuality: NoiseQualitySimplex,
    octaveCount: int32,
    persistence: real,
    seed: int32)

  const DEFAULT_CONFIG: SimplexConfig := SimplexConfig(
    DEFAULT_SIMPLEX_FREQUENCY, DEFAULT_SIMPLEX_LACUNARITY, DEFAULT_SIMPLEX_ORIENTATION,
    DEFAULT_SIMPLEX_QUALITY, DEFAULT_SIMPLEX_OCTAVE_COUNT, DEFAULT_SIMPLEX_PERSISTENCE,
    DEFAULT_SIMPLEX_SEED)

  /** The class invariant: the octave count lies between 1 and the maximum. */
  predicate ValidConfig(c: SimplexConfig) {
    1 <= c.octaveCount <= SIMPLEX_MAX_OCTAVE
  }

  /** `b` to the `n`, multiplied up one factor at a time as the octave loop does. */
  function Pow(b: real, n: nat): real {
    if n == 0 then 1.0 else Pow(b, n - 1) * b
  }

  /** One more factor of `b` raises `b^n` to `b^(n + 1)`. */
  lemma PowStep(b: real, n: nat, next: nat, current: real, raised: real)
    requires current == Pow(b, n)
    requires next == n + 1 && raised == current * b
    ensures raised == Pow(b, next)
  {
  }

  /** `1 + p + p^2 + ... + p^(n-1)`: the sum of the weights of `n` octaves. */
  function GeometricSum(p: real, n: nat): real {
    if n == 0 then 0.0 else GeometricSum(p, n - 1) + Pow(p, n - 1)
  }

  lemma {:induction false} GeometricClosedForm(p: real, n: nat)
    ensures GeometricSum(p, n) * (p - 1.0) == Pow(p, n) - 1.0
  {
    if n > 0 {
      GeometricClosedForm(p, n - 1);
      calc {
        GeometricSum(p, n) * (p - 1.0);
        GeometricSum(p, n - 1) * (p - 1.0) + Pow(p, n - 1) * (p - 1.0);
        Pow(p, n - 1) - 1.0 + Pow(p, n - 1) * p - Pow(p, n - 1);
        Pow(p, n) - 1.0;
      }
    }
  }

  lemma {:induction false} GeometricSumAtOne(n: nat)
    ensures GeometricSum(1.0, n) == n as real
  {
    if n > 0 {
      GeometricSumAtOne(n - 1);
      PowOfOne(n - 1);
    }
  }

  lemma {:induction false} PowOfOne(n: nat)
    ensures Pow(1.0, n) == 1.0
  {
    if n > 0 {
      PowOfOne(n - 1);
    }
  }

  lemma {:induction false} PowNonNegative(p: real, n: nat)
    requires p >= 0.0
    ensures Pow(p, n) >= 0.0
  {
    if n > 0 {
      PowNonNegative(p, n - 1);
    }
  }

  /**
    `getMaxValue` as written: `(pow(p, o) - 1) / (p - 1)`. At `p == 1` both
    operands are zero and the quotient is NaN.
  */
  function MaxValueAsWritten(p: real, o: nat): (r: Double)
    ensures p != 1.0 ==> r.Finite?
  {
    var numerator := Pow(p, o) - 1.0;
    var denominator := p - 1.0;
    if denominator == 0.0 then NaN else Finite(numerator / denominator)
  }

  /** At persistence 1 the written formula gives NaN where the octave weights sum to `o`. */
  lemma MaxValueAsWrittenAtUnitPersistence(o: nat)
    requires 1 <= o
    ensures MaxValueAsWritten(1.0, o) == NaN
    ensures GeometricSum(1.0, o) == o as real >= 1.0
  {
    GeometricSumAtOne(o);
  }

  /** Away from persistence 1 the written formula is the sum of the octave weights. */
  lemma MaxValueAsWrittenAwayFromOne(p: real, o: nat)
    requires p != 1.0
    ensures MaxValueAsWritten(p, o) == Finite(GeometricSum(p, o))
  {
    GeometricClosedForm(p, o);
    Quotient(Pow(p, o) - 1.0, p - 1.0, GeometricSum(p, o));
  }

  lemma Quotient(a: real, d: real, q: real)
    requires d != 0.0
    requires q * d == a
    ensures a / d == q
  {
  }

  /**
    The largest value the octave sum can reach when every kernel sample is at
    most 1: the closed form of the geometric series, and `o` itself at `p == 1`.
  */
  function MaxValue(p: real, o: nat): (r: real)
    ensures r == GeometricSum(p, o)
    ensures p != 1.0 ==> MaxValueAsWritten(p, o) == Finite(r)
  {
    if p == 1.0 then
      GeometricSumAtOne(o);
      o as real
    else
      MaxValueAsWrittenAwayFromOne(p, o);
      (Pow(p, o) - 1.0) / (p - 1.0)
  }

  /** The default configuration is valid, and its ceiling is `1 + 1/2 + ... + 1/32`. */
  lemma DefaultMaxValue()
    ensures ValidConfig(DEFAULT_CONFIG)
    ensures MaxValue(DEFAULT_SIMPLEX_PERSISTENCE, DEFAULT_SIMPLEX_OCTAVE_COUNT as nat) == 1.96875
  {
    assert GeometricSum(0.5, 6) == 1.96875;
  }

  /** The point at which one octave samples the kernel, and that octave's seed. */
  datatype OctaveInput = OctaveInput(nx: real, ny: real, nz: real, seed: int32)

  /** A coordinate scaled by the frequency and by `k` factors of the lacunarity. */
  function Scaled(v: real, frequency: real, lacunarity: real, k: nat): real {
    v * frequency * Pow(lacunarity, k)
  }

  /** One more factor of the lacunarity scales a coordinate of octave `k` to octave `k + 1`. */
  lemma ScaledStep(v: real, frequency: real, lacunarity: real, k: nat, next: nat, current: real, scaled: real)
    requires current == Scaled(v, frequency, lacunarity, k)
    requires next == k + 1 && scaled == current * lacunarity
    ensures scaled == Scaled(v, frequency, lacunarity, next)
  {
    assert Pow(lacunarity, k + 1) == Pow(lacunarity, k) * lacunarity;
  }

  /**
    What octave `k` passes to the kernel: each coordinate scaled by
    `frequency * lacunarity^k` and then brought into the 32-bit range, and the
    seed `seed + k` with `int` wrap-around.
  */
  function OctaveInputAt(c: SimplexConfig, x: real, y: real, z: real,
                         makeInt32Range: real -> real, k: nat): OctaveInput
    requires k <= MAX_VALUE
  {
    OctaveInput(makeInt32Range(Scaled(x, c.frequency, c.lacunarity, k)),
                makeInt32Range(Scaled(y, c.frequency, c.lacunarity, k)),
                makeInt32Range(Scaled(z, c.frequency, c.lacunarity, k)),
                Add(c.seed, k as int32))
  }

  /** Octave `k`'s seed is `seed + k` reduced to 32 bits, as Java's `int` addition does. */
  lemma OctaveSeedIsWrap(c: SimplexConfig, x: real, y: real, z: real, makeInt32Range: real -> real, k: nat)
    requires k <= MAX_VALUE
    ensures OctaveInputAt(c, x, y, z, makeInt32Range, k).seed == Wrap(c.seed + k)
  {
    AddIsWrap(c.seed, k as int32);
  }

  /** No two octaves share a seed, wrap-around or not. */
  lemma OctaveSeedsDistinct(c: SimplexConfig, x: real, y: real, z: real, makeInt32Range: real -> real,
                            j: nat, k: nat)
    requires j < k <= MAX_VALUE
    ensures OctaveInputAt(c, x, y, z, makeInt32Range, j).seed != OctaveInputAt(c, x, y, z, makeInt32Range, k).seed
  {
  }

  /** The kernel's value at one octave's input. */
  function Signal(c: SimplexConfig,
                  kernel: (real, real, real, int32, LatticeOrientation, NoiseQualitySimplex) -> real,
                  input: OctaveInput): real
  {
    kernel(input.nx, input.ny, input.nz, input.seed, c.latticeOrientation, c.noiseQuality)
  }

  /**
    The sum over octaves `k < n` of the kernel's value at octave `k`'s input,
    weighted by `persistence^k`.
  */
  function OctaveSum(c: SimplexConfig, x: real, y: real, z: real,
                     kernel: (real, real, real, int32, LatticeOrientation, NoiseQualitySimplex) -> real,
                     makeInt32Range: real -> real, n: nat): real
    requires n <= MAX_VALUE
  {
    if n == 0 then 0.0
    else OctaveSum(c, x, y, z, kernel, makeInt32Range, n - 1)
         + Signal(c, kernel, OctaveInputAt(c, x, y, z, makeInt32Range, n - 1)) * Pow(c.persistence, n - 1)
  }

  /**
    Octave `k` samples the kernel at its scaled coordinates, each brought into
    the 32-bit range, with the seed `seed + k`; adding that sample, weighted by
    `persistence^k`, to the sum of octaves `0..k-1` gives the sum of `0..k`.
  */
  lemma OctaveSumStep(c: SimplexConfig, x: real, y: real, z: real,
                      kernel: (real, real, real, int32, LatticeOrientation, NoiseQualitySimplex) -> real,
                      makeInt32Range: real -> real, k: nat, next: nat,
                      x1: real, y1: real, z1: real, seed: int32, signal: real, weight: real,
                      sum: real, extended: real)
    requires k < MAX_VALUE
    requires x1 == Scaled(x, c.frequency, c.lacunarity, k)
    requires y1 == Scaled(y, c.frequency, c.lacunarity, k)
    requires z1 == Scaled(z, c.frequency, c.lacunarity, k)
    requires seed == Add(c.seed, k as int32)
    requires signal == kernel(makeInt32Range(x1), makeInt32Range(y1), makeInt32Range(z1), seed,
                              c.latticeOrientation, c.noiseQuality)
    requires weight == Pow(c.persistence, k)
    requires sum == OctaveSum(c, x, y, z, kernel, makeInt32Range, k)
    requires next == k + 1 && extended == sum + signal * weight
    ensures extended == OctaveSum(c, x, y, z, kernel, makeInt32Range, next)
  {
  }

  /**
    The state the octave loop of `GetValue` has reached after `k` octaves: the
    coordinates scaled for octave `k`, the weight of octave `k` and the sum of
    octaves `0..k-1`.
  */
  ghost predicate AtOctave(c: SimplexConfig, x: real, y: real, z: real,
                           kernel: (real, real, real, int32, LatticeOrientation, NoiseQualitySimplex) -> real,
                           makeInt32Range: real -> real, k: nat,
                           x1: real, y1: real, z1: real, curPersistence: real, value: real)
  {
    && k <= MAX_VALUE
    && x1 == Scaled(x, c.frequency, c.lacunarity, k)
    && y1 == Scaled(y, c.frequency, c.lacunarity, k)
    && z1 == Scaled(z, c.frequency, c.lacunarity, k)
    && curPersistence == Pow(c.persistence, k)
    && value == OctaveSum(c, x, y, z, kernel, makeInt32Range, k)
  }

  /** One pass of the loop body takes the state after `k` octaves to the state after `k + 1`. */
  lemma AtOctaveNext(c: SimplexConfig, x: real, y: real, z: real,
                     kernel: (real, real, real, int32, LatticeOrientation, NoiseQualitySimplex) -> real,
                     makeInt32Range: real -> real, k: nat, next: nat,
                     x1: real, y1: real, z1: real, curPersistence: real, value: real, seed: int32, signal: real)
    requires AtOctave(c, x, y, z, kernel, makeInt32Range, k, x1, y1, z1, curPersistence, value)
    requires k < MAX_VALUE && next == k + 1
    requires seed == Add(c.seed, k as int32)
    requires signal == kernel(makeInt32Range(x1), makeInt32Range(y1), makeInt32Range(z1), seed,
                              c.latticeOrientation, c.noiseQuality)
    ensures AtOctave(c, x, y, z, kernel, makeInt32Range, next,
                     x1 * c.lacunarity, y1 * c.lacunarity, z1 * c.lacunarity,
                     curPersistence * c.persistence, value + signal * curPersistence)
  {
    ScaledStep(x, c.frequency, c.lacunarity, k, next, x1, x1 * c.lacunarity);
    ScaledStep(y, c.frequency, c.lacunarity, k, next, y1, y1 * c.lacunarity);
    ScaledStep(z, c.frequency, c.lacunarity, k, next, z1, z1 * c.lacunarity);
    PowStep(c.persistence, k, next, curPersistence, curPersistence * c.persistence);
    OctaveSumStep(c, x, y, z, kernel, makeInt32Range, k, next, x1, y1, z1, seed, signal,
                  curPersistence, value, value + signal * curPersistence);
  }

  /** A kernel whose every value lies in `[0, 1]`, the range the kernel documents. */
  ghost predicate UnitRange(kernel: (real, real, real, int32, LatticeOrientation, NoiseQualitySimplex) -> real) {
    forall x, y, z, s, o, q :: 0.0 <= kernel(x, y, z, s, o, q) <= 1.0
  }

  /**
    With kernel values in `[0, 1]` and a non-negative persistence, the sum of
    `n` octaves lies between 0 and the sum of the `n` octave weights.
  */
  lemma {:induction false} OctaveSumBounds(c: SimplexConfig, x: real, y: real, z: real,
                                           kernel: (real, real, real, int32, LatticeOrientation, NoiseQualitySimplex) -> real,
                                           makeInt32Range: real -> real, n: nat)
    requires n <= MAX_VALUE
    requires UnitRange(kernel)
    requires c.persistence >= 0.0
    ensures 0.0 <= OctaveSum(c, x, y, z, kernel, makeInt32Range, n) <= GeometricSum(c.persistence, n)
  {
    if n > 0 {
      OctaveSumBounds(c, x, y, z, kernel, makeInt32Range, n - 1);
      PowNonNegative(c.persistence, n - 1);
      SignalInUnit(c, kernel, OctaveInputAt(c, x, y, z, makeInt32Range, n - 1));
      OctaveSumLast(c, x, y, z, kernel, makeInt32Range, n);
      BoundsStep(OctaveSum(c, x, y, z, kernel, makeInt32Range, n - 1), GeometricSum(c.persistence, n - 1),
                 Signal(c, kernel, OctaveInputAt(c, x, y, z, makeInt32Range, n - 1)), Pow(c.persistence, n - 1));
    }
  }

  /**
    The generator's documented ceiling: with kernel values in `[0, 1]` and a
    non-negative persistence, the octave sum of a valid configuration lies
    between 0 and the maximum value.
  */
  lemma OctaveSumWithinMaxValue(c: SimplexConfig, x: real, y: real, z: real,
                                kernel: (real, real, real, int32, LatticeOrientation, NoiseQualitySimplex) -> real,
                                makeInt32Range: real -> real)
    requires ValidConfig(c)
    requires UnitRange(kernel)
    requires c.persistence >= 0.0
    ensures 0.0 <= OctaveSum(c, x, y, z, kernel, makeInt32Range, c.octaveCount as nat)
              <= MaxValue(c.persistence, c.octaveCount as nat)
  {
    OctaveSumBounds(c, x, y, z, kernel, makeInt32Range, c.octaveCount as nat);
  }

  /** The sum of `n > 0` octaves is the sum of the first `n - 1` plus the last weighted sample. */
  lemma OctaveSumLast(c: SimplexConfig, x: real, y: real, z: real,
                      kernel: (real, real, real, int32, LatticeOrientation, NoiseQualitySimplex) -> real,
                      makeInt32Range: real -> real, n: nat)
    requires 0 < n <= MAX_VALUE
    ensures OctaveSum(c, x, y, z, kernel, makeInt32Range, n)
            == OctaveSum(c, x, y, z, kernel, makeInt32Range, n - 1)
               + Signal(c, kernel, OctaveInputAt(c, x, y, z, makeInt32Range, n - 1)) * Pow(c.persistence, n - 1)
  {
  }

  /** A unit-range kernel gives a signal in `[0, 1]` at every input. */
  lemma SignalInUnit(c: SimplexConfig,
                     kernel: (real, real, real, int32, LatticeOrientation, NoiseQualitySimplex) -> real,
                     input: OctaveInput)
    requires UnitRange(kernel)
    ensures 0.0 <= Signal(c, kernel, input) <= 1.0
  {
  }

  /** Adding a unit-range sample of weight `w` keeps a partial sum below its partial weight. */
  lemma BoundsStep(sum: real, weights: real, s: real, w: real)
    requires 0.0 <= sum <= weights
    requires 0.0 <= s <= 1.0 && 0.0 <= w
    ensures 0.0 <= sum + s * w <= weights + w
  {
    UnitTimesWeight(s, w);
  }

  lemma UnitTimesWeight(s: real, w: real)
    requires 0.0 <= s <= 1.0 && 0.0 <= w
    ensures 0.0 <= s * w <= w
  {
  }

  class Simplex {
    var frequency: real
    var lacunarity: real
    var latticeOrientation: LatticeOrientation
    var noiseQuality: NoiseQualitySimplex
    var octaveCount: int32
    var persistence: real
    var seed: int32

    /** The current values of the fields. */
    function Config(): SimplexConfig
      reads this
    {
      SimplexConfig(frequency, lacunarity, latticeOrientation, noiseQuality, octaveCount, persistence, seed)
    }

    predicate Valid()
      reads this
    {
      ValidConfig(Config())
    }

    /** A generator with the default configuration and no source modules. */
    constructor ()
      ensures Config() == DEFAULT_CONFIG
      ensures Valid()
    {
      frequency := DEFAULT_SIMPLEX_FREQUENCY;
      lacunarity := DEFAULT_SIMPLEX_LACUNARITY;
      latticeOrientation := DEFAULT_SIMPLEX_ORIENTATION;
      noiseQuality := DEFAULT_SIMPLEX_QUALITY;
      octaveCount := DEFAULT_SIMPLEX_OCTAVE_COUNT;
      persistence := DEFAULT_SIMPLEX_PERSISTENCE;
      seed := DEFAULT_SIMPLEX_SEED;
    }

    method SetFrequency(frequency: real)
      modifies this
      ensures Config() == old(Config()).(frequency := frequency)
    {
      this.frequency := frequency;
    }

    method SetLacunarity(lacunarity: real)
      modifies this
      ensures Config() == old(Config()).(lacunarity := lacunarity)
    {
      this.lacunarity := lacunarity;
    }

    method SetLatticeOrientation(latticeOrientation: LatticeOrientation)
      modifies this
      ensures Config() == old(Config()).(latticeOrientation := latticeOrientation)
    {
      this.latticeOrientation := latticeOrientation;
    }

    method SetNoiseQuality(noiseQuality: NoiseQualitySimplex)
      modifies this
      ensures Config() == old(Config()).(noiseQuality := noiseQuality)
    {
      this.noiseQuality := noiseQuality;
    }

    /**
      Accepts exactly the counts `1..30`; any other count is an
      `IllegalArgumentException` that leaves the generator unchanged. Either way
      the generator stays valid.
    */
    method SetOctaveCount(octaveCount: int32) returns (o: Outcome<ConfigError>)
      modifies this
      ensures o == Pass <==> 1 <= octaveCount <= SIMPLEX_MAX_OCTAVE
      ensures o == Pass ==> Config() == old(Config()).(octaveCount := octaveCount)
      ensures o != Pass ==> o == Fail(IllegalArgumentException) && Config() == old(Config())
      ensures old(Valid()) ==> Valid()
    {
      if octaveCount < 1 || octaveCount > SIMPLEX_MAX_OCTAVE {
        return Fail(IllegalArgumentException);
      }
      this.octaveCount := octaveCount;
      o := Pass;
    }

    method SetPersistence(persistence: real)
      modifies this
      ensures Config() == old(Config()).(persistence := persistence)
    {
      this.persistence := persistence;
    }

    method SetSeed(seed: int32)
      modifies this
      ensures Config() == old(Config()).(seed := seed)
    {
      this.seed := seed;
    }

    /**
      The largest value `GetValue` can return: the sum of the octave weights
      `1 + p + ... + p^(octaveCount - 1)`. This is the intended value of the
      written formula, which is NaN at persistence 1.
    */
    function GetMaxValue(): (r: real)
      reads this
      requires Valid()
      ensures r == GeometricSum(persistence, octaveCount as nat)
      ensures persistence != 1.0 ==> MaxValueAsWritten(persistence, octaveCount as nat) == Finite(r)
    {
      MaxValue(persistence, octaveCount as nat)
    }

    /** The generator reads no source module. */
    function GetSourceModuleCount(): (n: int32)
      ensures n == 0
    {
      0
    }

    /**
      Sums `octaveCount` octaves of the kernel: octave `k` samples it at the
      coordinates scaled by `frequency * lacunarity^k` and brought into the
      32-bit range, with seed `seed + k`, and weights the sample by
      `persistence^k`. `OctaveSumWithinMaxValue` bounds the result by
      `GetMaxValue()`.
    */
    method GetValue(x: real, y: real, z: real,
                    kernel: (real, real, real, int32, LatticeOrientation, NoiseQualitySimplex) -> real,
                    makeInt32Range: real -> real)
      returns (value: real)
      requires Valid()
      ensures value == OctaveSum(Config(), x, y, z, kernel, makeInt32Range, octaveCount as nat)
    {
      var c := Config();
      var x1, y1, z1 := x, y, z;
      value := 0.0;
      var curPersistence := 1.0;

      x1 := x1 * c.frequency;
      y1 := y1 * c.frequency;
      z1 := z1 * c.frequency;

      var curOctave: int32 := 0;
      while curOctave < c.octaveCount
        invariant 0 <= curOctave <= c.octaveCount
        invariant AtOctave(c, x, y, z, kernel, makeInt32Range, curOctave as nat, x1, y1, z1, curPersistence, value)
      {
        var nx := makeInt32Range(x1);
        var ny := makeInt32Range(y1);
        var nz := makeInt32Range(z1);

        var octaveSeed := Add(c.seed, curOctave);
        var signal := kernel(nx, ny, nz, octaveSeed, c.latticeOrientation, c.noiseQuality);
        AtOctaveNext(c, x, y, z, kernel, makeInt32Range, curOctave as nat, curOctave as nat + 1,
                     x1, y1, z1, curPersistence, value, octaveSeed, signal);
        value := value + signal * curPersistence;

        x1 := x1 * c.lacunarity;
        y1 := y1 * c.lacunarity;
        z1 := z1 * c.lacunarity;
        curPersistence := curPersistence * c.persistence;
        curOctave := curOctave + 1;
      }
    }
  }
}

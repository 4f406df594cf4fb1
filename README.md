# Coherent noise: hashing, source slots, the Simplex octave loop and ScaleBias

This project models the core of a Java coherent-noise library and proves
properties of the model. It covers four parts.

- **`Noise` kernels** (`noise.dfy`):
  - the 32-bit integer hash behind `intValueNoise3D` and `valueNoise3D`;
  - the gradient-vector index and its reads from a 256 x 4 table;
  - gradient noise at one vertex;
  - the lattice-base rule `(v > 0) ? (int) v : (int) v - 1` and the eight vertices `gradientCoherentNoise3D` samples;
  - the octant index that starts the walk of simplex-style noise.
- **`NoiseModule` source slots** (`noise_module.dfy`): a fixed-length array of nullable module references, with a bounds-checked read and a bounds-checked write.
- **The `Simplex` generator** (`simplex.dfy`):
  - its configuration, with the `[1, 30]` octave-count invariant;
  - the octave loop of `getValue`, with the kernel and `Utils.makeInt32Range` passed in as functions;
  - the geometric-series ceiling `getMaxValue`.
- **The `ScaleBias` modifier** (`scale_bias.dfy`): one source slot and the affine map `source * scale + bias`.

Java `int` arithmetic is modelled exactly (`java_int.dfy`):
- values are `int32`;
- the hashes work on `bv32`, whose `*`, `+` and `^` wrap as Java's do;
- `>>` is the arithmetic shift `AShr`;
- `+` and `-` wrap (`Add`, `Sub`, proved equal to reduction modulo 2^32);
- `(int)` truncates toward zero.

Doubles are modelled as `real`. `Result` and `Outcome` (`wrappers.dfy`) carry the exceptions the code throws.

`getValue` is modelled as an imperative loop. Its postcondition ties the result to the function `OctaveSum`. For octaves `k < octaveCount`, `OctaveSum` is the sum of the kernel's value at that octave's input, weighted by `persistence^k`. The input of octave `k` is:
- each coordinate scaled by `frequency * lacunarity^k` and passed through `makeInt32Range`;
- the seed `seed + k`, wrapped.

The bound the documentation promises (`getValue <= getMaxValue`) is proved about `OctaveSum`.

The code names the three lattice orientations `CLASSIC` (Noise.java line 68), `XY_BEFORE_Z` (line 71) and `XZ_BEFORE_Y` (the final branch, line 77); the model calls them `Classic`, `XyBeforeZ` and `XzBeforeY`.

## Model

| member | source | states |
|---|---|---|
| JavaInt.Wrap | src/main/java/org/spongepowered/noise/module/source/Simplex.java:181 | the reduced value differs from the mathematical one by a multiple of 2^32 and is that value when it is already an `int` |
| JavaInt.AddIsWrap | src/main/java/org/spongepowered/noise/module/source/Simplex.java:181 | Java's wrapping `int` addition keeps the low 32 bits of the mathematical sum |
| JavaInt.SubIsWrap | src/main/java/org/spongepowered/noise/Noise.java:152 | the `- 1` of the lattice-base rule keeps the low 32 bits of the mathematical difference |
| JavaInt.AShr | src/main/java/org/spongepowered/noise/Noise.java:246 | `>>` is the logical shift on non-negative values and fills the vacated bits with ones on negative values |
| JavaInt.AShrValue | src/main/java/org/spongepowered/noise/Noise.java:246 | on a negative value `>>` is exactly the logical shift with the `k` vacated high bits set |
| JavaInt.Truncate | src/main/java/org/spongepowered/noise/Noise.java:152 | `(int)` rounds toward zero: below the value for positive inputs, above it for negative ones, by less than 1 |
| JavaInt.CastToInt | src/main/java/org/spongepowered/noise/Noise.java:152 | the cast rounds toward zero: it is within 1 of its argument, not above a non-negative argument, not below a non-positive one, and non-negative exactly when the argument exceeds -1 |
| Noise.IntValueNoise3D | src/main/java/org/spongepowered/noise/Noise.java:281-287 | for every `int` x, y, z and seed, under wraparound, the result lies in 0..2147483647 |
| Noise.AvalancheInputNonNegative | src/main/java/org/spongepowered/noise/Noise.java:284-285 | after the first mask `n` is below 2^31, so `n >> 13` is the logical shift and `(n >> 13) ^ n` stays below 2^31 |
| Noise.ValueNoise3D | src/main/java/org/spongepowered/noise/Noise.java:372-374 | value noise lies in [0, 1] |
| Noise.VectorIndex | src/main/java/org/spongepowered/noise/Noise.java:245-247 | the gradient-vector index is in 0..255 |
| Noise.VectorIndexIgnoresSignFill | src/main/java/org/spongepowered/noise/Noise.java:246-247 | the mask discards every bit the arithmetic shift fills, so the index equals the one computed with a logical shift |
| Noise.GradientReadsInOneBlock | src/main/java/org/spongepowered/noise/Noise.java:249-251 | the reads at `(i << 2)`, `+ 1` and `+ 2` are distinct, lie in block `i` of four entries, and are all below 1024 |
| Noise.GradientVectorIsBlock | src/main/java/org/spongepowered/noise/Noise.java:249-251 | the gradient is made of exactly those three in-bounds reads of a 1024-entry table |
| Noise.GradientNoise3D | src/main/java/org/spongepowered/noise/Noise.java:241-263 | its precondition is the documented caller contract: the point is within one unit of the vertex on each axis |
| Noise.GradientNoiseBounds | src/main/java/org/spongepowered/noise/Noise.java:255-262 | the value differs from 0.5 by at most the sum of the magnitudes of the gradient's components, which gives the documented range [0, 1] for gradients whose components sum to at most 0.5 in magnitude |
| Noise.GradientNoiseAtVertex | src/main/java/org/spongepowered/noise/Noise.java:255-262 | at the vertex itself gradient noise is 0.5, whatever the gradient |
| Noise.LatticeBase | src/main/java/org/spongepowered/noise/Noise.java:152-159 | `v - b` lies in [0, 1] and `v - (b + 1)` in [-1, 0], and `b + 1` does not overflow |
| Noise.LatticeBaseVersusFloor | src/main/java/org/spongepowered/noise/Noise.java:152-158 | the rule equals `floor(v)`, except at non-positive integers, where it is `floor(v) - 1` |
| Noise.LatticeEdgesWrap | src/main/java/org/spongepowered/noise/Noise.java:152-153 | for every coordinate in `[2147483647, 2147483648)` or `(-2147483649, -2147483648]`, the in-range doubles the lattice rule is not modelled for, the upper corner `x0 + 1` or the base `(int) v - 1` wraps around, leaving a corner more than one unit from the point |
| Noise.CubeCorners | src/main/java/org/spongepowered/noise/Noise.java:183-195 | the vertex schedule has eight entries |
| Noise.CubeCornersMembers | src/main/java/org/spongepowered/noise/Noise.java:183-195 | the sampled vertices are exactly `{x0, x1} x {y0, y1} x {z0, z1}` |
| Noise.CubeCornersDistinct | src/main/java/org/spongepowered/noise/Noise.java:183-195 | no vertex is sampled twice |
| Noise.CornersNearPoint | src/main/java/org/spongepowered/noise/Noise.java:206-209 | every sampled vertex is within one unit of the point on each axis, the documented precondition of `gradientNoise3D` |
| Noise.CornerSamplesInOrder | src/main/java/org/spongepowered/noise/Noise.java:183-195 | the eight samples written out in the source are a function's values at the corners of `CubeCorners`, one per corner, in that order |
| Noise.CellCornerValuesAtCorners | src/main/java/org/spongepowered/noise/Noise.java:183-195 | entry `k` of the corner values is gradient noise at corner `k` of the cell, and that corner is within one unit of the point |
| Noise.InterpolantIsWeight | src/main/java/org/spongepowered/noise/Noise.java:163-176 | for every quality the interpolant is in [0, 1], given S-curves that keep the unit interval |
| Noise.TrilinearWithinCorners | src/main/java/org/spongepowered/noise/Noise.java:185-198 | seven convex interpolations with weights in [0, 1] stay within the range of the eight corner values |
| Noise.GradientCoherentNoise3D | src/main/java/org/spongepowered/noise/Noise.java:147-199 | the result is the trilinear interpolation of the eight corner values with the quality's interpolants, each corner value being gradient noise at the next corner of the cell in call order, and every call meeting the documented precondition of `gradientNoise3D` |
| Noise.GradientCoherentNoiseWithinCorners | src/main/java/org/spongepowered/noise/Noise.java:147-199 | gradient coherent noise lies between the smallest and the largest corner value |
| Noise.HalfBit | src/main/java/org/spongepowered/noise/Noise.java:95-97 | `(int)(o + 0.5)` of an offset in [0, 1] is 1 from one half up and 0 below |
| Noise.OctantIndex | src/main/java/org/spongepowered/noise/Noise.java:98 | the packed index is in 0..7 and each bit reads back, so the packing is injective |
| Noise.SimplexLookupStart | src/main/java/org/spongepowered/noise/Noise.java:86-102 | the first lattice point is the lookup-table entry at the octant index of the point's offsets from its cell base, read in bounds |
| Noise.SimplexVertexIndex | src/main/java/org/spongepowered/noise/Noise.java:111-116 | the simplex-style kernel hashes a vertex exactly as the gradient kernel does, into 0..255 |
| NoiseModules.NoiseModule.constructor | src/main/java/org/spongepowered/noise/module/NoiseModule.java:246-252 | the count is the argument when positive and 0 otherwise, and every slot starts empty |
| NoiseModules.NoiseModule.SourceModule | src/main/java/org/spongepowered/noise/module/NoiseModule.java:267-272 | `NoModuleException(index)` exactly when the index is out of range or the slot is empty, and the stored module otherwise |
| NoiseModules.NoiseModule.SetSourceModule | src/main/java/org/spongepowered/noise/module/NoiseModule.java:300-308 | a module with no slots ignores the call. An out-of-range index is an `IllegalArgumentException` that changes nothing. An in-range index overwrites that slot only, and reading it back gives the module stored there. The count never changes |
| NoiseModules.NoiseModule.SourceModuleCount | src/main/java/org/spongepowered/noise/module/NoiseModule.java:315-317 | the count is the number of slots; the constructor and `SetSourceModule` state its value and that writes keep it |
| SimplexSource.Simplex.constructor | src/main/java/org/spongepowered/noise/module/source/Simplex.java:44-76 | the defaults: frequency 1.0, lacunarity 2.0, octave count 6, persistence 0.5, seed 0, orientation XZ_BEFORE_Y, quality STANDARD |
| SimplexSource.DefaultMaxValue | src/main/java/org/spongepowered/noise/module/source/Simplex.java:44-58 | the default configuration satisfies the octave-count invariant, and its ceiling is 1.96875 |
| SimplexSource.Simplex.SetFrequency | src/main/java/org/spongepowered/noise/module/source/Simplex.java:82-84 | stores the frequency and changes no other field |
| SimplexSource.Simplex.SetLacunarity | src/main/java/org/spongepowered/noise/module/source/Simplex.java:90-92 | stores the lacunarity and changes no other field |
| SimplexSource.Simplex.SetLatticeOrientation | src/main/java/org/spongepowered/noise/module/source/Simplex.java:98-100 | stores the orientation and changes no other field |
| SimplexSource.Simplex.SetNoiseQuality | src/main/java/org/spongepowered/noise/module/source/Simplex.java:106-108 | stores the quality and changes no other field |
| SimplexSource.Simplex.SetOctaveCount | src/main/java/org/spongepowered/noise/module/source/Simplex.java:114-120 | accepts exactly 1..30. Any other count is an `IllegalArgumentException` that changes nothing. `1 <= octaveCount <= 30` is preserved |
| SimplexSource.Simplex.SetPersistence | src/main/java/org/spongepowered/noise/module/source/Simplex.java:126-128 | stores the persistence and changes no other field |
| SimplexSource.Simplex.SetSeed | src/main/java/org/spongepowered/noise/module/source/Simplex.java:134-136 | stores the seed and changes no other field |
| SimplexSource.Simplex.GetSourceModuleCount | src/main/java/org/spongepowered/noise/module/source/Simplex.java:151-154 | the generator has no sources |
| SimplexSource.GeometricClosedForm | src/main/java/org/spongepowered/noise/module/source/Simplex.java:145-148 | `(1 + p + ... + p^(n-1)) * (p - 1) == p^n - 1`, the identity the formula relies on |
| SimplexSource.GeometricSumAtOne | src/main/java/org/spongepowered/noise/module/source/Simplex.java:163 | at persistence 1 every weight stays 1.0, so `n` octaves weigh `n` |
| SimplexSource.MaxValueAsWritten | src/main/java/org/spongepowered/noise/module/source/Simplex.java:148 | the written formula is a number whenever the persistence is not 1 |
| SimplexSource.MaxValueAsWrittenAwayFromOne | src/main/java/org/spongepowered/noise/module/source/Simplex.java:142-149 | away from persistence 1 the formula equals `1 + p + ... + p^(o-1)`: the series starts at weight 1, not at `p` as the comment at line 145 says |
| SimplexSource.MaxValueAsWrittenAtUnitPersistence | src/main/java/org/spongepowered/noise/module/source/Simplex.java:148 | at persistence 1 the formula is NaN, while the octave weights sum to the octave count, at least 1 |
| SimplexSource.MaxValue | src/main/java/org/spongepowered/noise/module/source/Simplex.java:138-149 | the ceiling is the sum of the octave weights, and it agrees with the written formula wherever that formula is a number |
| SimplexSource.Simplex.GetMaxValue | src/main/java/org/spongepowered/noise/module/source/Simplex.java:142-149 | the sum of the weights of the configured octaves, equal to the written formula whenever the persistence is not 1 |
| SimplexSource.PowStep | src/main/java/org/spongepowered/noise/module/source/Simplex.java:189 | multiplying the weight by the persistence turns `p^k` into `p^(k+1)` |
| SimplexSource.ScaledStep | src/main/java/org/spongepowered/noise/module/source/Simplex.java:186-188 | multiplying by the lacunarity turns the octave-`k` coordinate into the octave-`k+1` coordinate |
| SimplexSource.OctaveSeedIsWrap | src/main/java/org/spongepowered/noise/module/source/Simplex.java:181 | octave `k` uses the seed `seed + k`, wrapped to 32 bits |
| SimplexSource.OctaveSeedsDistinct | src/main/java/org/spongepowered/noise/module/source/Simplex.java:181 | no two octaves get the same seed |
| SimplexSource.OctaveSumStep | src/main/java/org/spongepowered/noise/module/source/Simplex.java:175-183 | adding octave `k`'s weighted kernel value to the sum of octaves `0..k-1` gives the sum of octaves `0..k` |
| SimplexSource.AtOctaveNext | src/main/java/org/spongepowered/noise/module/source/Simplex.java:171-190 | one pass of the loop body moves the loop state from octave `k` to octave `k + 1` |
| SimplexSource.Simplex.GetValue | src/main/java/org/spongepowered/noise/module/source/Simplex.java:157-193 | the result is the sum over `k < octaveCount` of the kernel at octave `k`'s input, weighted by `persistence^k` |
| SimplexSource.OctaveSumBounds | src/main/java/org/spongepowered/noise/module/source/Simplex.java:183 | with kernel values in [0, 1] and a non-negative persistence, partial sums lie between 0 and the partial sum of the weights |
| SimplexSource.OctaveSumWithinMaxValue | src/main/java/org/spongepowered/noise/module/source/Simplex.java:138-141 | the octave sum of a valid configuration lies between 0 and the ceiling `getMaxValue` returns, as its documentation promises |
| ScaleBiasModifier.ScaleBias.constructor | src/main/java/net/royawesome/jlibnoise/module/modifier/ScaleBias.java:33-44 | scale 1.0, bias 0.0, and exactly one source slot, empty |
| ScaleBiasModifier.ScaleBias.GetBias | src/main/java/net/royawesome/jlibnoise/module/modifier/ScaleBias.java:46-48 | the bias, the value `SetBias` stores and `SetScale` keeps |
| ScaleBiasModifier.ScaleBias.GetScale | src/main/java/net/royawesome/jlibnoise/module/modifier/ScaleBias.java:54-56 | the scale, the value `SetScale` stores and `SetBias` keeps |
| ScaleBiasModifier.ScaleBias.SetBias | src/main/java/net/royawesome/jlibnoise/module/modifier/ScaleBias.java:50-52 | stores the bias and leaves the scale and the slot unchanged |
| ScaleBiasModifier.ScaleBias.SetScale | src/main/java/net/royawesome/jlibnoise/module/modifier/ScaleBias.java:58-60 | stores the scale and leaves the bias and the slot unchanged |
| ScaleBiasModifier.ScaleBias.GetSourceModuleCount | src/main/java/net/royawesome/jlibnoise/module/modifier/ScaleBias.java:62-65 | the count is the number of slots, one |
| ScaleBiasModifier.ScaleBias.GetValue | src/main/java/net/royawesome/jlibnoise/module/modifier/ScaleBias.java:67-74 | `NoModuleException` exactly when slot 0 is empty. Otherwise the source's value at the same coordinates, scaled and biased |
| ScaleBiasModifier.ScaleBias.GetValueAtDefaults | src/main/java/net/royawesome/jlibnoise/module/modifier/ScaleBias.java:73 | with the default scale and bias the modifier returns its source's value |
| ScaleBiasModifier.AffineAtDefaults | src/main/java/net/royawesome/jlibnoise/module/modifier/ScaleBias.java:33-35 | scale 1 and bias 0 make the map the identity |

## Left out

- Floating point: every `double` is a `real`, so rounding, overflow to infinity and NaN are not modelled. The exception is the one NaN `getMaxValue` produces; see "Findings".
- `Utils.linearInterp`, `Utils.sCurve3`, `Utils.sCurve5`, `Utils.makeInt32Range`, `Utils.RANDOM_VECTORS_PERLIN` and `Math.pow` are defined in `Utils.java` and `java.lang.Math`, outside this model.
  - The first four are function parameters.
  - The gradient table is a parameter of length 1024.
  - `Math.pow` is the exact power `Pow`.
- The orthonormal rotations of simplex-style noise (Noise.java lines 66-83), because they are floating-point constants only.
- The lattice-point walk of simplex-style noise (Noise.java lines 100-127). It follows links in `Utils.LatticePointBCC` tables defined in `Utils.java`, outside this model, and its termination depends on their data. The model covers what leads up to it (the octant index and the table lookup) and the vertex hash inside it. The attenuation sum is left out.
- `valueCoherentNoise3D`: the same cell and interpolation scheme as `gradientCoherentNoise3D`, without a property of its own beyond those proved there.
- Java's `(int)` cast saturation for doubles outside the `int` range. The lattice-base rule is modelled for coordinates strictly inside the `int` range; the line for `Noise.LatticeBase` below says what happens at its edges.
- Noise.LatticeBase: modelled only for `LatticeSafe` coordinates, strictly between `Integer.MIN_VALUE` and `Integer.MAX_VALUE`. On the in-range doubles left out, `[2147483647, 2147483648)` and `(-2147483649, -2147483648]`, the source's `x0 + 1` or `(int) v - 1` wraps around and the cell is no longer around the point, which breaks the documented precondition of `gradientNoise3D` (lemma `Noise.LatticeEdgesWrap`). Direct callers of the public `gradientCoherentNoise3D` can pass such coordinates.
- Noise.GradientCoherentNoise3D: requires `LatticeSafe` coordinates, which excludes the two edge intervals named in the line above; on those the source wraps around (`Noise.LatticeEdgesWrap`) and the method is not modelled.
- Noise.CubeCorners: `x0 + 1` is not wrapped; on `LatticeSafe` coordinates the lattice base is below `Integer.MAX_VALUE`.
- The shared `EMPTY_MODULE_ARRAY` of zero-arity modules: each module gets its own empty array, since an empty array has nothing to alias.
- Exception messages. Only the exception kind and the index carried by `NoModuleException(index)` are modelled.
- `get`/`GetValue` recursion through a module graph, and the other module kinds named in `NoiseModule`'s documentation. A connected source of `ScaleBias` is modelled as the function it computes.
- The jlibnoise `Module` base class of `ScaleBias` is not part of this model.
  - It is assumed to allocate one empty slot for `super(1)`, as `NoiseModule`'s constructor does.
  - The slot is written directly, in place of the base class's setter.
  - Its `NoModuleException()` carries no index.
- ScaleBiasModifier.ScaleBias.GetValueAtDefaults: over `real` the defaults give back the source's value exactly. In IEEE arithmetic a source result of -0.0 comes back as +0.0.
- The getters of `Simplex` (`getFrequency` to `getSeed`). They return the fields, which the model reads through `Config()`.
- `NoiseQualitySimplex`: only `STANDARD` is named in `Simplex.java` (line 54); the enum's other levels are outside this model. The other levels are opaque (`OtherQuality`), and the kernel receives the level unchanged.
- SimplexSource.Simplex.GetValue: the result is stated as a value, not as a trace of kernel calls. The sum has exactly `octaveCount` terms, one per octave in order, each with the kernel's value at that octave's input. The order in which the kernel was called is not recorded.
- SimplexSource.Simplex.GetMaxValue: at persistence 1 it returns the octave count, where the source's formula gives NaN; `MaxValueAsWritten` models the formula as written (see "Findings").
- SimplexSource.Simplex.GetValue: reads the fields once, before the loop. The source reads them on every pass, which is the same because nothing in the loop writes them.
- Thread safety and the cost of evaluation.

## Findings

| source | as written | input that shows it | evidently intended | confidence | as-written member | corrected member |
|---|---|---|---|---|---|---|
| src/main/java/org/spongepowered/noise/module/source/Simplex.java:148 | `getMaxValue` returns `(pow(p, o) - 1) / (p - 1)` | persistence 1.0 with any octave count: `0.0 / 0.0` is NaN | the sum of the octave weights, `1 + p + ... + p^(o-1)`, which is `o` at persistence 1, the ceiling `getValue` actually respects | not executed | SimplexSource.MaxValueAsWrittenAtUnitPersistence | SimplexSource.MaxValue |

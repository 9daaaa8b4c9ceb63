/** Costella's "magic kernel" resampler: the 1-3 / 1-3-3-1 combiners behind 2x
    upsampling and downsampling, the index maps of those two loops, and the
    construction of general resampling kernels with their normalised weights.
    Doubles are modelled as exact reals. */
module MagicKernel {
  import opened Rounding

  newtype byte = x: int | 0 <= x < 256

  function Min2(a: int, b: int): int { if a <= b then a else b }
  function Max2(a: int, b: int): int { if a <= b then b else a }
  function Min4(a: int, b: int, c: int, d: int): int { Min2(Min2(a, b), Min2(c, d)) }
  function Max4(a: int, b: int, c: int, d: int): int { Max2(Max2(a, b), Max2(c, d)) }

  function MinR(a: real, b: real): real { if a <= b then a else b }
  function MaxR(a: real, b: real): real { if a <= b then b else a }

  // ----- Combiners -----
  // On `int`, `x >> n` is an arithmetic shift, i.e. division by 2^n rounded down;
  // Dafny's `/` by a positive literal rounds down as well.

  /** C#'s `int`: 32-bit two's complement. */
  newtype int32 = x: int | -0x8000_0000 <= x < 0x8000_0000

  predicate Fits32(x: int)
  {
    -0x8000_0000 <= x < 0x8000_0000
  }

  /** Unchecked `int` arithmetic: the exact result reduced modulo 2^32 into the
      `int` range. Every step of a sum wraps the same way, so wrapping once at the
      end gives the C# value. */
  function Wrap32(x: int): (r: int32)
    ensures (r as int - x) % 0x1_0000_0000 == 0
    ensures Fits32(x) ==> r as int == x
  {
    ((x + 0x8000_0000) % 0x1_0000_0000 - 0x8000_0000) as int32
  }

  /** Integer 1-3 combiner `(a + 3b + 2) >> 2`: while the sum fits in an `int` it is
      (a + 3b)/4 rounded to the nearest integer, ties upward, and lies between a
      and b. */
  function C13(a: int32, b: int32): (r: int32)
    ensures Fits32(a as int + 3 * b as int + 2) ==>
              && 4 * r as int - 2 <= a as int + 3 * b as int < 4 * r as int + 2
              && Min2(a as int, b as int) <= r as int <= Max2(a as int, b as int)
    ensures a == b && Fits32(a as int + 3 * b as int + 2) ==> r == a
  {
    (Wrap32(a as int + 3 * b as int + 2) as int / 4) as int32
  }

  /** Integer 1-3-3-1 combiner `(a + 3(b + c) + d + 4) >> 3`: while the sum fits in an
      `int` it is the 1-3-3-1 mean rounded to the nearest integer, ties upward, and
      lies between the least and greatest input. */
  function C1331(a: int32, b: int32, c: int32, d: int32): (r: int32)
    ensures Fits32(a as int + 3 * (b as int + c as int) + d as int + 4) ==>
              && 8 * r as int - 4 <= a as int + 3 * (b as int + c as int) + d as int < 8 * r as int + 4
              && Min4(a as int, b as int, c as int, d as int) <= r as int <= Max4(a as int, b as int, c as int, d as int)
    ensures a == b == c == d && Fits32(a as int + 3 * (b as int + c as int) + d as int + 4) ==> r == a
  {
    (Wrap32(a as int + 3 * (b as int + c as int) + d as int + 4) as int / 8) as int32
  }

  /** Every input with |a|, |b| < 2^29 keeps the 1-3 sum inside `int`, and every input
      with all four magnitudes below 2^28 keeps the 1-3-3-1 sum inside it. */
  lemma CombinersFitBelow(a: int32, b: int32, c: int32, d: int32)
    requires -0x1000_0000 <= a < 0x1000_0000 && -0x1000_0000 <= b < 0x1000_0000
    requires -0x1000_0000 <= c < 0x1000_0000 && -0x1000_0000 <= d < 0x1000_0000
    ensures Fits32(a as int + 3 * b as int + 2)
    ensures Fits32(a as int + 3 * (b as int + c as int) + d as int + 4)
  {
  }

  /** Past that range the sum wraps: two equal inputs of 2^29 give -2^29 and not
      2^29, so the 1-3 combiner leaves the interval of its inputs. */
  lemma C13WrapsAround()
    ensures C13(0x2000_0000, 0x2000_0000) == -0x2000_0000
    ensures C1331(0x1000_0000, 0x1000_0000, 0x1000_0000, 0x1000_0000) == -0x1000_0000
  {
    assert Wrap32(0x8000_0002) as int == -0x7fff_fffe;
    assert Wrap32(0x8000_0004) as int == -0x7fff_fffc;
  }

  /** The `(byte)` cast of C#: keep the low eight bits. */
  function ToByte(x: int): byte
  {
    (x % 256) as byte
  }

  /** Byte 1-3 combiner: the sum is formed in `int` and cast back; the cast never truncates. */
  function C13Byte(a: byte, b: byte): (r: byte)
    ensures r as int == C13(a as int32, b as int32) as int
  {
    var sum := a as int + 3 * b as int + 2;
    assert 0 <= sum < 1024 && Wrap32(sum) as int == sum;
    ToByte(sum / 4)
  }

  /** Byte 1-3-3-1 combiner; the cast never truncates. */
  function C1331Byte(a: byte, b: byte, c: byte, d: byte): (r: byte)
    ensures r as int == C1331(a as int32, b as int32, c as int32, d as int32) as int
  {
    var sum := a as int + 3 * (b as int + c as int) + d as int + 4;
    assert 0 <= sum < 2048 && Wrap32(sum) as int == sum;
    ToByte(sum / 8)
  }

  /** Double 1-3 combiner. */
  function C13Real(a: real, b: real): (r: real)
    ensures MinR(a, b) <= r <= MaxR(a, b)
    ensures a == b ==> r == a
  {
    (a + 3.0 * b) / 4.0
  }

  /** Double 1-3-3-1 combiner. */
  function C1331Real(a: real, b: real, c: real, d: real): (r: real)
    ensures MinR(MinR(a, b), MinR(c, d)) <= r <= MaxR(MaxR(a, b), MaxR(c, d))
    ensures a == b == c == d ==> r == a
  {
    (a + 3.0 * (b + c) + d) / 8.0
  }

  /** While their sums fit in an `int`, the integer combiners are the double
      combiners rounded to within half a unit. */
  lemma IntCombinersRoundReal(a: int32, b: int32, c: int32, d: int32)
    ensures Fits32(a as int + 3 * b as int + 2) ==>
              -0.5 < C13(a, b) as real - C13Real(a as real, b as real) <= 0.5
    ensures Fits32(a as int + 3 * (b as int + c as int) + d as int + 4) ==>
              -0.5 < C1331(a, b, c, d) as real - C1331Real(a as real, b as real, c as real, d as real) <= 0.5
  {
    var r := C13(a, b) as int;
    if Fits32(a as int + 3 * b as int + 2) {
      assert 4 * r - 2 <= a as int + 3 * b as int < 4 * r + 2;
      assert 4.0 * r as real - 2.0 <= a as real + 3.0 * b as real < 4.0 * r as real + 2.0;
    }
    var s := C1331(a, b, c, d) as int;
    if Fits32(a as int + 3 * (b as int + c as int) + d as int + 4) {
      assert 8 * s - 4 <= a as int + 3 * (b as int + c as int) + d as int < 8 * s + 4;
      assert 8.0 * s as real - 4.0 <= a as real + 3.0 * (b as real + c as real) + d as real < 8.0 * s as real + 4.0;
    }
  }

  // ----- 2x upsampling and downsampling index maps -----
  // A destination sample i of the 2x upsample sits at source position i/2 - 1/4;
  // measured in quarter source samples that is 2i - 1. A destination sample i of
  // the 2x downsample sits at source position 2i + 1/2.

  /** `j = i >> 1`: the source sample a quarter sample away from output i. */
  function UpNear(i: nat): (j: int)
    ensures 4 * j - (2 * i - 1) == 1 || 4 * j - (2 * i - 1) == -1
  {
    i / 2
  }

  /** `k = j - 1 + ((i & 1) << 1)`: the source sample three quarters of a sample away
      from output i: j - 1 for even i, j + 1 for odd i. */
  function UpFar(i: nat): (k: int)
    ensures 4 * k - (2 * i - 1) == 3 || 4 * k - (2 * i - 1) == -3
    ensures i % 2 == 0 ==> k == UpNear(i) - 1
    ensures i % 2 == 1 ==> k == UpNear(i) + 1
  {
    i / 2 - 1 + (i % 2) * 2
  }

  /** The four source taps `2i-1 .. 2i+2` of downsampled output i, symmetric about 2i + 1/2. */
  function DownTaps(i: nat): (t: seq<int>)
    ensures |t| == 4
    ensures forall n :: 0 <= n < 4 ==> t[n] == 2 * i - 1 + n
    ensures t[0] + t[3] == 4 * i + 1 && t[1] + t[2] == 4 * i + 1
    ensures t[0] < 0 <==> i == 0
  {
    [2 * i - 1, 2 * i, 2 * i + 1, 2 * i + 2]
  }

  /** Every index the downsample reads: exactly the taps of some output. */
  lemma DownsampleReads(n: nat, s: int)
    ensures (exists i :: 0 <= i < n && s in DownTaps(i)) <==> (n > 0 && -1 <= s <= 2 * n)
  {
    if n > 0 && -1 <= s <= 2 * n {
      var i := if s <= 0 then 0 else if (s + 1) / 2 < n then (s + 1) / 2 else n - 1;
      assert DownTaps(i)[s - (2 * i - 1)] == s;
    }
  }

  function UpsampledAt<T>(src: int -> T, c13: (T, T) -> T, i: nat): T
  {
    c13(src(UpFar(i)), src(UpNear(i)))
  }

  function DownsampledAt<T>(src: int -> T, c1331: (T, T, T, T) -> T, i: nat): T
  {
    var t := DownTaps(i);
    c1331(src(t[0]), src(t[1]), src(t[2]), src(t[3]))
  }

  /** `Upsample`: the accessor's reads are `src` (which handles out-of-range indices),
      its writes go to `dest`, whose length is `DestLength`. `written` lists the
      destination indices in the order they are written. */
  method Upsample<T>(src: int -> T, c13: (T, T) -> T, dest: array<T>) returns (ghost written: seq<nat>)
    modifies dest
    ensures written == seq(dest.Length, i => i)
    ensures forall i :: 0 <= i < dest.Length ==> dest[i] == UpsampledAt(src, c13, i)
  {
    written := [];
    var i := 0;
    while i < dest.Length
      invariant 0 <= i <= dest.Length
      invariant written == seq(i, n => n)
      invariant forall n :: 0 <= n < i ==> dest[n] == UpsampledAt(src, c13, n)
    {
      var j := i / 2;
      var k := j - 1 + (i % 2) * 2;
      dest[i] := c13(src(k), src(j));
      written := written + [i];
      i := i + 1;
    }
  }

  /** `Downsample`: output i combines source samples 2i-1, 2i, 2i+1 and 2i+2. */
  method Downsample<T>(src: int -> T, c1331: (T, T, T, T) -> T, dest: array<T>) returns (ghost written: seq<nat>)
    modifies dest
    ensures written == seq(dest.Length, i => i)
    ensures forall i :: 0 <= i < dest.Length ==> dest[i] == DownsampledAt(src, c1331, i)
  {
    written := [];
    var i := 0;
    while i < dest.Length
      invariant 0 <= i <= dest.Length
      invariant written == seq(i, n => n)
      invariant forall n :: 0 <= n < i ==> dest[n] == DownsampledAt(src, c1331, n)
    {
      var j := i * 2;
      dest[i] := c1331(src(j - 1), src(j), src(j + 1), src(j + 2));
      written := written + [i];
      i := i + 1;
    }
  }

  // ----- The kernel shape -----

  /** `Weight`: the magic kernel, a piecewise quadratic that vanishes outside [-1.5, 1.5]. */
  function Weight(x: real): (r: real)
    ensures x < -1.5 || x > 1.5 ==> r == 0.0
  {
    if x < -1.5 || x > 1.5 then 0.0
    else if x < -0.5 then var z := x + 1.5; 0.5 * (z * z)
    else if x > 0.5 then var z := x - 1.5; 0.5 * (z * z)
    else 0.75 - x * x
  }

  lemma SquareBelow(z: real)
    requires 0.0 <= z <= 1.0
    ensures 0.0 <= z * z <= z
  {
    assert z * z <= z * 1.0;
  }

  lemma SquareAtMostQuarter(x: real)
    requires -0.5 <= x <= 0.5
    ensures 0.0 <= x * x <= 0.25
  {
    if x >= 0.0 {
      assert x * x <= x * 0.5;
    } else {
      assert x * x <= (-x) * 0.5;
    }
  }

  lemma WeightOuterPiece(x: real)
    requires -1.5 <= x < -0.5
    ensures Weight(-x) == Weight(x)
    ensures 0.0 <= Weight(x) <= 0.5
  {
    var z := x + 1.5;
    SquareBelow(z);
    assert Weight(x) == 0.5 * (z * z);
    assert Weight(-x) == 0.5 * ((-x - 1.5) * (-x - 1.5));
    assert (-x - 1.5) * (-x - 1.5) == z * z;
  }

  lemma WeightCentrePiece(x: real)
    requires -0.5 <= x <= 0.5
    ensures Weight(-x) == Weight(x)
    ensures 0.5 <= Weight(x) <= 0.75
  {
    SquareAtMostQuarter(x);
    assert Weight(x) == 0.75 - x * x;
    assert Weight(-x) == 0.75 - (-x) * (-x);
    assert (-x) * (-x) == x * x;
  }

  /** The kernel is even, lies between 0 and 3/4, and is at least 1/2 within half a
      sample of its centre. */
  lemma WeightShape(x: real)
    ensures Weight(-x) == Weight(x)
    ensures 0.0 <= Weight(x) <= 0.75
    ensures -0.5 <= x <= 0.5 ==> Weight(x) >= 0.5
  {
    if -1.5 <= x < -0.5 {
      WeightOuterPiece(x);
    } else if 0.5 < x <= 1.5 {
      WeightOuterPiece(-x);
    } else if -0.5 <= x <= 0.5 {
      WeightCentrePiece(x);
    }
  }

  /** `Step`: a smooth step falling from 1 (below -1) to 0 (from 1 on). */
  function Step(x: real): (r: real)
    ensures x < -1.0 ==> r == 1.0
    ensures x >= 1.0 ==> r == 0.0
    ensures 0.0 <= r <= 1.0
  {
    if x < -1.0 then 1.0
    else if x < 0.0 then
      var z := x + 1.0;
      SquareBelow(z);
      1.0 - 0.5 * (z * z)
    else if x < 1.0 then
      var z := x - 1.0;
      SquareBelow(-z);
      assert (-z) * (-z) == z * z;
      0.5 * (z * z)
    else 0.0
  }

  /** The step is antisymmetric about (0, 1/2). */
  lemma StepAntisymmetric(x: real)
    ensures Step(x) + Step(-x) == 1.0
  {
    if -1.0 < x < 0.0 {
      assert Step(x) == 1.0 - 0.5 * ((x + 1.0) * (x + 1.0));
      assert Step(-x) == 0.5 * ((-x - 1.0) * (-x - 1.0));
      assert (-x - 1.0) * (-x - 1.0) == (x + 1.0) * (x + 1.0);
    } else if 0.0 < x < 1.0 {
      assert Step(x) == 0.5 * ((x - 1.0) * (x - 1.0));
      assert Step(-x) == 1.0 - 0.5 * ((-x + 1.0) * (-x + 1.0));
      assert (-x + 1.0) * (-x + 1.0) == (x - 1.0) * (x - 1.0);
    }
  }

  // ----- Rounding of doubles to integers -----

  /** `Math.Round`, which rounds halves to the even neighbour. */
  function Round(x: real): (r: int)
    ensures x - 0.5 <= r as real <= x + 0.5
    ensures (r as real == x - 0.5 || r as real == x + 0.5) ==> r % 2 == 0
  {
    var fl := x.Floor;
    var d := x - fl as real;
    if d < 0.5 then fl
    else if d > 0.5 then fl + 1
    else if fl % 2 == 0 then fl
    else fl + 1
  }

  // ----- Resampling kernels -----

  /** A kernel `K`: weights for the source samples `min .. max`. */
  datatype K = K(min: int, max: int, weights: seq<real>)

  predicate WellFormed(k: K)
  {
    |k.weights| == k.max - k.min + 1
  }

  /** The cache key: (step, start, length). */
  datatype KernelKey = KernelKey(step: real, start: real, len: nat)

  /** The sampling geometry of a full resample: origins and spacings of source and
      destination, and the destination length. */
  datatype Geometry = Geometry(srcOrigin: real, srcSpacing: real, destOrigin: real, destSpacing: real, destLength: nat)

  /** `Key`: step and start of the destination centres in source-sample coordinates. */
  function Key(g: Geometry): (key: KernelKey)
    requires g.srcSpacing != 0.0
    ensures key.len == g.destLength
    ensures key.step * g.srcSpacing == g.destSpacing
  {
    KernelKey(g.destSpacing / g.srcSpacing,
              ((g.destOrigin + g.destSpacing / 2.0) - (g.srcOrigin + g.srcSpacing / 2.0)) / g.srcSpacing,
              g.destLength)
  }

  /** Destination sample j's centre lies at source coordinate `start + j * step`,
      where source sample n's centre is at coordinate n. */
  lemma KeyAlignsCentres(g: Geometry, j: nat)
    requires g.srcSpacing != 0.0
    ensures var key := Key(g);
            g.srcOrigin + (key.start + j as real * key.step + 0.5) * g.srcSpacing
              == g.destOrigin + (j as real + 0.5) * g.destSpacing
  {
    var key := Key(g);
    assert key.start * g.srcSpacing == (g.destOrigin + g.destSpacing / 2.0) - (g.srcOrigin + g.srcSpacing / 2.0);
    assert key.step * g.srcSpacing == g.destSpacing;
    calc {
      g.srcOrigin + (key.start + j as real * key.step + 0.5) * g.srcSpacing;
      g.srcOrigin + key.start * g.srcSpacing + j as real * (key.step * g.srcSpacing) + 0.5 * g.srcSpacing;
      g.destOrigin + (j as real + 0.5) * g.destSpacing;
    }
  }

  /** Left-to-right running sum, in the order the loops accumulate. */
  function Sum(s: seq<real>): (total: real)
  {
    if s == [] then 0.0 else Sum(s[..|s| - 1]) + s[|s| - 1]
  }

  function Scaled(s: seq<real>, c: real): (r: seq<real>)
    ensures |r| == |s| && forall m :: 0 <= m < |s| ==> r[m] == s[m] * c
  {
    seq(|s|, m requires 0 <= m < |s| => s[m] * c)
  }

  predicate NonNegative(s: seq<real>)
  {
    forall n :: 0 <= n < |s| ==> s[n] >= 0.0
  }

  lemma {:induction false} SumScaled(s: seq<real>, c: real)
    ensures Sum(Scaled(s, c)) == c * Sum(s)
    decreases |s|
  {
    if s != [] {
      var s' := s[..|s| - 1];
      var r := Scaled(s, c);
      assert r[..|s| - 1] == Scaled(s', c) by {
        forall m | 0 <= m < |s'| ensures r[..|s| - 1][m] == Scaled(s', c)[m] {
          assert s'[m] == s[m];
        }
      }
      SumScaled(s', c);
    }
  }

  lemma {:induction false} SumNonnegativeAtLeast(s: seq<real>, m: nat)
    requires m < |s|
    requires forall n :: 0 <= n < |s| ==> s[n] >= 0.0
    ensures Sum(s) >= s[m] >= 0.0
    decreases |s|
  {
    var s' := s[..|s| - 1];
    if m == |s| - 1 {
      if s' != [] { SumNonnegativeAtLeast(s', 0); }
    } else {
      SumNonnegativeAtLeast(s', m);
    }
  }

  lemma SumOfThree(a: real, b: real, c: real)
    ensures Sum([a, b, c]) == a + b + c
  {
    assert [a][..0] == [];
    assert Sum([a]) == a;
    assert [a, b][..1] == [a];
    assert Sum([a, b]) == a + b;
    assert [a, b, c][..2] == [a, b];
  }

  /** The narrow-branch weights for a centre offset f from the nearest sample. */
  function NarrowWeightsAt(f: real): seq<real>
  {
    [0.5 * ((f - 0.5) * (f - 0.5)), 0.75 - f * f, 0.5 * ((f + 0.5) * (f + 0.5))]
  }

  /** The three narrow-branch weights always add up to 1. */
  lemma NarrowWeightsSumToOne(f: real)
    ensures Sum(NarrowWeightsAt(f)) == 1.0
  {
    var w := NarrowWeightsAt(f);
    SumOfThree(w[0], w[1], w[2]);
    assert w == [w[0], w[1], w[2]];
  }

  /** Within half a sample of the centre, the narrow-branch weights are the kernel
      itself sampled at offsets -1 - f, -f and 1 - f, hence non-negative. */
  lemma NarrowWeightsAreKernel(f: real)
    requires -0.5 <= f <= 0.5
    ensures forall m :: 0 <= m < 3 ==> NarrowWeightsAt(f)[m] == Weight(m as real - 1.0 - f) >= 0.0
  {
    var w := NarrowWeightsAt(f);
    if f == -0.5 {
      assert Weight(-1.0 - f) == 0.75 - 0.25;
    } else {
      assert Weight(-1.0 - f) == 0.5 * ((-1.0 - f + 1.5) * (-1.0 - f + 1.5));
      assert (-1.0 - f + 1.5) * (-1.0 - f + 1.5) == (f - 0.5) * (f - 0.5);
    }
    assert Weight(-f) == 0.75 - (-f) * (-f);
    assert (-f) * (-f) == f * f;
    if f == 0.5 {
      assert Weight(1.0 - f) == 0.75 - 0.25;
    } else {
      assert Weight(1.0 - f) == 0.5 * ((1.0 - f - 1.5) * (1.0 - f - 1.5));
      assert (1.0 - f - 1.5) * (1.0 - f - 1.5) == (f + 0.5) * (f + 0.5);
    }
    WeightShape(-1.0 - f);
    WeightShape(-f);
    WeightShape(1.0 - f);
    assert 0 as real - 1.0 - f == -1.0 - f;
    assert 1 as real - 1.0 - f == -f;
    assert 2 as real - 1.0 - f == 1.0 - f;
  }

  /** The magic kernel is a partition of unity: at any offset f of half a sample or less,
      the weights of the three nearest samples add up to 1. */
  lemma WeightPartitionOfUnity(f: real)
    requires -0.5 <= f <= 0.5
    ensures Weight(-1.0 - f) + Weight(-f) + Weight(1.0 - f) == 1.0
  {
    var w := NarrowWeightsAt(f);
    NarrowWeightsAreKernel(f);
    NarrowWeightsSumToOne(f);
    SumOfThree(w[0], w[1], w[2]);
    assert w == [w[0], w[1], w[2]];
    assert w[0] == Weight(0 as real - 1.0 - f);
    assert w[1] == Weight(1 as real - 1.0 - f);
    assert w[2] == Weight(2 as real - 1.0 - f);
  }

  /** Narrow branch (`step < 1`): three weights around the nearest sample. */
  function NarrowKernel(x: real): K
  {
    var i := Round(x);
    K(i - 1, i + 1, NarrowWeightsAt(x - i as real))
  }

  /** The narrow kernel covers the three samples nearest to x (x lies within half a
      sample of the middle one), and its weights are the kernel at their offsets,
      non-negative and summing to 1. */
  lemma NarrowKernelProperties(x: real)
    ensures var k := NarrowKernel(x);
            && WellFormed(k) && |k.weights| == 3
            && k.min as real <= x - 0.5 && x + 0.5 <= k.max as real
            && (forall m :: 0 <= m < 3 ==> k.weights[m] == Weight((k.min + m) as real - x) >= 0.0)
            && Sum(k.weights) == 1.0
  {
    var k := NarrowKernel(x);
    var f := x - Round(x) as real;
    NarrowWeightsSumToOne(f);
    NarrowWeightsAreKernel(f);
    forall m | 0 <= m < 3 ensures k.weights[m] == Weight((k.min + m) as real - x) >= 0.0 {
      assert (k.min + m) as real - x == m as real - 1.0 - f;
    }
  }

  function WideMin(x: real, step: real): int { Ceiling(x - 1.5 * step) }
  function WideMax(x: real, step: real): int { Floor(x + 1.5 * step) }

  /** A window of width 3 * step >= 3 holds at least three integers. */
  lemma WideSpan(x: real, step: real)
    requires step >= 1.0
    ensures WideMax(x, step) - WideMin(x, step) + 1 >= 3
  {
  }

  /** Raw wide-branch weights `Weight((i - x) / step)` for `i = min .. min + n - 1`. */
  function RawWeights(min: int, n: nat, x: real, step: real): (w: seq<real>)
    requires step > 0.0
    ensures |w| == n
  {
    Samples(WeightAt(x, step), min, n)
  }

  /** The kernel stretched by `step` and centred on x, as a function of the source
      index i: `Weight((i - x) / step)`. */
  function WeightAt(x: real, step: real): int -> real
    requires step > 0.0
  {
    i => Weight((i as real - x) / step)
  }

  /** The values of `w` at `min .. min + n - 1`. */
  function Samples(w: int -> real, min: int, n: nat): (r: seq<real>)
    ensures |r| == n && forall m :: 0 <= m < n ==> r[m] == w(min + m)
  {
    seq(n, m => w(min + m))
  }

  lemma DivBound(a: real, s: real)
    requires s >= 1.0
    requires -0.5 <= a <= 0.5
    ensures -0.5 <= a / s <= 0.5
  {
    var t := a / s;
    assert t * s == a;
  }

  /** The wide-branch raw weights are non-negative and the one at the sample nearest
      to x is at least 1/2, so their sum is positive and `1 / sum` is defined. */
  lemma RawWeightsPositive(x: real, step: real)
    requires step >= 1.0
    ensures WideMax(x, step) - WideMin(x, step) + 1 >= 3
    ensures var raw := RawWeights(WideMin(x, step), WideMax(x, step) - WideMin(x, step) + 1, x, step);
            && (forall n :: 0 <= n < |raw| ==> raw[n] >= 0.0)
            && Sum(raw) >= 0.5
  {
    var min := WideMin(x, step);
    var max := WideMax(x, step);
    WideSpan(x, step);
    var raw := RawWeights(min, max - min + 1, x, step);
    forall n | 0 <= n < |raw| ensures raw[n] >= 0.0 {
      WeightShape(((min + n) as real - x) / step);
    }
    var i0 := Round(x);
    assert min <= i0 <= max;
    DivBound(i0 as real - x, step);
    WeightShape((i0 as real - x) / step);
    assert raw[i0 - min] == Weight((i0 as real - x) / step);
    SumNonnegativeAtLeast(raw, i0 - min);
  }

  /** Wide branch (`step >= 1`): every sample within 1.5 steps, weighted by the kernel
      stretched by `step` and rescaled to sum to 1. */
  function WideKernel(x: real, step: real): K
    requires step >= 1.0
  {
    var raw := WideRaw(x, step);
    K(WideMin(x, step), WideMax(x, step), Scaled(raw, 1.0 / Sum(raw)))
  }

  /** The raw wide-branch weights over the window of samples within 1.5 steps of x:
      at least three, none negative, and adding up to at least 1/2. */
  function WideRaw(x: real, step: real): (raw: seq<real>)
    requires step >= 1.0
    ensures |raw| == WideMax(x, step) - WideMin(x, step) + 1 >= 3
    ensures forall n :: 0 <= n < |raw| ==> raw[n] >= 0.0
    ensures Sum(raw) >= 0.5
  {
    RawWeightsPositive(x, step);
    RawWeights(WideMin(x, step), WideMax(x, step) - WideMin(x, step) + 1, x, step)
  }

  lemma MulNonnegative(a: real, b: real)
    requires a >= 0.0 && b >= 0.0
    ensures a * b >= 0.0
  {
  }

  lemma ReciprocalTimes(s: real)
    requires s > 0.0
    ensures 1.0 / s > 0.0 && (1.0 / s) * s == 1.0
  {
  }

  /** The wide kernel covers exactly the samples within 1.5 steps of x, at least
      three of them. */
  lemma WideKernelWindow(x: real, step: real)
    requires step >= 1.0
    ensures var k := WideKernel(x, step);
            && WellFormed(k) && |k.weights| >= 3
            && x - 1.5 * step <= k.min as real && (k.min - 1) as real < x - 1.5 * step
            && k.max as real <= x + 1.5 * step && x + 1.5 * step < (k.max + 1) as real
  {
    RawWeightsPositive(x, step);
  }

  /** The wide kernel's weights are non-negative and add up to 1. */
  lemma WideKernelNormalised(x: real, step: real)
    requires step >= 1.0
    ensures var k := WideKernel(x, step);
            && (forall m :: 0 <= m < |k.weights| ==> k.weights[m] >= 0.0)
            && Sum(k.weights) == 1.0
  {
    RawWeightsPositive(x, step);
    var min := WideMin(x, step);
    var max := WideMax(x, step);
    NormalisedScaled(RawWeights(min, max - min + 1, x, step));
  }

  /** Dividing non-negative weights with a positive sum by that sum gives non-negative
      weights that add up to 1. */
  lemma NormalisedScaled(raw: seq<real>)
    requires forall n :: 0 <= n < |raw| ==> raw[n] >= 0.0
    requires Sum(raw) > 0.0
    ensures NonNegative(Scaled(raw, 1.0 / Sum(raw)))
    ensures Sum(Scaled(raw, 1.0 / Sum(raw))) == 1.0
  {
    var total := Sum(raw);
    var c := 1.0 / total;
    ReciprocalTimes(total);
    SumScaled(raw, c);
    forall m | 0 <= m < |raw| ensures Scaled(raw, c)[m] >= 0.0 {
      MulNonnegative(raw[m], c);
    }
  }

  /** The kernel `Ks` builds for destination position x. */
  function KernelAt(x: real, step: real): K
  {
    if step < 1.0 then NarrowKernel(x) else WideKernel(x, step)
  }

  /** Destination sample j's centre in source coordinates. */
  function Centre(key: KernelKey, j: int): real
  {
    key.start + j as real * key.step
  }

  /** The kernel of destination sample j under `key`. */
  function KernelFor(key: KernelKey, j: int): K
  {
    KernelAt(Centre(key, j), key.step)
  }

  /** Every kernel is well formed, so `Resample`'s `k[m]` stays in range. */
  lemma KernelAtWellFormed(x: real, step: real)
    ensures WellFormed(KernelAt(x, step))
  {
    if step >= 1.0 {
      RawWeightsPositive(x, step);
    }
  }

  /** Every kernel has at least three non-negative weights that add up to 1. */
  lemma KernelAtNormalised(x: real, step: real)
    ensures WellFormed(KernelAt(x, step)) && |KernelAt(x, step).weights| >= 3
    ensures Sum(KernelAt(x, step).weights) == 1.0
    ensures forall m :: 0 <= m < |KernelAt(x, step).weights| ==> KernelAt(x, step).weights[m] >= 0.0
  {
    if step < 1.0 {
      NarrowKernelProperties(x);
    } else {
      WideKernelWindow(x, step);
      WideKernelNormalised(x, step);
    }
  }

  /** The narrow branch of the `Ks` constructor. */
  method NarrowWeights(x: real) returns (k: K)
    ensures k == NarrowKernel(x)
  {
    var i := Round(x);
    var ws := new real[3];
    var f := x - i as real;
    var fm := f - 0.5;
    var fp := f + 0.5;
    ws[0] := 0.5 * (fm * fm);
    ws[1] := 0.75 - f * f;
    ws[2] := 0.5 * (fp * fp);
    assert ws[..] == [ws[0], ws[1], ws[2]];
    assert ws[0] == 0.5 * ((f - 0.5) * (f - 0.5));
    assert ws[1] == 0.75 - f * f;
    assert ws[2] == 0.5 * ((f + 0.5) * (f + 0.5));
    assert NarrowWeightsAt(f) == [ws[0], ws[1], ws[2]];
    k := K(i - 1, i + 1, ws[..]);
  }

  /** The wide branch of the `Ks` constructor: fill the weights and their running sum,
      then rescale them in place by `1 / sum`. */
  method WideWeights(x: real, step: real) returns (k: K)
    requires step >= 1.0
    ensures k.min == WideMin(x, step) && k.max == WideMax(x, step)
    ensures k.weights == Scaled(WideRaw(x, step), 1.0 / Sum(WideRaw(x, step)))
  {
    var hw := 1.5 * step;
    var min := Ceiling(x - hw);
    var max := Floor(x + hw);
    ghost var raw := WideRaw(x, step);
    assert min == WideMin(x, step) && max == WideMax(x, step);
    var ws, sum := FillRaw(min, max, WeightAt(x, step));
    assert ws[..] == raw;
    var scale := 1.0 / sum;
    ScaleInPlace(ws, scale);
    k := K(min, max, ws[..]);
  }

  /** The filling loop of the wide branch: weight m is `w` at sample `min + m`, and
      `sum` is the running sum of the weights written. */
  method FillRaw(min: int, max: int, w: int -> real) returns (ws: array<real>, sum: real)
    requires min <= max + 1
    ensures fresh(ws)
    ensures ws[..] == Samples(w, min, max - min + 1)
    ensures sum == Sum(ws[..])
  {
    var n := max - min + 1;
    ghost var raw := Samples(w, min, n);
    ws := new real[n];
    var m := 0;
    sum := 0.0;
    var i := min;
    while i <= max
      invariant m == i - min && 0 <= m <= n
      invariant forall t :: 0 <= t < m ==> ws[t] == raw[t]
      invariant sum == Sum(raw[..m])
    {
      var v := w(i);
      ws[m] := v;
      assert raw[..m + 1][..m] == raw[..m];
      sum := sum + v;
      i := i + 1;
      m := m + 1;
    }
    assert raw[..n] == raw;
    assert ws[..] == raw;
  }

  /** The rescaling loop of the wide branch: every weight multiplied by `scale`. */
  method ScaleInPlace(ws: array<real>, scale: real)
    modifies ws
    ensures ws[..] == Scaled(old(ws[..]), scale)
  {
    ghost var raw := ws[..];
    var m := 0;
    while m < ws.Length
      invariant 0 <= m <= ws.Length
      invariant forall t :: 0 <= t < m ==> ws[t] == raw[t] * scale
      invariant forall t :: m <= t < ws.Length ==> ws[t] == raw[t]
    {
      ws[m] := ws[m] * scale;
      m := m + 1;
    }
    var r := Scaled(raw, scale);
    forall t | 0 <= t < ws.Length ensures ws[..][t] == r[t] {
      assert ws[t] == raw[t] * scale;
    }
    assert ws[..] == r;
  }

  /** `Ks`: the kernels for every destination sample of one key. */
  class Ks {
    const ks: array<K>

    constructor (key: KernelKey)
      ensures fresh(ks) && ks.Length == key.len
      ensures forall j :: 0 <= j < key.len ==> ks[j] == KernelFor(key, j)
    {
      var a := new K[key.len](_ => K(0, 0, []));
      var j := 0;
      while j < key.len
        invariant 0 <= j <= key.len
        invariant forall n :: 0 <= n < j ==> a[n] == KernelFor(key, n)
      {
        var x := Centre(key, j);
        var k;
        if key.step < 1.0 {
          k := NarrowWeights(x);
        } else {
          k := WideWeights(x, key.step);
          assert k == WideKernel(x, key.step);
        }
        a[j] := k;
        j := j + 1;
      }
      ks := a;
    }

    function Get(i: int): (k: K)
      reads this, ks
      requires 0 <= i < ks.Length
      ensures k == ks[i]
    {
      ks[i]
    }
  }

  /** `sum` after the inner loop of `Resample` has read m weights by `MultAdd`. */
  function Convolve(k: K, src: int -> real, m: nat): real
    requires m <= |k.weights|
  {
    if m == 0 then 0.0 else Convolve(k, src, m - 1) + Tap(k, src, m - 1)
  }

  /** Weight m of k times the source sample it applies to. */
  function Tap(k: K, src: int -> real, m: nat): real
    requires m < |k.weights|
  {
    k.weights[m] * src(k.min + m)
  }

  /** The inner loop of `Resample`: accumulate `MultAdd(k[m], o[j], sum)` over the
      samples the kernel covers. */
  method Apply(k: K, src: int -> real) returns (sum: real)
    requires WellFormed(k)
    ensures sum == Convolve(k, src, |k.weights|)
  {
    sum := 0.0;
    var m := 0;
    var j := k.min;
    while j <= k.max
      invariant m == j - k.min && 0 <= m <= |k.weights|
      invariant sum == Convolve(k, src, m)
    {
      assert k.weights[m] * src(j) == Tap(k, src, m);
      sum := k.weights[m] * src(j) + sum;
      j := j + 1;
      m := m + 1;
    }
  }

  /** Output i of a resample with geometry g. */
  function ResampledAt(g: Geometry, src: int -> real, i: nat): real
    requires g.srcSpacing != 0.0
  {
    KeyedAt(Key(g), src, i)
  }

  /** Output i of a resample whose kernels are cached under `key`. */
  function KeyedAt(key: KernelKey, src: int -> real, i: nat): real
  {
    var k := KernelFor(key, i);
    Convolve(k, src, |k.weights|)
  }

  /** `Resample`: output i is the weighted sum of the source samples its kernel covers.
      Its reads go to `src`, its writes to `dest`. */
  method Resample(g: Geometry, src: int -> real, dest: array<real>)
    requires g.srcSpacing != 0.0
    requires dest.Length == g.destLength
    modifies dest
    ensures forall i :: 0 <= i < dest.Length ==> dest[i] == ResampledAt(g, src, i)
  {
    var key := Key(g);
    var ks := new Ks(key);
    ResampleLoop(key, ks, src, dest);
  }

  /** The loop of `Resample` over the destination samples, each one using the cached
      kernel of its index. */
  method ResampleLoop(key: KernelKey, ks: Ks, src: int -> real, dest: array<real>)
    requires ks.ks.Length == key.len == dest.Length
    requires forall n :: 0 <= n < key.len ==> ks.ks[n] == KernelFor(key, n)
    modifies dest
    ensures forall i :: 0 <= i < dest.Length ==> dest[i] == KeyedAt(key, src, i)
  {
    var i := 0;
    while i < dest.Length
      invariant 0 <= i <= dest.Length
      invariant forall n :: 0 <= n < i ==> dest[n] == KeyedAt(key, src, n)
    {
      var k := ks.Get(i);
      KernelAtWellFormed(Centre(key, i), key.step);
      var sum := Apply(k, src);
      dest[i] := sum;
      i := i + 1;
    }
  }

  /** A kernel applied to a constant signal yields the constant times its weight sum. */
  lemma {:induction false} ConvolveConstant(k: K, c: real, src: int -> real, m: nat)
    requires m <= |k.weights|
    requires forall n :: src(n) == c
    ensures Convolve(k, src, m) == c * Sum(k.weights[..m])
  {
    if m > 0 {
      ConvolveConstant(k, c, src, m - 1);
      assert k.weights[..m][..m - 1] == k.weights[..m - 1];
    }
  }

  /** Resampling reproduces a constant signal exactly, whatever the geometry. */
  lemma ResampleKeepsConstant(g: Geometry, c: real, src: int -> real, i: nat)
    requires g.srcSpacing != 0.0
    requires forall n :: src(n) == c
    ensures ResampledAt(g, src, i) == c
  {
    var key := Key(g);
    var k := KernelFor(key, i);
    KernelAtNormalised(Centre(key, i), key.step);
    ConvolveConstant(k, c, src, |k.weights|);
    assert k.weights[..|k.weights|] == k.weights;
  }
}

/** Frequency bounds, legal frequency lattices and output-parsing constants.

    CPU frequencies are counted in integer tenths of a GHz and GPU
    frequencies in integer MHz (thousandths of a GHz), so that the lattice
    facts hold exactly rather than up to floating-point drift. */
module Config {

  const CPU_FREQ_MIN: int := 12    // 1.2 GHz
  const CPU_FREQ_MAX: int := 22    // 2.2 GHz
  const GPU_FREQ_MIN: int := 135   // 0.135 GHz
  const GPU_FREQ_MAX: int := 1440  // 1.440 GHz

  const HPL_TIMING_LINE_PREFIX: string := "2021-12-"
  const HPLAI_RESULT_LINE_PREFIX: string := "HPL_AI"
  const HPL_RESULT_LINE_PREFIX: string := "WR03L2L2"

  // ---------------------------------------------------------------------
  // CPU lattice: one value per 0.1 GHz from the minimum to the maximum

  /** CPU_FREQS_GHZ, in tenths of a GHz: the range from the scaled minimum
      to the scaled maximum, both included. */
  function CpuFreqs(): seq<int>
  {
    seq(CPU_FREQ_MAX - CPU_FREQ_MIN + 1, i => CPU_FREQ_MIN + i)
  }

  lemma CpuFreqsShape()
    ensures |CpuFreqs()| == 11
    ensures CpuFreqs()[0] == CPU_FREQ_MIN && CpuFreqs()[10] == CPU_FREQ_MAX
    ensures forall i, j :: 0 <= i < j < |CpuFreqs()| ==> CpuFreqs()[i] < CpuFreqs()[j]
    ensures forall k :: k in CpuFreqs() <==> CPU_FREQ_MIN <= k <= CPU_FREQ_MAX
  {
    var r := CpuFreqs();
    forall k | CPU_FREQ_MIN <= k <= CPU_FREQ_MAX ensures k in r {
      assert r[k - CPU_FREQ_MIN] == k;
    }
  }

  // ---------------------------------------------------------------------
  // GPU lattice: alternating +7 MHz / +8 MHz steps from the minimum

  /** The size of the n-th step of the generator: 7 first, then 8, then 7, ... */
  function GpuStep(n: nat): int
  {
    if n % 2 == 0 then 7 else 8
  }

  lemma GpuStepAlternates(n: nat)
    ensures GpuStep(n + 1) == 15 - GpuStep(n)
  {
  }

  /** The value the generator's running frequency holds after n steps,
      before it is compared with the maximum. */
  function GpuValue(n: nat): int
  {
    if n == 0 then GPU_FREQ_MIN else GpuValue(n - 1) + GpuStep(n - 1)
  }

  /** Two steps always add 15 MHz: the running frequency in closed form. */
  lemma {:induction false} GpuValueClosedForm(n: nat)
    ensures GpuValue(n) == GPU_FREQ_MIN + 15 * (n / 2) + 7 * (n % 2)
  {
    if n > 0 {
      GpuValueClosedForm(n - 1);
    }
  }

  /** The running frequency grows by at least 7 MHz per step. */
  lemma {:induction false} GpuValueGrows(m: nat, n: nat)
    requires m <= n
    ensures GpuValue(m) + 7 * (n - m) <= GpuValue(n)
  {
    if m < n {
      GpuValueGrows(m, n - 1);
    }
  }

  /** The generator's list is a prefix of the alternating sequence. */
  predicate IsLatticePrefix(freqs: seq<int>)
  {
    forall i :: 0 <= i < |freqs| ==> freqs[i] == GpuValue(i) && freqs[i] <= GPU_FREQ_MAX
  }

  /** What the generator returns: the first value unconditionally, then every
      stepped value that is still within the maximum, stopping at the first
      that is not. */
  predicate IsGpuLattice(freqs: seq<int>)
  {
    |freqs| >= 1 && IsLatticePrefix(freqs) && GpuValue(|freqs|) > GPU_FREQ_MAX
  }

  lemma LatticePrefixGrows(freqs: seq<int>, f: int)
    requires IsLatticePrefix(freqs) && f == GpuValue(|freqs|) && f <= GPU_FREQ_MAX
    ensures IsLatticePrefix(freqs + [f])
  {
  }

  /** build_gpu_freqs_ghz, in MHz. The loop ends because the running
      frequency grows by at least 7 per iteration. */
  method BuildGpuFreqs() returns (freqs: seq<int>)
    ensures IsGpuLattice(freqs)
  {
    var f := GPU_FREQ_MIN;
    var seven := true;
    freqs := [f];
    ghost var k: nat := 0;
    while f <= GPU_FREQ_MAX
      invariant f == GpuValue(k)
      invariant GpuStep(k) == if seven then 7 else 8
      invariant |freqs| == if f <= GPU_FREQ_MAX then k + 1 else k
      invariant 1 <= |freqs| && freqs[0] == GPU_FREQ_MIN
      invariant IsLatticePrefix(freqs)
      decreases GPU_FREQ_MAX - f
    {
      f := f + if seven then 7 else 8;
      seven := !seven;
      GpuStepAlternates(k);
      k := k + 1;
      if f <= GPU_FREQ_MAX {
        LatticePrefixGrows(freqs, f);
        freqs := freqs + [f];
      }
    }
  }

  /** The lattice has 175 values, from 135 MHz up to exactly 1440 MHz. */
  lemma GpuLatticeBounds(freqs: seq<int>)
    requires IsGpuLattice(freqs)
    ensures |freqs| == 175
    ensures freqs[0] == GPU_FREQ_MIN && freqs[|freqs| - 1] == GPU_FREQ_MAX
    ensures forall i :: 0 <= i < |freqs| ==> GPU_FREQ_MIN <= freqs[i] <= GPU_FREQ_MAX
  {
    GpuValueClosedForm(174);
    GpuValueClosedForm(175);
    if |freqs| < 175 {
      GpuValueGrows(|freqs|, 174);
      assert false;
    }
    if |freqs| > 175 {
      assert false;
    }
    forall i | 0 <= i < |freqs| ensures GPU_FREQ_MIN <= freqs[i] {
      GpuValueGrows(0, i);
    }
  }

  /** The generator's output is unique: any two lists it could return are
      the same list. */
  lemma GpuLatticeUnique(a: seq<int>, b: seq<int>)
    requires IsGpuLattice(a) && IsGpuLattice(b)
    ensures a == b
  {
    GpuLatticeBounds(a);
    GpuLatticeBounds(b);
  }

  /** Consecutive values differ by 7, 8, 7, 8, ... starting with 7. */
  lemma GpuLatticeAlternates(freqs: seq<int>)
    requires IsGpuLattice(freqs)
    ensures forall i :: 0 <= i < |freqs| - 1 ==> freqs[i + 1] - freqs[i] == (if i % 2 == 0 then 7 else 8)
  {
    forall i | 0 <= i < |freqs| - 1
      ensures freqs[i + 1] - freqs[i] == (if i % 2 == 0 then 7 else 8)
    {
      assert freqs[i + 1] == GpuValue(i + 1) == GpuValue(i) + GpuStep(i);
    }
  }

  /** The lattice is strictly increasing. */
  lemma GpuLatticeIncreasing(freqs: seq<int>)
    requires IsGpuLattice(freqs)
    ensures forall i, j :: 0 <= i < j < |freqs| ==> freqs[i] < freqs[j]
  {
    forall i, j | 0 <= i < j < |freqs| ensures freqs[i] < freqs[j] {
      GpuValueGrows(i, j);
    }
  }

  /** Maximality: every value of the alternating sequence that does not exceed
      the maximum is in the lattice, and the lattice holds nothing else. */
  lemma GpuLatticeMembership(freqs: seq<int>, x: int)
    requires IsGpuLattice(freqs)
    ensures x in freqs <==> exists n: nat :: GpuValue(n) == x && x <= GPU_FREQ_MAX
  {
    if x in freqs {
      var i :| 0 <= i < |freqs| && freqs[i] == x;
      var n: nat := i;
      assert GpuValue(n) == x && x <= GPU_FREQ_MAX;
      assert exists m: nat :: GpuValue(m) == x && x <= GPU_FREQ_MAX;
    } else {
      forall n: nat | GpuValue(n) == x ensures x > GPU_FREQ_MAX {
        if n >= |freqs| {
          GpuValueGrows(|freqs|, n);
        }
      }
    }
  }
}

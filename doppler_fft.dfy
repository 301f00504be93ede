/**
 * Doppler extractor (`doppler_fft_bin_do`): gathers, for one antenna and one
 * range bin, the bin's value in every chirp out of the flat range buffer into
 * the Doppler buffer, optionally removes its mean and applies a window, then
 * runs the complex FFT in place. The spectrum is left in natural FFT order.
 */
module DopplerFft {
  import opened Dsp

  /**
   * Range-buffer index read for chirp `c`: `start_index = antenna * chirps * L`
   * is stored in a `uint16_t`, the rest of the sum is not truncated.
   */
  function GatherIndex(antenna: nat, chirps: nat, len: nat, bin: nat, c: nat): nat
  {
    Wrap16(Mul(Mul(antenna, chirps), len)) + Mul(c, len) + bin
  }

  /** Every read of the gather loop lies inside a range buffer of `rangeLen` entries. */
  predicate ReadsInside(rangeLen: nat, antenna: nat, chirps: nat, len: nat, bin: nat)
  {
    chirps == 0 || GatherIndex(antenna, chirps, len, bin, chirps - 1) < rangeLen
  }

  lemma {:induction false} GatherInside(rangeLen: nat, antenna: nat, chirps: nat, len: nat, bin: nat, c: nat)
    requires ReadsInside(rangeLen, antenna, chirps, len, bin) && c < chirps
    ensures GatherIndex(antenna, chirps, len, bin, c) < rangeLen
  {
    MulMono(c, chirps - 1, len);
  }

  /** `GatherIndex` is the source's expression, with its `uint16_t` truncation. */
  lemma {:induction false} GatherIndexIsSourceExpression(antenna: nat, chirps: nat, len: nat, bin: nat, c: nat)
    ensures GatherIndex(antenna, chirps, len, bin, c) == Wrap16(antenna * chirps * len) + c * len + bin
  {
    MulIsProduct(antenna, chirps);
    MulIsProduct(Mul(antenna, chirps), len);
    MulIsProduct(c, len);
  }

  /**
   * For the documented layout (`bin < L`, antenna below the antenna count and
   * a start index that fits in 16 bits) every index read lies inside the
   * first `antenna_count * chirps * L` entries: the block of that antenna.
   */
  lemma {:induction false} GatherInsideLayout(antennaCount: nat, antenna: nat, chirps: nat, len: nat, bin: nat, c: nat)
    requires antenna < antennaCount && c < chirps && bin < len
    requires Mul(Mul(antenna, chirps), len) < 0x1_0000
    ensures Mul(Mul(antenna, chirps), len) <= GatherIndex(antenna, chirps, len, bin, c)
    ensures GatherIndex(antenna, chirps, len, bin, c) < Mul(Mul(antenna + 1, chirps), len)
    ensures Mul(Mul(antenna + 1, chirps), len) <= Mul(Mul(antennaCount, chirps), len)
  {
    var start := Mul(Mul(antenna, chirps), len);
    MulMono(c + 1, chirps, len);
    MulAdd(Mul(antenna, chirps), chirps, len);
    MulAdd(antenna, 1, chirps);
    MulMono(antenna + 1, antennaCount, chirps);
    MulMono(Mul(antenna + 1, chirps), Mul(antennaCount, chirps), len);
    assert start + Mul(c, len) + bin < start + Mul(chirps, len);
  }

  /** The layout bound implies the reads the loop makes are in bounds. */
  lemma {:induction false} LayoutReadsInside(rangeLen: nat, antennaCount: nat, antenna: nat, chirps: nat,
                                             len: nat, bin: nat)
    requires antenna < antennaCount && bin < len
    requires Mul(Mul(antenna, chirps), len) < 0x1_0000
    requires Mul(Mul(antennaCount, chirps), len) <= rangeLen
    ensures ReadsInside(rangeLen, antenna, chirps, len, bin)
  {
    if chirps > 0 {
      GatherInsideLayout(antennaCount, antenna, chirps, len, bin, chirps - 1);
    }
  }

  /** The Doppler buffer after the gather loop: bin `bin` of every chirp of the antenna. */
  function Gathered(range: seq<Complex>, antenna: nat, chirps: nat, len: nat, bin: nat): (z: seq<Complex>)
    requires ReadsInside(|range|, antenna, chirps, len, bin)
    ensures |z| == chirps
  {
    seq(chirps, c requires 0 <= c < chirps =>
      GatherInside(|range|, antenna, chirps, len, bin, c);
      range[GatherIndex(antenna, chirps, len, bin, c)])
  }

  /** `arm_cmplx_mult_real_f32`: both parts of a sample are scaled by its window coefficient. */
  function CmplxWindowed(z: seq<Complex>, w: seq<real>): (y: seq<Complex>)
    requires |w| >= |z|
    ensures |y| == |z|
    ensures forall i :: 0 <= i < |z| ==> y[i].re == z[i].re * w[i] && y[i].im == z[i].im * w[i]
  {
    seq(|z|, i requires 0 <= i < |z| => Complex(z[i].re * w[i], z[i].im * w[i]))
  }

  /** The Doppler buffer after the optional mean removal and then the optional window. */
  function CmplxConditioned(k: Kernels, z: seq<Complex>, meanRemoval: bool, win: Option<seq<real>>): (y: seq<Complex>)
    requires k.Valid()
    requires win.Some? ==> |win.value| >= |z|
    ensures |y| == |z|
    ensures !meanRemoval && win.None? ==> y == z
    ensures !meanRemoval && win.Some? ==> y == CmplxWindowed(z, win.value)
  {
    var centred := if meanRemoval then k.cmplxMeanRemoval(z) else z;
    if win.Some? then CmplxWindowed(centred, win.value) else centred
  }

  /**
   * The Doppler spectrum of one (antenna, bin) pair: the forward complex FFT of
   * the conditioned chirp sequence, in the FFT's own (unshifted) bin order.
   */
  function DopplerSpectrum(k: Kernels, range: seq<Complex>, meanRemoval: bool, win: Option<seq<real>>,
                           bin: nat, antenna: nat, chirps: nat, len: nat): (d: seq<Complex>)
    requires k.Valid() && ReadsInside(|range|, antenna, chirps, len, bin)
    requires win.Some? ==> |win.value| >= chirps
    ensures |d| == chirps
  {
    k.cfft(CmplxConditioned(k, Gathered(range, antenna, chirps, len, bin), meanRemoval, win))
  }

  /** The gather loop: `doppler[c] = range[start_index + c * L + bin]` for every chirp. */
  method Gather(range: array<Complex>, doppler: array<Complex>, antenna: nat, chirps: nat, len: nat, bin: nat)
    requires ReadsInside(range.Length, antenna, chirps, len, bin)
    requires chirps <= doppler.Length && range != doppler
    modifies doppler
    ensures doppler[..chirps] == Gathered(range[..], antenna, chirps, len, bin)
    ensures doppler[chirps..] == old(doppler[chirps..])
  {
    var startIndex := StartIndex16(antenna, chirps, len);
    var c := 0;
    while c < chirps
      invariant 0 <= c <= chirps
      invariant forall i :: 0 <= i < c ==> doppler[i] == Gathered(range[..], antenna, chirps, len, bin)[i]
      invariant doppler[chirps..] == old(doppler[chirps..])
    {
      var index := BinIndex(startIndex, c, len, bin);
      GatherInside(range.Length, antenna, chirps, len, bin, c);
      doppler[c] := range[index];
      c := c + 1;
    }
    ghost var z := Gathered(range[..], antenna, chirps, len, bin);
    assert forall i :: 0 <= i < chirps ==> doppler[..chirps][i] == z[i];
  }

  /** `start_index + chirp_idx * range_fft_len + bin_index`. */
  method BinIndex(start: U16, c: nat, len: nat, bin: nat) returns (index: nat)
    ensures index == start + Mul(c, len) + bin
  {
    index := start + c * len + bin;
    MulIsProduct(c, len);
  }

  /** `ifx_cmplx_mean_removal_f32` applied in place to the first `n` samples. */
  method CmplxRemoveMeanInPlace(k: Kernels, z: array<Complex>, n: nat)
    requires k.Valid() && n <= z.Length
    modifies z
    ensures z[..n] == k.cmplxMeanRemoval(old(z[..n]))
    ensures z[n..] == old(z[n..])
  {
    var m := k.cmplxMeanRemoval(z[..n]);
    forall i | 0 <= i < n {
      z[i] := m[i];
    }
    assert forall i :: 0 <= i < n ==> z[..n][i] == m[i];
  }

  /** `arm_cmplx_mult_real_f32(z, w, z, n)`: the window written back over `z`. */
  method CmplxMultiplyInPlace(z: array<Complex>, w: array<real>, n: nat)
    requires n <= z.Length && n <= w.Length
    modifies z
    ensures z[..n] == CmplxWindowed(old(z[..n]), w[..n])
    ensures z[n..] == old(z[n..])
  {
    ghost var before := z[..n];
    forall i | 0 <= i < n {
      z[i] := Complex(z[i].re * w[i], z[i].im * w[i]);
    }
    ghost var y := CmplxWindowed(before, w[..n]);
    assert forall i :: 0 <= i < n ==> z[..n][i] == y[i];
  }

  /** `arm_cfft_f32(&cfft, z, 0, 1)`: forward transform in place, bit reversal on. */
  method CfftInPlace(k: Kernels, z: array<Complex>, n: nat)
    requires k.Valid() && n <= z.Length
    modifies z
    ensures z[..n] == k.cfft(old(z[..n]))
    ensures z[n..] == old(z[n..])
  {
    var d := k.cfft(z[..n]);
    forall i | 0 <= i < n {
      z[i] := d[i];
    }
    assert forall i :: 0 <= i < n ==> z[..n][i] == d[i];
  }

  /** The steps after the plan check, on buffers known to be present. */
  method Transform(k: Kernels, range: array<Complex>, doppler: array<Complex>, meanRemoval: bool,
                   win: array?<real>, bin: nat, antenna: nat, chirps: nat, len: nat)
    requires k.Valid() && ReadsInside(range.Length, antenna, chirps, len, bin)
    requires chirps <= doppler.Length && range != doppler
    requires win != null ==> win.Length >= chirps
    modifies doppler
    ensures doppler[..chirps] == DopplerSpectrum(k, range[..], meanRemoval,
                                                 if win == null then None else Some(win[..chirps]),
                                                 bin, antenna, chirps, len)
    ensures doppler[chirps..] == old(doppler[chirps..])
  {
    Gather(range, doppler, antenna, chirps, len, bin);
    ghost var z := Gathered(range[..], antenna, chirps, len, bin);
    if meanRemoval {
      CmplxRemoveMeanInPlace(k, doppler, chirps);
    }
    if win != null {
      CmplxMultiplyInPlace(doppler, win, chirps);
    }
    assert doppler[..chirps] == CmplxConditioned(k, z, meanRemoval, if win == null then None else Some(win[..chirps]));
    CfftInPlace(k, doppler, chirps);
  }

  /**
   * `doppler_fft_bin_do`. The range buffer is only read (it is not in the
   * modifies clause); the plan is rebuilt when its length differs from the
   * chirp count.
   */
  method DopplerFftBinDo(k: Kernels, range: array?<Complex>, doppler: array?<Complex>, meanRemoval: bool,
                         win: array?<real>, binIndex: U16, antennaIndex: U16, numChirpsPerFrame: U16,
                         rangeFftLen: U16, plan: FftPlan)
    returns (status: Status)
    requires k.Valid()
    requires range != null ==> ReadsInside(range.Length, antennaIndex, numChirpsPerFrame, rangeFftLen, binIndex)
    requires doppler != null ==> doppler.Length >= numChirpsPerFrame && doppler != range
    requires win != null ==> win.Length >= numChirpsPerFrame
    modifies doppler, plan
    ensures range == null ==> status == MissingBuffer(-1)
    ensures range != null && doppler == null ==> status == MissingBuffer(2)
    ensures range == null || doppler == null ==> plan.fftLen == old(plan.fftLen)
    ensures doppler != null && status != StatusOk ==> doppler[..] == old(doppler[..])
    ensures range != null && doppler != null ==>
      && plan.fftLen == PlanLenAfter(old(plan.fftLen), numChirpsPerFrame, k.cfftSupports(numChirpsPerFrame))
      && (status == StatusOk || status == ArgumentError)
      && (status == StatusOk <==> old(plan.fftLen) == numChirpsPerFrame || k.cfftSupports(numChirpsPerFrame))
      && (status == StatusOk ==>
            && doppler[..numChirpsPerFrame]
               == DopplerSpectrum(k, range[..], meanRemoval,
                                  if win == null then None else Some(win[..numChirpsPerFrame]),
                                  binIndex, antennaIndex, numChirpsPerFrame, rangeFftLen)
            && doppler[numChirpsPerFrame..] == old(doppler[numChirpsPerFrame..]))
  {
    if range == null { return MissingBuffer(-1); }
    if doppler == null { return MissingBuffer(2); }

    if plan.fftLen != numChirpsPerFrame {
      if !k.cfftSupports(numChirpsPerFrame) {
        return ArgumentError;
      }
      plan.fftLen := numChirpsPerFrame;
    }

    Transform(k, range, doppler, meanRemoval, win, binIndex, antennaIndex, numChirpsPerFrame, rangeFftLen);
    return StatusOk;
  }
}

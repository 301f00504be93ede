/**
 * Angle-of-arrival session (`radar_processing_init`, `radar_processing_feed`):
 * the configuration, the detection threshold, the scratch buffers and the two
 * FFT plans of one radar; a feed runs the range extractor over a frame, scans
 * the range bins of antenna 0 for the strongest Doppler peak and, above the
 * threshold, turns the phases of antennas 0, 1 and 2 at that peak into an
 * azimuth and an elevation.
 */
module RadarProcessing {
  import opened Dsp
  import RangeFft
  import DopplerFft

  /** `M_PI`. */
  const PI: real := 3.14159265358979323846

  /** Detection threshold `radar_processing_init` stores. */
  const THRESHOLD: real := 0.05

  /** Mask `radar_processing_feed` passes to the range extractor: antennas 0, 1 and 2. */
  const ANTENNA_MASK: U8 := 7

  /** `f32abs`. */
  function F32Abs(a: real): (r: real)
    ensures r >= 0.0 && (r == a || r == -a)
  {
    if a > 0.0 then a else -a
  }

  /**
   * `get_angle_diff`: the raw difference `a1 - a2`, or the difference moved by
   * one turn towards zero when that makes it strictly smaller in magnitude.
   */
  function AngleDiff(a1: real, a2: real): (d: real)
    ensures a1 > a2 ==> d == a1 - a2 || d == a1 - a2 - 2.0 * PI
    ensures a1 <= a2 ==> d == a1 - a2 || d == a1 - a2 + 2.0 * PI
    ensures F32Abs(d) <= F32Abs(a1 - a2)
    ensures d != a1 - a2 ==> F32Abs(d) < F32Abs(a1 - a2)
    ensures F32Abs(d) <= F32Abs(a1 - a2 + (if a1 > a2 then -2.0 else 2.0) * PI)
  {
    var sign := if a1 > a2 then 1.0 else -1.0;
    var angle := a1 - a2;
    var k := -sign * PI * 2.0;
    if F32Abs(k + angle) < F32Abs(angle) then k + angle else angle
  }

  /**
   * For two phases in the range of `atan2`, the result is the difference
   * wrapped into [-pi, pi]: it differs from `a1 - a2` by a whole turn at most.
   */
  lemma {:induction false} AngleDiffWrapped(a1: real, a2: real)
    requires -PI <= a1 <= PI && -PI <= a2 <= PI
    ensures -PI <= AngleDiff(a1, a2) <= PI
    ensures AngleDiff(a1, a2) - (a1 - a2) in {0.0, 2.0 * PI, -2.0 * PI}
  {
    var d := AngleDiff(a1, a2);
    if a1 > a2 {
      if a1 - a2 > PI {
        assert F32Abs(a1 - a2 - 2.0 * PI) < F32Abs(a1 - a2);
      }
    } else {
      if a1 - a2 < -PI {
        assert F32Abs(a1 - a2 + 2.0 * PI) < F32Abs(a1 - a2);
      }
    }
  }

  /** Both ends of [-pi, pi] are reached: a half-turn keeps its sign. */
  lemma AngleDiffEnds()
    ensures AngleDiff(PI, 0.0) == PI
    ensures AngleDiff(0.0, PI) == -PI
  {
  }

  /** Outside the range of `atan2` one correction is not enough. */
  lemma AngleDiffOneTurnOnly()
    ensures AngleDiff(5.0 * PI, 0.0) == 3.0 * PI
  {
  }

  /** Swapping the two phases negates the result. */
  lemma {:induction false} AngleDiffAntisymmetric(a1: real, a2: real)
    ensures AngleDiff(a2, a1) == -AngleDiff(a1, a2)
  {
    if a1 > a2 {
      assert F32Abs(-(a1 - a2) + 2.0 * PI) == F32Abs(a1 - a2 - 2.0 * PI);
    } else if a1 < a2 {
      assert F32Abs(-(a1 - a2) - 2.0 * PI) == F32Abs(a1 - a2 + 2.0 * PI);
    }
  }

  /** Running maximum of a search loop and the index where it was found. */
  datatype Peak = Peak(value: real, at: nat)

  /**
   * The (maximum, index) pair a loop leaves after scanning `xs` from the
   * front, starting from (0, 0) and taking an entry only when it is strictly
   * greater than the maximum so far.
   */
  function PeakOf(xs: seq<real>): (p: Peak)
    ensures p.value >= 0.0
    ensures |xs| > 0 ==> p.at < |xs|
    ensures |xs| == 0 ==> p == Peak(0.0, 0)
  {
    if |xs| == 0 then Peak(0.0, 0)
    else
      var p := PeakOf(xs[..|xs| - 1]);
      if xs[|xs| - 1] > p.value then Peak(xs[|xs| - 1], |xs| - 1) else p
  }

  /**
   * What such a scan promises, stated without the scan: the value is 0 or an
   * entry, no entry exceeds it, and a positive value is found at the lowest
   * index that holds it; when no entry is positive, the index is 0.
   */
  ghost predicate IsFirstPeak(xs: seq<real>, p: Peak)
  {
    && p.value >= 0.0
    && (forall i :: 0 <= i < |xs| ==> xs[i] <= p.value)
    && (p.value > 0.0 ==> p.at < |xs| && xs[p.at] == p.value)
    && (p.value > 0.0 ==> forall j :: 0 <= j < p.at ==> xs[j] < p.value)
    && (p.value == 0.0 ==> p.at == 0)
  }

  lemma {:induction false} PeakOfIsFirstPeak(xs: seq<real>)
    ensures IsFirstPeak(xs, PeakOf(xs))
  {
    if |xs| > 0 {
      var init := xs[..|xs| - 1];
      PeakOfIsFirstPeak(init);
      assert forall i :: 0 <= i < |init| ==> xs[i] == init[i];
    }
  }

  /** `IsFirstPeak` pins the pair down: the scan is the only pair satisfying it. */
  lemma {:induction false} FirstPeakUnique(xs: seq<real>, p: Peak, q: Peak)
    requires IsFirstPeak(xs, p) && IsFirstPeak(xs, q)
    ensures p == q
  {
    if p.value > 0.0 {
      assert xs[p.at] <= q.value;
    }
    if q.value > 0.0 {
      assert xs[q.at] <= p.value;
    }
    assert p.value == q.value;
    if p.value > 0.0 {
      assert !(p.at < q.at) && !(q.at < p.at);
    }
  }

  /** Magnitudes of a buffer of complex samples. */
  function Magnitudes(k: Kernels, z: seq<Complex>): (m: seq<real>)
    ensures |m| == |z|
    ensures forall i :: 0 <= i < |z| ==> m[i] == Magnitude(k, z[i])
  {
    seq(|z|, i requires 0 <= i < |z| => Magnitude(k, z[i]))
  }

  /**
   * `get_max_magnitude_phase_velocity`: the first strict maximum of the
   * magnitudes of `array[0..len)`, its index, and the phase at that index.
   * The phase is read even when `len` is 0, at index 0.
   */
  method GetMaxMagnitudePhaseVelocity(k: Kernels, buf: array<Complex>, len: U16)
    returns (magOut: real, phaseOut: real, velocityOut: U16)
    requires len <= buf.Length && 0 < buf.Length
    ensures Peak(magOut, velocityOut) == PeakOf(Magnitudes(k, buf[..len]))
    ensures velocityOut < buf.Length && phaseOut == Phase(k, buf[velocityOut])
  {
    var max := 0.0;
    var maxIndex: U16 := 0;
    var i: U16 := 0;
    while i < len
      invariant i <= len
      invariant Peak(max, maxIndex) == PeakOf(Magnitudes(k, buf[..i]))
    {
      var mag := Magnitude(k, buf[i]);
      ghost var xs := Magnitudes(k, buf[..i + 1]);
      assert xs[..i] == Magnitudes(k, buf[..i]);
      if mag > max {
        max := mag;
        maxIndex := i;
      }
      i := i + 1;
    }
    magOut := max;
    phaseOut := Phase(k, buf[maxIndex]);
    velocityOut := maxIndex;
  }

  /** `radar_configuration_t`. */
  datatype RadarConfiguration = RadarConfiguration(
    antennaCount: U8,
    chirpsPerFrame: U16,
    samplesPerChirp: U16,
    samplingRate: U32,
    startFreq: U64,
    endFreq: U64)

  /** `radar_processing_out_t`; the range is the winning bin index, as a float. */
  datatype RadarOutput = RadarOutput(amplitude: real, range: real, azimuth: real, elevation: real)

  /**
   * Which of the five `malloc` calls of `radar_processing_init` return a
   * buffer, in call order. The allocator is outside the model, so its
   * outcome is an input.
   */
  datatype Allocation = Allocation(adcSamples: bool, range: bool, dopplerOut: bool, window: bool,
                                   dopplerWindow: bool)
  {
    predicate All()
    {
      adcSamples && range && dopplerOut && window && dopplerWindow
    }
  }

  /**
   * Return value of `radar_processing_init` as written: the NULL test that follows the
   * `doppler_out` allocation looks at `range` again, which is known non-null there.
   */
  function InitStatusAsWritten(alloc: Allocation): int
  {
    if !alloc.adcSamples then -5
    else if !alloc.range then -6
    else if !alloc.range then -7
    else if !alloc.window then -8
    else if !alloc.dopplerWindow then -9
    else 0
  }

  /** As written, -7 is never returned, and a failed `doppler_out` allocation reports success. */
  lemma {:induction false} InitStatusAsWrittenMissesDopplerOut(alloc: Allocation)
    ensures InitStatusAsWritten(alloc) != -7
    ensures alloc == Allocation(true, true, false, true, true) ==> InitStatusAsWritten(alloc) == 0 && !alloc.All()
  {
  }

  /** Return value of `radar_processing_init` with each allocation checked after it is made. */
  function InitStatus(alloc: Allocation): (status: int)
    ensures status == 0 <==> alloc.All()
  {
    if !alloc.adcSamples then -5
    else if !alloc.range then -6
    else if !alloc.dopplerOut then -7
    else if !alloc.window then -8
    else if !alloc.dopplerWindow then -9
    else 0
  }

  /**
   * Each failure code names the first allocation that failed, and the two
   * versions agree on every outcome except a failed `doppler_out` allocation.
   */
  lemma {:induction false} InitStatusFirstFailure(alloc: Allocation)
    ensures InitStatus(alloc) == -5 <==> !alloc.adcSamples
    ensures InitStatus(alloc) == -6 <==> alloc.adcSamples && !alloc.range
    ensures InitStatus(alloc) == -7 <==> alloc.adcSamples && alloc.range && !alloc.dopplerOut
    ensures InitStatus(alloc) == -8 <==> alloc.adcSamples && alloc.range && alloc.dopplerOut && !alloc.window
    ensures InitStatus(alloc) == -9 <==> alloc.adcSamples && alloc.range && alloc.dopplerOut && alloc.window
                                         && !alloc.dopplerWindow
    ensures InitStatus(alloc) != InitStatusAsWritten(alloc) <==> InitStatus(alloc) == -7
  {
  }

  /**
   * What the Doppler half of one feed works from: the range buffer after the
   * range extractor, the Doppler buffer before the first Doppler call,
   * whether the Doppler plan is usable (if not, every Doppler call fails and
   * leaves the buffer as it was), the Doppler window, the chirp count and
   * the range FFT length `N/2`.
   */
  datatype DopplerStage = DopplerStage(range: seq<Complex>, stale: seq<Complex>, planOk: bool,
                                       win: seq<real>, chirps: nat, fftLen: nat)
  {
    /** The buffer holds antennas 0 to 2 and the start index of antenna 2 fits in 16 bits. */
    ghost predicate Valid()
    {
      && 1 <= chirps && |stale| == chirps && |win| == chirps
      && Mul(Mul(3, chirps), fftLen) <= |range|
      && Mul(Mul(2, chirps), fftLen) < 0x1_0000
    }
  }

  lemma {:induction false} StageReadsInside(d: DopplerStage, antenna: nat, bin: nat)
    requires d.Valid() && antenna < 3 && bin < d.fftLen
    ensures DopplerFft.ReadsInside(|d.range|, antenna, d.chirps, d.fftLen, bin)
  {
    MulMono(antenna, 2, d.chirps);
    MulMono(Mul(antenna, d.chirps), Mul(2, d.chirps), d.fftLen);
    DopplerFft.LayoutReadsInside(|d.range|, 3, antenna, d.chirps, d.fftLen, bin);
  }

  /** The Doppler buffer after `doppler_fft_bin_do` for (antenna, bin) during the feed. */
  function BinDoppler(k: Kernels, d: DopplerStage, antenna: nat, bin: nat): (z: seq<Complex>)
    requires k.Valid() && d.Valid() && antenna < 3 && bin < d.fftLen
    ensures |z| == d.chirps
  {
    StageReadsInside(d, antenna, bin);
    if d.planOk then DopplerFft.DopplerSpectrum(k, d.range, true, Some(d.win), bin, antenna, d.chirps, d.fftLen)
    else d.stale
  }

  /** The strongest Doppler line of antenna 0 in range bin `bin`. */
  function BinPeak(k: Kernels, d: DopplerStage, bin: nat): (p: Peak)
    requires k.Valid() && d.Valid() && bin < d.fftLen
    ensures p.at < d.chirps
  {
    PeakOf(Magnitudes(k, BinDoppler(k, d, 0, bin)))
  }

  /** Variables of the bin loop: `maximum_doppler`, `max_bin_idx`, `phase_rx1`, `velocity_rx1`. */
  datatype BinScan = BinScan(maximum: real, bin: nat, phase: real, velocity: nat)

  /** The loop variables after scanning the candidates in order, replacing only on a strictly larger maximum. */
  function ScanFold(cands: seq<BinScan>): (s: BinScan)
    ensures s.maximum >= 0.0
    ensures s.maximum == 0.0 ==> s == BinScan(0.0, 0, 0.0, 0)
    ensures s.maximum > 0.0 ==> exists j :: 0 <= j < |cands| && s == cands[j]
  {
    if |cands| == 0 then BinScan(0.0, 0, 0.0, 0)
    else
      var s := ScanFold(cands[..|cands| - 1]);
      if cands[|cands| - 1].maximum > s.maximum then cands[|cands| - 1] else s
  }

  /** Scanning one more candidate. */
  lemma {:induction false} ScanFoldNext(cands: seq<BinScan>, n: nat)
    requires n < |cands|
    ensures ScanFold(cands[..n + 1])
         == if cands[n].maximum > ScanFold(cands[..n]).maximum then cands[n] else ScanFold(cands[..n])
  {
    assert cands[..n + 1][..n] == cands[..n];
  }

  /** The maxima of the candidates, in order. */
  function Maxima(cands: seq<BinScan>): (m: seq<real>)
    ensures |m| == |cands|
  {
    seq(|cands|, j requires 0 <= j < |cands| => cands[j].maximum)
  }

  /** The fold is the first strict maximum of the candidates' maxima, carried with its candidate. */
  lemma {:induction false} ScanFoldIsPeak(cands: seq<BinScan>)
    ensures ScanFold(cands).maximum == PeakOf(Maxima(cands)).value
    ensures ScanFold(cands).maximum > 0.0 ==> ScanFold(cands) == cands[PeakOf(Maxima(cands)).at]
  {
    if |cands| > 0 {
      var init := cands[..|cands| - 1];
      ScanFoldIsPeak(init);
      assert Maxima(cands)[..|cands| - 1] == Maxima(init);
    }
  }

  /** What the loop body computes for bin `bin`: its peak, at its velocity, with antenna 0's phase there. */
  function BinCandidate(k: Kernels, d: DopplerStage, bin: nat): (c: BinScan)
    requires k.Valid() && d.Valid() && bin < d.fftLen
    ensures c.bin == bin && c.velocity < d.chirps
    ensures Peak(c.maximum, c.velocity) == BinPeak(k, d, bin)
  {
    var p := BinPeak(k, d, bin);
    BinScan(p.value, bin, Phase(k, BinDoppler(k, d, 0, bin)[p.at]), p.at)
  }

  /** The candidates of bins `from .. from + n`. */
  function Candidates(k: Kernels, d: DopplerStage, from: nat, n: nat): (cands: seq<BinScan>)
    requires k.Valid() && d.Valid() && from + n <= d.fftLen
    ensures |cands| == n
  {
    seq(n, j requires 0 <= j < n => BinCandidate(k, d, from + j))
  }

  /** The bin loop of `radar_processing_feed` over bins `from .. from + n`. */
  function ScanBins(k: Kernels, d: DopplerStage, from: nat, n: nat): (s: BinScan)
    requires k.Valid() && d.Valid() && from + n <= d.fftLen
    ensures s.maximum >= 0.0
    ensures s.maximum == 0.0 ==> s == BinScan(0.0, 0, 0.0, 0)
    ensures s.maximum > 0.0 ==> from <= s.bin < from + n && s == BinCandidate(k, d, s.bin)
  {
    CandidateFound(k, d, from, n);
    ScanFold(Candidates(k, d, from, n))
  }

  lemma {:induction false} CandidateFound(k: Kernels, d: DopplerStage, from: nat, n: nat)
    requires k.Valid() && d.Valid() && from + n <= d.fftLen
    ensures var s := ScanFold(Candidates(k, d, from, n));
            s.maximum > 0.0 ==> from <= s.bin < from + n && s == BinCandidate(k, d, s.bin)
  {
    var cands := Candidates(k, d, from, n);
    var s := ScanFold(cands);
    if s.maximum > 0.0 {
      var j :| 0 <= j < |cands| && s == cands[j];
      assert cands[j] == BinCandidate(k, d, from + j);
    }
  }

  /** Scanning one more bin, `bin`, after bins `from .. bin - 1`. */
  lemma {:induction false} ScanBinsNext(k: Kernels, d: DopplerStage, from: nat, bin: nat)
    requires k.Valid() && d.Valid() && from <= bin < d.fftLen
    ensures var s, c := ScanBins(k, d, from, bin - from), BinCandidate(k, d, bin);
            ScanBins(k, d, from, bin + 1 - from) == if c.maximum > s.maximum then c else s
  {
    var n := bin - from;
    var cands := Candidates(k, d, from, n + 1);
    assert cands[..n] == Candidates(k, d, from, n);
    ScanFoldNext(cands, n);
    assert cands[..n + 1] == cands;
  }

  /** The per-bin peaks the loop compares, bin `from + j` at position `j`. */
  function BinMaxima(k: Kernels, d: DopplerStage, from: nat, n: nat): (m: seq<real>)
    requires k.Valid() && d.Valid() && from + n <= d.fftLen
    ensures |m| == n
  {
    seq(n, j requires 0 <= j < n => BinPeak(k, d, from + j).value)
  }

  /**
   * The bin loop is a first-strict-maximum scan of the per-bin peaks: its
   * amplitude is the largest of them (or 0), and its bin is the lowest bin
   * holding it.
   */
  lemma {:induction false} ScanBinsIsPeak(k: Kernels, d: DopplerStage, from: nat, n: nat)
    requires k.Valid() && d.Valid() && from + n <= d.fftLen
    ensures ScanBins(k, d, from, n).maximum == PeakOf(BinMaxima(k, d, from, n)).value
    ensures ScanBins(k, d, from, n).maximum > 0.0 ==>
      ScanBins(k, d, from, n).bin == from + PeakOf(BinMaxima(k, d, from, n)).at
  {
    var cands := Candidates(k, d, from, n);
    ScanFoldIsPeak(cands);
    forall j | 0 <= j < n
      ensures Maxima(cands)[j] == BinMaxima(k, d, from, n)[j]
    {
      assert cands[j] == BinCandidate(k, d, from + j);
    }
    assert Maxima(cands) == BinMaxima(k, d, from, n);
    var at := PeakOf(Maxima(cands)).at;
    if ScanFold(cands).maximum > 0.0 {
      assert at < n;
      assert cands[at] == BinCandidate(k, d, from + at);
    }
  }

  /**
   * The result of `radar_processing_feed`: the amplitude is always the best
   * peak; above the threshold, the winning bin and the two angle differences
   * between the phases of antennas 0 and 2 and of antennas 1 and 2, all taken
   * at antenna 0's peak velocity; otherwise zeros.
   */
  function FeedOutput(k: Kernels, d: DopplerStage, binStart: nat, binEnd: nat, threshold: real): (out: RadarOutput)
    requires k.Valid() && d.Valid() && binStart <= binEnd <= d.fftLen && threshold >= 0.0
    ensures out.amplitude == ScanBins(k, d, binStart, binEnd - binStart).maximum
    ensures out.amplitude <= threshold ==> out.range == 0.0 && out.azimuth == 0.0 && out.elevation == 0.0
  {
    var s := ScanBins(k, d, binStart, binEnd - binStart);
    if s.maximum > threshold then
      var phaseRx3 := Phase(k, BinDoppler(k, d, 2, s.bin)[s.velocity]);
      var phaseRx2 := Phase(k, BinDoppler(k, d, 1, s.bin)[s.velocity]);
      RadarOutput(s.maximum, s.bin as real, AngleDiff(s.phase, phaseRx3), AngleDiff(phaseRx2, phaseRx3))
    else
      RadarOutput(s.maximum, 0.0, 0.0, 0.0)
  }

  /**
   * The Doppler buffer after the feed's requests: above the threshold the
   * last one is antenna 1 in the detected bin, otherwise antenna 0 in the
   * last scanned bin. A plan that cannot be built leaves the old contents.
   */
  function LastDoppler(k: Kernels, d: DopplerStage, binStart: nat, binEnd: nat, threshold: real): (z: seq<Complex>)
    requires k.Valid() && d.Valid() && binStart < binEnd <= d.fftLen && threshold >= 0.0
    ensures |z| == d.chirps
    ensures !d.planOk ==> z == d.stale
  {
    var s := ScanBins(k, d, binStart, binEnd - binStart);
    if s.maximum > threshold then BinDoppler(k, d, 1, s.bin) else BinDoppler(k, d, 0, binEnd - 1)
  }

  /**
   * Above the threshold the reported range is the lowest bin whose peak is
   * the amplitude, and with an arctangent into [-pi, pi] both angles are
   * wrapped into [-pi, pi] as well.
   */
  lemma {:induction false} FeedAboveThreshold(k: Kernels, d: DopplerStage, binStart: nat, binEnd: nat, threshold: real)
    requires k.Valid() && d.Valid() && binStart <= binEnd <= d.fftLen && threshold >= 0.0
    requires FeedOutput(k, d, binStart, binEnd, threshold).amplitude > threshold
    requires forall y: real, x: real :: -PI <= k.atan2(y, x) <= PI
    ensures IsFirstPeak(BinMaxima(k, d, binStart, binEnd - binStart),
                        Peak(FeedOutput(k, d, binStart, binEnd, threshold).amplitude,
                             PeakOf(BinMaxima(k, d, binStart, binEnd - binStart)).at))
    ensures FeedOutput(k, d, binStart, binEnd, threshold).range
      == (binStart + PeakOf(BinMaxima(k, d, binStart, binEnd - binStart)).at) as real
    ensures -PI <= FeedOutput(k, d, binStart, binEnd, threshold).azimuth <= PI
    ensures -PI <= FeedOutput(k, d, binStart, binEnd, threshold).elevation <= PI
  {
    var n := binEnd - binStart;
    var s := ScanBins(k, d, binStart, n);
    ScanBinsIsPeak(k, d, binStart, n);
    PeakOfIsFirstPeak(BinMaxima(k, d, binStart, n));
    var phaseRx3 := Phase(k, BinDoppler(k, d, 2, s.bin)[s.velocity]);
    var phaseRx2 := Phase(k, BinDoppler(k, d, 1, s.bin)[s.velocity]);
    AngleDiffWrapped(s.phase, phaseRx3);
    AngleDiffWrapped(phaseRx2, phaseRx3);
  }

  /** A buffer of `n` floats filled by `ifx_window_blackmanharris_f32`. */
  method NewWindow(k: Kernels, n: U16) returns (w: array<real>)
    requires k.Valid()
    ensures fresh(w) && w[..] == k.window(n)
  {
    var coefficients := k.window(n);
    w := new real[n](i requires 0 <= i < n => coefficients[i]);
    assert w[..] == coefficients;
  }

  /** Session layout facts from the frame-size bound, with at least three antennas. */
  lemma {:induction false} SessionLayout(ac: nat, chirps: nat, n: nat)
    requires 3 <= ac && RangeFft.FrameSize(chirps, ac, n) <= 0x1_0000
    ensures Mul(Mul(3, chirps), n / 2) <= RangeFft.RangeSize(ac, chirps, n)
    ensures Mul(Mul(2, chirps), n / 2) < 0x1_0000
  {
    var h := n / 2;
    var m := Mul(chirps, h);
    MulAssoc(3, chirps, h);
    MulMono(3, ac, m);
    // the frame holds at least three times `chirps * n` samples
    MulComm(chirps, ac);
    MulAssoc(ac, chirps, n);
    MulMono(3, ac, Mul(chirps, n));
    MulIsProduct(3, Mul(chirps, n));
    // and `chirps * n` is at least twice `chirps * (n / 2)`
    MulComm(chirps, n);
    MulMono(h + h, n, chirps);
    MulAdd(h, h, chirps);
    MulComm(h, chirps);
    MulAssoc(2, chirps, h);
    MulIsProduct(2, m);
  }

  /** Length of the range buffer `radar_processing_init` allocates. */
  method RangeLength(ac: U8, chirps: U16, n: U16) returns (size: nat)
    ensures size == RangeFft.RangeSize(ac, chirps, n)
  {
    RangeFft.SizesAreProducts(ac, chirps, n);
    size := ac * chirps * (n / 2);
  }

  /**
   * The Doppler stage of a feed over a session with at least three antennas
   * and a frame that fits the 16-bit indices.
   */
  function FeedStage(rangeBuf: seq<Complex>, stale: seq<Complex>, planOk: bool, win: seq<real>,
                     ac: nat, chirps: nat, n: nat): (d: DopplerStage)
    requires 3 <= ac && 1 <= chirps && RangeFft.FrameSize(chirps, ac, n) <= 0x1_0000
    requires |rangeBuf| >= RangeFft.RangeSize(ac, chirps, n) && |stale| == chirps && |win| == chirps
    ensures d.Valid() && d.fftLen == n / 2 && d.chirps == chirps
  {
    SessionLayout(ac, chirps, n);
    DopplerStage(rangeBuf, stale, planOk, win, chirps, n / 2)
  }

  /** The range buffer, the Doppler buffer and window, and the Doppler plan agree with `d`. */
  ghost predicate StageHolds(k: Kernels, d: DopplerStage, range: array<Complex>, doppler: array<Complex>,
                             win: array<real>, plan: FftPlan)
    reads range, doppler, win, plan
  {
    && d.Valid() && range != doppler
    && d.range == range[..] && d.win == win[..] && doppler.Length == d.chirps
    && (plan.fftLen == d.chirps || k.cfftSupports(d.chirps)) == d.planOk
    && (!d.planOk ==> doppler[..] == d.stale)
  }

  /**
   * One `doppler_fft_bin_do` call of the feed, with mean removal and the
   * Doppler window; its status is not checked, and a failure leaves the
   * Doppler buffer as it was.
   */
  method DopplerBin(k: Kernels, ghost d: DopplerStage, range: array<Complex>, doppler: array<Complex>,
                    win: array<real>, plan: FftPlan, chirps: U16, fftLen: U16, antenna: U16, bin: U16)
    requires k.Valid() && StageHolds(k, d, range, doppler, win, plan)
    requires chirps == d.chirps && fftLen == d.fftLen && antenna < 3 && bin < fftLen
    modifies doppler, plan
    ensures StageHolds(k, d, range, doppler, win, plan)
    ensures plan.fftLen == PlanLenAfter(old(plan.fftLen), chirps, k.cfftSupports(chirps))
    ensures doppler[..] == BinDoppler(k, d, antenna, bin)
  {
    StageReadsInside(d, antenna, bin);
    assert win[..] == win[..chirps];
    var status := DopplerFft.DopplerFftBinDo(k, range, doppler, true, win, bin, antenna, chirps, fftLen, plan);
    assert doppler[..] == doppler[..chirps];
  }

  /**
   * One iteration of the bin loop: the Doppler transform of antenna 0 in
   * bin `bin`, then `get_max_magnitude_phase_velocity` over it.
   */
  method PeakInBin(k: Kernels, ghost d: DopplerStage, range: array<Complex>, doppler: array<Complex>,
                   win: array<real>, plan: FftPlan, chirps: U16, fftLen: U16, bin: U16)
    returns (mag: real, phase: real, velocity: U16)
    requires k.Valid() && StageHolds(k, d, range, doppler, win, plan)
    requires chirps == d.chirps && fftLen == d.fftLen && bin < fftLen
    modifies doppler, plan
    ensures StageHolds(k, d, range, doppler, win, plan)
    ensures plan.fftLen == PlanLenAfter(old(plan.fftLen), chirps, k.cfftSupports(chirps))
    ensures doppler[..] == BinDoppler(k, d, 0, bin)
    ensures BinScan(mag, bin, phase, velocity) == BinCandidate(k, d, bin)
  {
    DopplerBin(k, d, range, doppler, win, plan, chirps, fftLen, 0, bin);
    mag, phase, velocity := GetMaxMagnitudePhaseVelocity(k, doppler, chirps);
    assert doppler[..chirps] == BinDoppler(k, d, 0, bin);
  }

  /**
   * `sp` holds antenna 0's Doppler buffer for every range bin. The link to
   * `BinDoppler` is only used where that buffer is named, so that the bin
   * loop can be reasoned about apart from the numbers in it.
   */
  ghost predicate BinSpectraOf(k: Kernels, d: DopplerStage, sp: seq<seq<Complex>>)
    requires k.Valid() && d.Valid()
  {
    && |sp| == d.fftLen
    && (forall b {:trigger BinDoppler(k, d, 0, b)} :: 0 <= b < |sp| ==> sp[b] == BinDoppler(k, d, 0, b))
  }

  /** Antenna 0's Doppler buffer for every range bin. */
  ghost function BinSpectra(k: Kernels, d: DopplerStage): (sp: seq<seq<Complex>>)
    requires k.Valid() && d.Valid()
    ensures BinSpectraOf(k, d, sp)
  {
    seq(d.fftLen, b requires 0 <= b < d.fftLen => BinDoppler(k, d, 0, b))
  }

  /**
   * Plan length and Doppler buffer after the bin loop has requested bins
   * `binStart .. bin - 1`, starting from `plan0` and `doppler0`: unchanged
   * before the first request, then the plan is rebuilt for the chirp count and
   * the buffer holds the last bin's spectrum `sp[bin - 1]`.
   */
  ghost predicate AfterBins(k: Kernels, d: DopplerStage, sp: seq<seq<Complex>>, plan0: nat, doppler0: seq<Complex>,
                            binStart: nat, bin: nat, planLen: nat, buf: seq<Complex>)
    requires k.Valid() && d.Valid() && bin <= |sp|
  {
    if binStart < bin then planLen == PlanLenAfter(plan0, d.chirps, k.cfftSupports(d.chirps)) && buf == sp[bin - 1]
    else planLen == plan0 && buf == doppler0
  }

  /** The bin loop of `radar_processing_feed` over `[binStart, binEnd)`, antenna 0. */
  method ScanDopplerBins(k: Kernels, ghost d: DopplerStage, ghost sp: seq<seq<Complex>>, range: array<Complex>, doppler: array<Complex>,
                         win: array<real>, plan: FftPlan, chirps: U16, fftLen: U16, binStart: U16, binEnd: U16)
    returns (maximum: real, maxBin: U16, phase: real, velocity: U16)
    requires k.Valid() && StageHolds(k, d, range, doppler, win, plan)
    requires chirps == d.chirps && fftLen == d.fftLen && binStart <= binEnd <= fftLen && BinSpectraOf(k, d, sp)
    modifies doppler, plan
    ensures StageHolds(k, d, range, doppler, win, plan)
    ensures AfterBins(k, d, sp, old(plan.fftLen), old(doppler[..]), binStart, binEnd, plan.fftLen, doppler[..])
    ensures BinScan(maximum, maxBin, phase, velocity) == ScanBins(k, d, binStart, binEnd - binStart)
  {
    ghost var plan0, doppler0 := plan.fftLen, doppler[..];
    maximum, maxBin, phase, velocity := 0.0, 0, 0.0, 0;
    var bin := binStart;
    while bin < binEnd
      invariant binStart <= bin <= binEnd
      invariant StageHolds(k, d, range, doppler, win, plan)
      invariant AfterBins(k, d, sp, plan0, doppler0, binStart, bin, plan.fftLen, doppler[..])
      invariant BinScan(maximum, maxBin, phase, velocity) == ScanBins(k, d, binStart, bin - binStart)
    {
      maximum, maxBin, phase, velocity :=
        ScanStep(k, d, sp, range, doppler, win, plan, chirps, fftLen, binStart, binEnd, bin, plan0, doppler0,
                 maximum, maxBin, phase, velocity);
      bin := bin + 1;
    }
  }

  /** One pass of the bin loop: bin `bin` replaces the running maximum when its peak is larger. */
  method ScanStep(k: Kernels, ghost d: DopplerStage, ghost sp: seq<seq<Complex>>, range: array<Complex>, doppler: array<Complex>,
                  win: array<real>, plan: FftPlan, chirps: U16, fftLen: U16, binStart: U16, binEnd: U16,
                  bin: U16, ghost plan0: nat, ghost doppler0: seq<Complex>,
                  maximum: real, maxBin: U16, phase: real, velocity: U16)
    returns (maximum': real, maxBin': U16, phase': real, velocity': U16)
    requires k.Valid() && StageHolds(k, d, range, doppler, win, plan)
    requires chirps == d.chirps && fftLen == d.fftLen && binStart <= bin < binEnd <= fftLen && BinSpectraOf(k, d, sp)
    requires AfterBins(k, d, sp, plan0, doppler0, binStart, bin, plan.fftLen, doppler[..])
    requires BinScan(maximum, maxBin, phase, velocity) == ScanBins(k, d, binStart, bin - binStart)
    modifies doppler, plan
    ensures StageHolds(k, d, range, doppler, win, plan)
    ensures plan.fftLen == PlanLenAfter(old(plan.fftLen), chirps, k.cfftSupports(chirps))
    ensures AfterBins(k, d, sp, plan0, doppler0, binStart, bin + 1, plan.fftLen, doppler[..])
    ensures BinScan(maximum', maxBin', phase', velocity') == ScanBins(k, d, binStart, bin + 1 - binStart)
  {
    var mag, ph, vel := PeakInBin(k, d, range, doppler, win, plan, chirps, fftLen, bin);
    ScanBinsNext(k, d, binStart, bin);
    maximum', maxBin', phase', velocity' := maximum, maxBin, phase, velocity;
    if mag > maximum {
      maximum', maxBin', phase', velocity' := mag, bin, ph, vel;
    }
  }

  /**
   * The Doppler half of `radar_processing_feed`: the bin scan, then, above
   * the threshold, the Doppler transforms of antennas 2 and 1 in the winning
   * bin and the two phase differences at the winning velocity.
   */
  method Detect(k: Kernels, ghost d: DopplerStage, range: array<Complex>, doppler: array<Complex>,
                win: array<real>, plan: FftPlan, chirps: U16, fftLen: U16, binStart: U16, binEnd: U16,
                threshold: real)
    returns (result: RadarOutput)
    requires k.Valid() && StageHolds(k, d, range, doppler, win, plan)
    requires chirps == d.chirps && fftLen == d.fftLen && binStart <= binEnd <= fftLen && threshold >= 0.0
    modifies doppler, plan
    ensures result == FeedOutput(k, d, binStart, binEnd, threshold)
    ensures plan.fftLen == if binStart < binEnd then PlanLenAfter(old(plan.fftLen), chirps, k.cfftSupports(chirps))
                           else old(plan.fftLen)
    ensures doppler[..] == if binStart < binEnd then LastDoppler(k, d, binStart, binEnd, threshold)
                           else old(doppler[..])
  {
    var maximumDoppler, maxBinIdx, phaseRx1, velocityRx1 :=
      ScanDopplerBins(k, d, BinSpectra(k, d), range, doppler, win, plan, chirps, fftLen, binStart, binEnd);
    if maximumDoppler > threshold {
      DopplerBin(k, d, range, doppler, win, plan, chirps, fftLen, 2, maxBinIdx);
      var phaseRx3 := Phase(k, doppler[velocityRx1]);
      DopplerBin(k, d, range, doppler, win, plan, chirps, fftLen, 1, maxBinIdx);
      var phaseRx2 := Phase(k, doppler[velocityRx1]);
      var azimuth := AngleDiff(phaseRx1, phaseRx3);
      var elevation := AngleDiff(phaseRx2, phaseRx3);
      result := RadarOutput(maximumDoppler, maxBinIdx as real, azimuth, elevation);
    } else {
      result := RadarOutput(maximumDoppler, 0.0, 0.0, 0.0);
    }
  }

  /**
   * The module-level state of `radar_processing.c`: the internal parameters,
   * the five buffers and the function-static FFT plans of the two extractors.
   */
  class Session {
    var antennaCount: U8
    var chirpsPerFrame: U16
    var samplesPerChirp: U16
    var samplingRate: U32
    var startFreq: U64
    var endFreq: U64
    var binStart: U16
    var binEnd: U16
    var threshold: real
    var adcSamples: array?<real>
    var range: array?<Complex>
    var dopplerOut: array?<Complex>
    var window: array?<real>
    var dopplerWindow: array?<real>
    const rangePlan: FftPlan
    const dopplerPlan: FftPlan

    /** Zero-initialised statics: no buffers yet, plans of length 0. */
    constructor ()
      ensures adcSamples == null && range == null && dopplerOut == null && window == null && dopplerWindow == null
      ensures fresh(rangePlan) && fresh(dopplerPlan) && rangePlan.fftLen == 0 && dopplerPlan.fftLen == 0
      ensures antennaCount == 0 && chirpsPerFrame == 0 && samplesPerChirp == 0 && threshold == 0.0
      ensures binStart == 0 && binEnd == 0
      ensures rangePlan != dopplerPlan
    {
      antennaCount, chirpsPerFrame, samplesPerChirp := 0, 0, 0;
      samplingRate, startFreq, endFreq := 0, 0, 0;
      binStart, binEnd, threshold := 0, 0, 0.0;
      adcSamples, range, dopplerOut, window, dopplerWindow := null, null, null, null, null;
      rangePlan := new FftPlan();
      dopplerPlan := new FftPlan();
    }

    /** The state a successful `radar_processing_init` leaves: every buffer present and sized. */
    ghost predicate Ready()
      reads this
    {
      && adcSamples != null && range != null && dopplerOut != null && window != null && dopplerWindow != null
      && adcSamples.Length == samplesPerChirp && window.Length == samplesPerChirp
      && range.Length == RangeFft.RangeSize(antennaCount, chirpsPerFrame, samplesPerChirp)
      && dopplerOut.Length == chirpsPerFrame && dopplerWindow.Length == chirpsPerFrame
      && adcSamples != window && adcSamples != dopplerWindow && range != dopplerOut
      && rangePlan != dopplerPlan
      && binStart == 0 && binEnd == samplesPerChirp / 2 && threshold >= 0.0
    }

    /**
     * `radar_processing_init`: stores the configuration, the detection
     * threshold and the bin range `[0, N/2)`, then allocates the buffers.
     */
    method Init(k: Kernels, config: RadarConfiguration, alloc: Allocation) returns (status: int)
      requires k.Valid() && rangePlan != dopplerPlan
      modifies this
      ensures antennaCount == config.antennaCount && chirpsPerFrame == config.chirpsPerFrame
      ensures samplesPerChirp == config.samplesPerChirp && samplingRate == config.samplingRate
      ensures startFreq == config.startFreq && endFreq == config.endFreq
      ensures threshold == THRESHOLD && binStart == 0 && binEnd == config.samplesPerChirp / 2
      ensures status == InitStatus(alloc)
      ensures (adcSamples != null) == alloc.adcSamples
      ensures if alloc.adcSamples then (range != null) == alloc.range else range == old(range)
      ensures if alloc.adcSamples && alloc.range then (dopplerOut != null) == alloc.dopplerOut
              else dopplerOut == old(dopplerOut)
      ensures if alloc.adcSamples && alloc.range && alloc.dopplerOut then (window != null) == alloc.window
              else window == old(window)
      ensures if alloc.adcSamples && alloc.range && alloc.dopplerOut && alloc.window
              then (dopplerWindow != null) == alloc.dopplerWindow
              else dopplerWindow == old(dopplerWindow)
      ensures status == 0 ==> Ready()
      ensures status == 0 ==> fresh(adcSamples) && fresh(range) && fresh(dopplerOut) && fresh(window) && fresh(dopplerWindow)
      ensures status == 0 ==> window[..] == k.window(samplesPerChirp) && dopplerWindow[..] == k.window(chirpsPerFrame)
    {
      antennaCount := config.antennaCount;
      chirpsPerFrame := config.chirpsPerFrame;
      samplesPerChirp := config.samplesPerChirp;
      samplingRate := config.samplingRate;
      startFreq := config.startFreq;
      endFreq := config.endFreq;
      threshold := THRESHOLD;
      var fftLen: U16 := samplesPerChirp / 2;
      binStart := 0;
      binEnd := fftLen;
      status := AllocateBuffers(k, alloc);
    }

    /**
     * The allocation sequence of `radar_processing_init`: each buffer in
     * turn, returning the code of the first that cannot be allocated, and
     * generating each window once its buffer exists.
     */
    method AllocateBuffers(k: Kernels, alloc: Allocation) returns (status: int)
      requires k.Valid()
      modifies this`adcSamples, this`range, this`dopplerOut, this`window, this`dopplerWindow
      ensures status == InitStatus(alloc)
      ensures (adcSamples != null) == alloc.adcSamples
      ensures if alloc.adcSamples then (range != null) == alloc.range else range == old(range)
      ensures if alloc.adcSamples && alloc.range then (dopplerOut != null) == alloc.dopplerOut
              else dopplerOut == old(dopplerOut)
      ensures if alloc.adcSamples && alloc.range && alloc.dopplerOut then (window != null) == alloc.window
              else window == old(window)
      ensures if alloc.adcSamples && alloc.range && alloc.dopplerOut && alloc.window
              then (dopplerWindow != null) == alloc.dopplerWindow
              else dopplerWindow == old(dopplerWindow)
      ensures status == 0 ==> fresh(adcSamples) && fresh(range) && fresh(dopplerOut) && fresh(window) && fresh(dopplerWindow)
      ensures status == 0 ==> adcSamples.Length == samplesPerChirp && window.Length == samplesPerChirp
      ensures status == 0 ==> range.Length == RangeFft.RangeSize(antennaCount, chirpsPerFrame, samplesPerChirp)
      ensures status == 0 ==> dopplerOut.Length == chirpsPerFrame && dopplerWindow.Length == chirpsPerFrame
      ensures status == 0 ==> adcSamples != window && adcSamples != dopplerWindow && range != dopplerOut
      ensures status == 0 ==> window[..] == k.window(samplesPerChirp) && dopplerWindow[..] == k.window(chirpsPerFrame)
    {
      if !alloc.adcSamples {
        adcSamples := null;
        return -5;
      }
      adcSamples := new real[samplesPerChirp];
      if !alloc.range {
        range := null;
        return -6;
      }
      var rangeLen := RangeLength(antennaCount, chirpsPerFrame, samplesPerChirp);
      range := new Complex[rangeLen];
      if !alloc.dopplerOut {
        dopplerOut := null;
        return -7;
      }
      dopplerOut := new Complex[chirpsPerFrame];
      if !alloc.window {
        window := null;
        return -8;
      }
      window := NewWindow(k, samplesPerChirp);
      if !alloc.dopplerWindow {
        dopplerWindow := null;
        return -9;
      }
      dopplerWindow := NewWindow(k, chirpsPerFrame);
      return 0;
    }

    /**
     * `radar_processing_feed`: the range extractor over the frame (mean
     * removal, window, antennas 0 to 2; its status is not checked, so a
     * failure leaves the range buffer as it was), the bin scan, and the
     * threshold decision.
     */
    method Feed(k: Kernels, frame: array?<U16>) returns (result: RadarOutput)
      requires k.Valid() && Ready()
      requires 3 <= antennaCount && 1 <= chirpsPerFrame && 2 <= samplesPerChirp
      requires RangeFft.FrameSize(chirpsPerFrame, antennaCount, samplesPerChirp) <= 0x1_0000
      requires frame != null ==> frame.Length >= RangeFft.FrameSize(chirpsPerFrame, antennaCount, samplesPerChirp)
      modifies range, dopplerOut, adcSamples, rangePlan, dopplerPlan
      ensures Ready()
      ensures frame == null || !(old(rangePlan.fftLen) == samplesPerChirp || k.rfftSupports(samplesPerChirp)) ==>
        range[..] == old(range[..])
      ensures frame != null && (old(rangePlan.fftLen) == samplesPerChirp || k.rfftSupports(samplesPerChirp)) ==>
        range[..] == RangeFft.RangeOutput(k, RangeFft.RangeArgs(frame[..], true, Some(window[..samplesPerChirp]),
                                                                 antennaCount, ANTENNA_MASK, samplesPerChirp,
                                                                 chirpsPerFrame),
                                          old(range[..]))
      ensures result == FeedOutput(k, FeedStage(range[..], old(dopplerOut[..]),
                                                old(dopplerPlan.fftLen) == chirpsPerFrame || k.cfftSupports(chirpsPerFrame),
                                                dopplerWindow[..], antennaCount, chirpsPerFrame, samplesPerChirp),
                                   binStart, binEnd, threshold)
      ensures rangePlan.fftLen == if frame == null then old(rangePlan.fftLen)
                                  else PlanLenAfter(old(rangePlan.fftLen), samplesPerChirp, k.rfftSupports(samplesPerChirp))
      ensures dopplerPlan.fftLen == PlanLenAfter(old(dopplerPlan.fftLen), chirpsPerFrame, k.cfftSupports(chirpsPerFrame))
      ensures dopplerOut[..] == LastDoppler(k, FeedStage(range[..], old(dopplerOut[..]),
                                                         old(dopplerPlan.fftLen) == chirpsPerFrame || k.cfftSupports(chirpsPerFrame),
                                                         dopplerWindow[..], antennaCount, chirpsPerFrame, samplesPerChirp),
                                            binStart, binEnd, threshold)
    {
      var fftLen: U16 := samplesPerChirp / 2;
      var status := RangeFft.RangeFftDo(k, frame, range, adcSamples, true, window, antennaCount, ANTENNA_MASK,
                                        samplesPerChirp, chirpsPerFrame, rangePlan);
      ghost var d := FeedStage(range[..], dopplerOut[..],
                               dopplerPlan.fftLen == chirpsPerFrame || k.cfftSupports(chirpsPerFrame),
                               dopplerWindow[..], antennaCount, chirpsPerFrame, samplesPerChirp);
      result := Detect(k, d, range, dopplerOut, dopplerWindow, dopplerPlan, chirpsPerFrame, fftLen,
                       binStart, binEnd, threshold);
    }
  }
}

/**
 * Range extractor (`range_fft_do`): de-interleaves a frame laid out as
 * [chirp][sample][antenna], one chirp of one antenna at a time, into the ADC
 * scratch buffer, scales it, optionally removes its mean and applies a window,
 * runs the real FFT and writes N/2 complex bins per (antenna, chirp) into the
 * flat range buffer, skipping the antennas the mask leaves out.
 */
module RangeFft {
  import opened Dsp

  /** Full-scale ADC code each raw sample is divided by. */
  const ADC_FULL_SCALE: real := 4096.0

  /** The arguments of one call that the output depends on. */
  datatype RangeArgs = RangeArgs(
    frame: seq<U16>,
    meanRemoval: bool,
    win: Option<seq<real>>,
    antennaCount: nat,
    antennaMask: nat,
    samples: nat,          // num_samples_per_chirp, N
    chirps: nat)           // num_chirps_per_frame
  {
    /** Number of bins per chirp, N/2. */
    function Bins(): nat { samples / 2 }

    /** Size of one antenna's block in the range buffer: chirps * N/2. */
    function BlockLen(): nat { Mul(chirps, Bins()) }

    /** Size of the part of the range buffer the call writes: antennas * chirps * N/2. */
    function Total(): nat { RangeSize(antennaCount, chirps, samples) }

    /** Number of samples in a frame: chirps * antennas * N. */
    function FrameLen(): nat { FrameSize(chirps, antennaCount, samples) }

    /**
     * What the call needs of its arguments: a frame holding every sample, a
     * window covering a chirp, and (because `start_index` and `index` are
     * `uint16_t`) a frame of at most 65536 samples.
     */
    ghost predicate WellFormed()
    {
      && FrameLen() <= 0x1_0000
      && FrameLen() <= |frame|
      && (win.Some? ==> |win.value| >= samples)
    }
  }

  /** Samples in a frame of `chirps` chirps of `ac` antennas with `n` samples each. */
  function FrameSize(chirps: nat, ac: nat, n: nat): nat
  {
    Mul(Mul(chirps, ac), n)
  }

  /** Bins the extractor writes for `ac` antennas of `chirps` chirps with `n` samples each. */
  function RangeSize(ac: nat, chirps: nat, n: nat): nat
  {
    Mul(ac, Mul(chirps, n / 2))
  }

  /** The sizes are the products the buffer contracts of the source name. */
  lemma {:induction false} SizesAreProducts(ac: nat, chirps: nat, n: nat)
    ensures FrameSize(chirps, ac, n) == ac * chirps * n
    ensures RangeSize(ac, chirps, n) == ac * (chirps * (n / 2))
  {
    MulIsProduct(chirps, ac);
    MulIsProduct(chirps * ac, n);
    MulIsProduct(chirps, n / 2);
    MulIsProduct(ac, chirps * (n / 2));
  }

  /** `((1 << a) & mask) != 0`: the mask selects antenna `a`. */
  function MaskBit(mask: nat, a: nat): bool
  {
    if a == 0 then mask % 2 == 1 else MaskBit(mask / 2, a - 1)
  }

  /** The mask 0b111 selects exactly antennas 0, 1 and 2. */
  lemma {:induction false} MaskBitSeven(a: nat)
    ensures MaskBit(7, a) <==> a < 3
  {
    if a >= 3 {
      assert MaskBit(7, a) == MaskBit(3, a - 1) == MaskBit(1, a - 2) == MaskBit(0, a - 3);
      MaskBitZero(a - 3);
    }
  }

  /** The empty mask selects no antenna. */
  lemma {:induction false} MaskBitZero(a: nat)
    ensures !MaskBit(0, a)
  {
    if a > 0 {
      MaskBitZero(a - 1);
    }
  }

  /**
   * Frame index read for antenna `a`, chirp `c`, sample `s`, as the source
   * computes it: the chirp start `c * ac * n` and then the sum are both
   * stored in `uint16_t` variables.
   */
  function FrameIndex(ac: nat, n: nat, c: nat, s: nat, a: nat): U16
  {
    Wrap16(Wrap16(Mul(Mul(c, ac), n)) + Mul(s, ac) + a)
  }

  /**
   * Under the frame-size bound neither `uint16_t` truncation wraps: the index
   * is the sample's position `c * ac * N + s * ac + a` in the
   * [chirp][sample][antenna] frame, and it lies inside the frame.
   */
  lemma {:induction false} FrameIndexInBounds(r: RangeArgs, a: nat, c: nat, s: nat)
    requires r.WellFormed() && a < r.antennaCount && c < r.chirps && s < r.samples
    ensures FrameIndex(r.antennaCount, r.samples, c, s, a)
      == Mul(Mul(c, r.antennaCount), r.samples) + Mul(s, r.antennaCount) + a
    ensures FrameIndex(r.antennaCount, r.samples, c, s, a) < r.FrameLen() <= |r.frame|
  {
    var ac, n := r.antennaCount, r.samples;
    var start := Mul(Mul(c, ac), n);
    MulMono(s + 1, n, ac);
    MulComm(n, ac);
    MulAdd(Mul(c, ac), ac, n);
    assert Mul(c + 1, ac) == Mul(c, ac) + ac;
    MulMono(c + 1, r.chirps, ac);
    MulMono(Mul(c + 1, ac), Mul(r.chirps, ac), n);
    assert start + Mul(s, ac) + a < start + Mul(ac, n) <= r.FrameLen();
  }

  /** One chirp of one antenna, de-interleaved and scaled by 1/4096. */
  function ChirpSamples(r: RangeArgs, a: nat, c: nat): (x: seq<real>)
    requires r.WellFormed() && a < r.antennaCount && c < r.chirps
    ensures |x| == r.samples
  {
    seq(r.samples, s requires 0 <= s < r.samples =>
      FrameIndexInBounds(r, a, c, s);
      r.frame[FrameIndex(r.antennaCount, r.samples, c, s, a)] as real / ADC_FULL_SCALE)
  }

  /** `FrameIndex` is the source's expression with its two `uint16_t` truncations. */
  lemma {:induction false} FrameIndexIsSourceExpression(ac: nat, n: nat, c: nat, s: nat, a: nat)
    ensures FrameIndex(ac, n, c, s, a) == Wrap16(Wrap16(c * ac * n) + s * ac + a)
  {
    MulIsProduct(c, ac);
    MulIsProduct(Mul(c, ac), n);
    MulIsProduct(s, ac);
  }

  /** `arm_mult_f32(x, w, x, n)`: element-wise product with the window. */
  function Windowed(x: seq<real>, w: seq<real>): (y: seq<real>)
    requires |w| >= |x|
    ensures |y| == |x|
    ensures forall i :: 0 <= i < |x| ==> y[i] == x[i] * w[i]
  {
    seq(|x|, i requires 0 <= i < |x| => x[i] * w[i])
  }

  /** The scratch buffer after the optional mean removal and then the optional window. */
  function Conditioned(k: Kernels, x: seq<real>, meanRemoval: bool, win: Option<seq<real>>): (y: seq<real>)
    requires k.Valid()
    requires win.Some? ==> |win.value| >= |x|
    ensures |y| == |x|
    ensures !meanRemoval && win.None? ==> y == x
  {
    var centred := if meanRemoval then k.meanRemoval(x) else x;
    if win.Some? then Windowed(centred, win.value) else centred
  }

  /**
   * The packed real-FFT layout stores the Nyquist real part in the imaginary
   * slot of bin 0; the extractor overwrites it with zero.
   */
  function DcFixed(bins: seq<Complex>): (r: seq<Complex>)
    ensures |r| == |bins|
    ensures |r| > 0 ==> r[0] == Complex(bins[0].re, 0.0)
    ensures forall i :: 0 < i < |r| ==> r[i] == bins[i]
  {
    if |bins| == 0 then bins else [Complex(bins[0].re, 0.0)] + bins[1..]
  }

  /** The N/2 bins the extractor writes for antenna `a`, chirp `c`. */
  function ChirpSpectrum(k: Kernels, r: RangeArgs, a: nat, c: nat): (bins: seq<Complex>)
    requires k.Valid() && r.WellFormed() && a < r.antennaCount && c < r.chirps
    ensures |bins| == r.Bins()
    ensures r.Bins() > 0 ==> bins[0].im == 0.0
  {
    DcFixed(k.rfft(Conditioned(k, ChirpSamples(r, a, c), r.meanRemoval, r.win)))
  }

  /** The spectra of the first `c` chirps of antenna `a`, one after the other. */
  function ChirpBlocks(k: Kernels, r: RangeArgs, a: nat, c: nat): (s: seq<Complex>)
    requires k.Valid() && r.WellFormed() && a < r.antennaCount && c <= r.chirps
    ensures |s| == Mul(c, r.Bins())
  {
    if c == 0 then [] else ChirpBlocks(k, r, a, c - 1) + ChirpSpectrum(k, r, a, c - 1)
  }

  /** Antenna `a`'s block ends inside the written part of the buffer. */
  lemma {:induction false} BlockInside(r: RangeArgs, a: nat)
    requires a < r.antennaCount
    ensures Mul(a + 1, r.BlockLen()) == Mul(a, r.BlockLen()) + r.BlockLen() <= r.Total()
  {
    MulMono(a + 1, r.antennaCount, r.BlockLen());
  }

  /** One block of `chirps * N/2` bins per antenna. */
  ghost predicate Shaped(r: RangeArgs, sp: seq<seq<Complex>>)
  {
    && |sp| == r.antennaCount
    && (forall a :: 0 <= a < |sp| ==> |sp[a]| == r.BlockLen())
  }

  /**
   * `sp` holds, for every antenna, the spectra of all its chirps one after
   * the other. The link to `ChirpBlocks` is only used where that block is
   * named, so that the layout of the buffer can be reasoned about apart
   * from the numbers in it.
   */
  ghost predicate SpectraOf(k: Kernels, r: RangeArgs, sp: seq<seq<Complex>>)
    requires k.Valid() && r.WellFormed()
  {
    && Shaped(r, sp)
    && (forall a {:trigger ChirpBlocks(k, r, a, r.chirps)} ::
          0 <= a < |sp| ==> sp[a] == ChirpBlocks(k, r, a, r.chirps))
  }

  /** The chirp spectra of every antenna. */
  ghost function Spectra(k: Kernels, r: RangeArgs): (sp: seq<seq<Complex>>)
    requires k.Valid() && r.WellFormed()
    ensures SpectraOf(k, r, sp)
  {
    seq(r.antennaCount, a requires 0 <= a < r.antennaCount => ChirpBlocks(k, r, a, r.chirps))
  }

  /** Antenna `a`'s block after the call: its spectra `sp[a]` if selected, the old contents if not. */
  function AntennaBlock(r: RangeArgs, prev: seq<Complex>, sp: seq<seq<Complex>>, a: nat): (s: seq<Complex>)
    requires r.WellFormed() && Shaped(r, sp) && a < r.antennaCount && |prev| >= r.Total()
    ensures |s| == r.BlockLen()
  {
    BlockInside(r, a);
    if MaskBit(r.antennaMask, a) then sp[a]
    else prev[Mul(a, r.BlockLen()) .. Mul(a + 1, r.BlockLen())]
  }

  /** The blocks of the first `m` antennas after the call. */
  function Antennas(r: RangeArgs, prev: seq<Complex>, sp: seq<seq<Complex>>, m: nat): (s: seq<Complex>)
    requires r.WellFormed() && Shaped(r, sp) && m <= r.antennaCount && |prev| >= r.Total()
    ensures |s| == Mul(m, r.BlockLen())
  {
    if m == 0 then [] else Antennas(r, prev, sp, m - 1) + AntennaBlock(r, prev, sp, m - 1)
  }

  /** The range buffer after the antenna loop, given its contents `prev` before and the spectra `sp`. */
  function Layout(r: RangeArgs, prev: seq<Complex>, sp: seq<seq<Complex>>): (s: seq<Complex>)
    requires r.WellFormed() && Shaped(r, sp) && |prev| >= r.Total()
    ensures |s| == |prev|
  {
    Antennas(r, prev, sp, r.antennaCount) + prev[r.Total()..]
  }

  /**
   * The range buffer after the antenna loop has handled antennas 0 .. a - 1,
   * starting from `prev`: a selected antenna's block is overwritten with its
   * spectra, any other antenna only moves the cursor on.
   */
  function Pass(r: RangeArgs, prev: seq<Complex>, sp: seq<seq<Complex>>, a: nat): (s: seq<Complex>)
    requires r.WellFormed() && Shaped(r, sp) && a <= r.antennaCount && |prev| >= r.Total()
    ensures |s| == |prev|
  {
    if a == 0 then prev
    else
      var s := Pass(r, prev, sp, a - 1);
      BlockInside(r, a - 1);
      if MaskBit(r.antennaMask, a - 1) then s[..Mul(a - 1, r.BlockLen())] + sp[a - 1] + s[Mul(a, r.BlockLen())..]
      else s
  }

  /** The whole range buffer after a successful call, given its contents `prev` before. */
  ghost function RangeOutput(k: Kernels, r: RangeArgs, prev: seq<Complex>): (s: seq<Complex>)
    requires k.Valid() && r.WellFormed() && |prev| >= r.Total()
    ensures |s| == |prev|
  {
    Layout(r, prev, Spectra(k, r))
  }

  lemma {:induction false} ChirpBlocksAt(k: Kernels, r: RangeArgs, a: nat, c: nat, j: nat, b: nat)
    requires k.Valid() && r.WellFormed() && a < r.antennaCount && c <= r.chirps
    requires j < c && b < r.Bins()
    ensures Mul(j, r.Bins()) + b < Mul(c, r.Bins())
    ensures ChirpBlocks(k, r, a, c)[Mul(j, r.Bins()) + b] == ChirpSpectrum(k, r, a, j)[b]
  {
    MulMono(j + 1, c, r.Bins());
    if j < c - 1 {
      ChirpBlocksAt(k, r, a, c - 1, j, b);
    }
  }

  /** An index into the left part of a concatenation. */
  lemma CatLeft<T>(s: seq<T>, t: seq<T>, j: nat)
    requires j < |s|
    ensures (s + t)[j] == s[j]
  {
  }

  /** An index into the right part of a concatenation. */
  lemma CatRight<T>(s: seq<T>, t: seq<T>, j: nat)
    requires |s| <= j < |s| + |t|
    ensures (s + t)[j] == t[j - |s|]
  {
  }

  /**
   * The blocks `bs`, each `len` long, laid end to end: `pre[x]` holds the
   * first `x` of them.
   */
  ghost predicate Laid<T>(pre: seq<seq<T>>, bs: seq<seq<T>>, len: nat)
  {
    && |pre| == |bs| + 1
    && pre[0] == []
    && (forall x :: 0 <= x < |bs| ==> |bs[x]| == len)
    && (forall x :: 0 <= x < |bs| ==> pre[x + 1] == pre[x] + bs[x])
  }

  /** The first `m` blocks take `m * len` entries. */
  lemma {:induction false} LaidLength<T>(pre: seq<seq<T>>, bs: seq<seq<T>>, len: nat, m: nat)
    requires Laid(pre, bs, len) && m <= |bs|
    ensures |pre[m]| == Mul(m, len)
  {
    if m > 0 {
      LaidLength(pre, bs, len, m - 1);
      assert pre[m] == pre[m - 1] + bs[m - 1];
    }
  }

  /** Entry `i` of block `a` sits at `a * len + i`. */
  lemma {:induction false} LaidAt<T>(pre: seq<seq<T>>, bs: seq<seq<T>>, len: nat, m: nat, a: nat, i: nat)
    requires Laid(pre, bs, len) && a < m <= |bs| && i < len
    ensures Mul(a, len) + i < Mul(m, len) == |pre[m]|
    ensures pre[m][Mul(a, len) + i] == bs[a][i]
  {
    LaidLength(pre, bs, len, m - 1);
    LaidLength(pre, bs, len, m);
    assert pre[m] == pre[m - 1] + bs[m - 1];
    if a == m - 1 {
      CatRight(pre[m - 1], bs[m - 1], Mul(a, len) + i);
    } else {
      LaidAt(pre, bs, len, m - 1, a, i);
      CatLeft(pre[m - 1], bs[m - 1], Mul(a, len) + i);
    }
  }

  /** The blocks of all antennas after the call. */
  ghost function AntennaBlocks(r: RangeArgs, prev: seq<Complex>, sp: seq<seq<Complex>>): (bs: seq<seq<Complex>>)
    requires r.WellFormed() && Shaped(r, sp) && |prev| >= r.Total()
    ensures |bs| == r.antennaCount
  {
    seq(r.antennaCount, a requires 0 <= a < r.antennaCount => AntennaBlock(r, prev, sp, a))
  }

  /** `Antennas` for every number of antennas. */
  ghost function AntennaPrefixes(r: RangeArgs, prev: seq<Complex>, sp: seq<seq<Complex>>): (pre: seq<seq<Complex>>)
    requires r.WellFormed() && Shaped(r, sp) && |prev| >= r.Total()
    ensures |pre| == r.antennaCount + 1
  {
    seq(r.antennaCount + 1, m requires 0 <= m <= r.antennaCount => Antennas(r, prev, sp, m))
  }

  /** `Antennas` lays the antenna blocks end to end. */
  lemma {:induction false} AntennasLaid(r: RangeArgs, prev: seq<Complex>, sp: seq<seq<Complex>>)
    requires r.WellFormed() && Shaped(r, sp) && |prev| >= r.Total()
    ensures Laid(AntennaPrefixes(r, prev, sp), AntennaBlocks(r, prev, sp), r.BlockLen())
  {
    var pre, bs := AntennaPrefixes(r, prev, sp), AntennaBlocks(r, prev, sp);
    forall x | 0 <= x < |bs|
      ensures pre[x + 1] == pre[x] + bs[x]
    {
      assert Antennas(r, prev, sp, x + 1) == Antennas(r, prev, sp, x) + AntennaBlock(r, prev, sp, x);
    }
  }

  /** Entry `i` of antenna `a`'s block is entry `a * chirps * N/2 + i` of the first `m` blocks. */
  lemma {:induction false} AntennasAt(r: RangeArgs, prev: seq<Complex>, sp: seq<seq<Complex>>, m: nat, a: nat, i: nat)
    requires r.WellFormed() && Shaped(r, sp) && m <= r.antennaCount && |prev| >= r.Total()
    requires a < m && i < r.BlockLen()
    ensures Mul(a, r.BlockLen()) + i < Mul(m, r.BlockLen())
    ensures Antennas(r, prev, sp, m)[Mul(a, r.BlockLen()) + i] == AntennaBlock(r, prev, sp, a)[i]
  {
    AntennasLaid(r, prev, sp);
    LaidAt(AntennaPrefixes(r, prev, sp), AntennaBlocks(r, prev, sp), r.BlockLen(), m, a, i);
  }

  /** Entry `i` of antenna `a`'s block is entry `a * chirps * N/2 + i` of the buffer. */
  lemma {:induction false} LayoutInBlock(r: RangeArgs, prev: seq<Complex>, sp: seq<seq<Complex>>, a: nat, i: nat)
    requires r.WellFormed() && Shaped(r, sp) && |prev| >= r.Total()
    requires a < r.antennaCount && i < r.BlockLen()
    ensures Mul(a, r.BlockLen()) + i < r.Total()
    ensures Layout(r, prev, sp)[Mul(a, r.BlockLen()) + i] == AntennaBlock(r, prev, sp, a)[i]
  {
    AntennasAt(r, prev, sp, r.antennaCount, a, i);
    CatLeft(Antennas(r, prev, sp, r.antennaCount), prev[r.Total()..], Mul(a, r.BlockLen()) + i);
  }

  /** Entry `i` of antenna `a`'s block: entry `i` of its spectra if selected, the old entry otherwise. */
  lemma {:induction false} AntennaBlockAt(r: RangeArgs, prev: seq<Complex>, sp: seq<seq<Complex>>, a: nat, i: nat)
    requires r.WellFormed() && Shaped(r, sp) && |prev| >= r.Total()
    requires a < r.antennaCount && i < r.BlockLen()
    ensures Mul(a, r.BlockLen()) + i < r.Total()
    ensures AntennaBlock(r, prev, sp, a)[i]
      == if MaskBit(r.antennaMask, a) then sp[a][i] else prev[Mul(a, r.BlockLen()) + i]
  {
    BlockInside(r, a);
  }

  /** Entry `a * chirps * N/2 + i` of the layout, for `i` inside antenna `a`'s block. */
  lemma {:induction false} LayoutAt(r: RangeArgs, prev: seq<Complex>, sp: seq<seq<Complex>>, a: nat, i: nat)
    requires r.WellFormed() && Shaped(r, sp) && |prev| >= r.Total()
    requires a < r.antennaCount && i < r.BlockLen()
    ensures Mul(a, r.BlockLen()) + i < r.Total()
    ensures Layout(r, prev, sp)[Mul(a, r.BlockLen()) + i]
      == if MaskBit(r.antennaMask, a) then sp[a][i] else prev[Mul(a, r.BlockLen()) + i]
  {
    LayoutInBlock(r, prev, sp, a, i);
    AntennaBlockAt(r, prev, sp, a, i);
  }

  /**
   * Block layout of the range buffer: bin `b` of chirp `c` of antenna `a`
   * sits at `a * chirps * N/2 + c * N/2 + b`; it holds that chirp's spectrum
   * when the mask selects the antenna and is left as it was otherwise.
   */
  lemma {:induction false} RangeOutputAt(k: Kernels, r: RangeArgs, prev: seq<Complex>, a: nat, c: nat, b: nat)
    requires k.Valid() && r.WellFormed() && |prev| >= r.Total()
    requires a < r.antennaCount && c < r.chirps && b < r.Bins()
    ensures Mul(a, r.BlockLen()) + Mul(c, r.Bins()) + b < r.Total()
    ensures RangeOutput(k, r, prev)[Mul(a, r.BlockLen()) + Mul(c, r.Bins()) + b]
      == if MaskBit(r.antennaMask, a) then ChirpSpectrum(k, r, a, c)[b]
         else prev[Mul(a, r.BlockLen()) + Mul(c, r.Bins()) + b]
  {
    var sp := Spectra(k, r);
    var i := Mul(c, r.Bins()) + b;
    ChirpBlocksAt(k, r, a, r.chirps, c, b);
    LayoutAt(r, prev, sp, a, i);
    assert sp[a] == ChirpBlocks(k, r, a, r.chirps);
    assert Mul(a, r.BlockLen()) + Mul(c, r.Bins()) + b == Mul(a, r.BlockLen()) + i;
  }

  /** Entries past the last antenna's block are never written. */
  lemma {:induction false} RangeOutputTail(k: Kernels, r: RangeArgs, prev: seq<Complex>, i: nat)
    requires k.Valid() && r.WellFormed() && r.Total() <= i < |prev|
    ensures RangeOutput(k, r, prev)[i] == prev[i]
  {
    var sp := Spectra(k, r);
    CatRight(Antennas(r, prev, sp, r.antennaCount), prev[r.Total()..], i);
  }

  /** After every chirp's transform the imaginary part of its bin 0 is exactly zero. */
  lemma {:induction false} RangeOutputDcImag(k: Kernels, r: RangeArgs, prev: seq<Complex>, a: nat, c: nat)
    requires k.Valid() && r.WellFormed() && |prev| >= r.Total()
    requires a < r.antennaCount && c < r.chirps && r.Bins() > 0
    requires MaskBit(r.antennaMask, a)
    ensures Mul(a, r.BlockLen()) + Mul(c, r.Bins()) < r.Total()
    ensures RangeOutput(k, r, prev)[Mul(a, r.BlockLen()) + Mul(c, r.Bins())].im == 0.0
  {
    RangeOutputAt(k, r, prev, a, c, 0);
  }

  /** A buffer is its part before `from`, nothing written yet, and its part from `from` on. */
  lemma {:induction false} NothingWritten<T>(s: seq<T>, from: nat)
    requires from <= |s|
    ensures s == s[..from] + [] + s[from..]
  {
    assert s[..from] + [] + s[from..] == s[..from] + s[from..];
  }

  /**
   * Writing `s` at `from` over a buffer that holds `done + more` up to `from`
   * and the untouched `whole` after it extends the finished part by `s`.
   */
  lemma {:induction false} Overwrite<T>(done: seq<T>, more: seq<T>, s: seq<T>, whole: seq<T>, from: nat,
                                        cur: seq<T>, next: seq<T>)
    requires |done| + |more| == from && from + |s| <= |whole|
    requires cur == done + more + whole[from..]
    requires next == cur[..from] + s + cur[from + |s|..]
    ensures next == done + (more + s) + whole[from + |s|..]
  {
    assert cur[..from] == done + more;
    assert cur[from + |s|..] == whole[from..][|s|..] == whole[from + |s|..];
  }

  /**
   * One pass of the antenna loop: a selected antenna's block is replaced by
   * its chirp spectra, any other block is left as it was, and in both cases
   * the buffer then holds the first `a + 1` blocks of the result.
   */
  lemma {:induction false} AntennaStep(r: RangeArgs, prev: seq<Complex>, sp: seq<seq<Complex>>, a: nat, off: nat,
                                       cur: seq<Complex>, next: seq<Complex>)
    requires r.WellFormed() && Shaped(r, sp) && |prev| >= r.Total() && a < r.antennaCount
    requires off == Mul(a, r.BlockLen()) && off + r.BlockLen() <= |prev|
    requires cur == Antennas(r, prev, sp, a) + prev[off..]
    requires MaskBit(r.antennaMask, a) ==> next == cur[..off] + sp[a] + cur[off + r.BlockLen()..]
    requires !MaskBit(r.antennaMask, a) ==> next == cur
    ensures next == Antennas(r, prev, sp, a + 1) + prev[off + r.BlockLen()..]
  {
    BlockInside(r, a);
    var block := AntennaBlock(r, prev, sp, a);
    if MaskBit(r.antennaMask, a) {
      Overwrite(Antennas(r, prev, sp, a), [], block, prev, off, cur, next);
    } else {
      assert block == prev[off .. off + r.BlockLen()];
      assert prev[off..] == block + prev[off + r.BlockLen()..];
    }
  }

  /** `index = start_index + s * ac + a`, stored in a `uint16_t`. */
  method SampleIndex(start: U16, s: nat, ac: nat, a: nat) returns (index: U16)
    ensures index == Wrap16(start + Mul(s, ac) + a)
  {
    index := Wrap16(start + s * ac + a);
    MulIsProduct(s, ac);
  }

  /** The sample loop: chirp `c` of antenna `a` copied out of the frame and scaled. */
  method DeinterleaveChirp(ghost r: RangeArgs, frame: array<U16>, adcSamples: array<real>,
                           antennaCount: nat, numSamplesPerChirp: nat, a: nat, c: nat)
    requires r.WellFormed() && r.frame == frame[..]
    requires r.antennaCount == antennaCount && r.samples == numSamplesPerChirp
    requires a < antennaCount && c < r.chirps && numSamplesPerChirp <= adcSamples.Length
    modifies adcSamples
    ensures adcSamples[..numSamplesPerChirp] == ChirpSamples(r, a, c)
  {
    var n, ac := numSamplesPerChirp, antennaCount;
    var startIndex := StartIndex16(c, ac, n);
    var s := 0;
    while s < n
      invariant 0 <= s <= n
      invariant forall i :: 0 <= i < s ==> adcSamples[i] == ChirpSamples(r, a, c)[i]
    {
      var index := SampleIndex(startIndex, s, ac, a);
      FrameIndexInBounds(r, a, c, s);
      adcSamples[s] := frame[index] as real / ADC_FULL_SCALE;
      s := s + 1;
    }
    ghost var samples := ChirpSamples(r, a, c);
    assert forall i :: 0 <= i < n ==> adcSamples[..n][i] == samples[i];
  }

  /** `ifx_mean_removal_f32` applied in place to the first `n` samples. */
  method RemoveMeanInPlace(k: Kernels, x: array<real>, n: nat)
    requires k.Valid() && n <= x.Length
    modifies x
    ensures x[..n] == k.meanRemoval(old(x[..n]))
    ensures x[n..] == old(x[n..])
  {
    var m := k.meanRemoval(x[..n]);
    forall i | 0 <= i < n {
      x[i] := m[i];
    }
    assert forall i :: 0 <= i < n ==> x[..n][i] == m[i];
  }

  /** `arm_mult_f32(x, w, x, n)`: element-wise product written back over `x`. */
  method MultiplyInPlace(x: array<real>, w: array<real>, n: nat)
    requires n <= x.Length && n <= w.Length && x != w
    modifies x
    ensures x[..n] == Windowed(old(x[..n]), w[..n])
    ensures x[n..] == old(x[n..])
  {
    ghost var before := x[..n];
    forall i | 0 <= i < n {
      x[i] := x[i] * w[i];
    }
    ghost var y := Windowed(before, w[..n]);
    assert forall i :: 0 <= i < n ==> x[..n][i] == y[i];
  }

  /**
   * The packed real FFT written at the cursor, then the imaginary part of
   * bin 0 cleared.
   */
  method WriteSpectrum(range: array<Complex>, off: nat, bins: seq<Complex>)
    requires 0 < |bins| && off + |bins| <= range.Length
    modifies range
    ensures range[..] == old(range[..])[..off] + DcFixed(bins) + old(range[..])[off + |bins|..]
  {
    ghost var before := range[..];
    forall i | off <= i < off + |bins| {
      range[i] := bins[i - off];
    }
    range[off] := Complex(range[off].re, 0.0);
    ghost var expected := before[..off] + DcFixed(bins) + before[off + |bins|..];
    assert forall i :: 0 <= i < range.Length ==> range[..][i] == expected[i];
  }

  /**
   * `r` is what the buffers and scalars of the call hold: the arguments the
   * chirp and antenna loops share with the whole call.
   */
  ghost predicate Describes(r: RangeArgs, frame: array<U16>, adcSamples: array<real>, meanRemoval: bool,
                            win: array?<real>, antennaCount: nat, numSamplesPerChirp: nat)
    reads frame, win
  {
    && 2 <= numSamplesPerChirp <= adcSamples.Length
    && (win != null ==> win.Length >= numSamplesPerChirp && win != adcSamples)
    && r.frame == frame[..] && r.meanRemoval == meanRemoval
    && r.win == (if win == null then None else Some(win[..numSamplesPerChirp]))
    && r.antennaCount == antennaCount && r.samples == numSamplesPerChirp
  }

  /**
   * One pass of the chirp loop for antenna `a`, chirp `c`: de-interleave,
   * scale, condition, transform, clear the imaginary part of bin 0.
   */
  method TransformChirp(k: Kernels, ghost r: RangeArgs, frame: array<U16>, range: array<Complex>,
                        adcSamples: array<real>, meanRemoval: bool, win: array?<real>,
                        antennaCount: nat, numSamplesPerChirp: nat, a: nat, c: nat, off: nat)
    requires k.Valid() && r.WellFormed()
    requires Describes(r, frame, adcSamples, meanRemoval, win, antennaCount, numSamplesPerChirp)
    requires a < antennaCount && c < r.chirps
    requires off + r.Bins() <= range.Length
    modifies range, adcSamples
    ensures range[..] == old(range[..])[..off] + ChirpSpectrum(k, r, a, c) + old(range[..])[off + r.Bins()..]
  {
    var n := numSamplesPerChirp;
    DeinterleaveChirp(r, frame, adcSamples, antennaCount, n, a, c);
    ghost var samples := ChirpSamples(r, a, c);
    if meanRemoval {
      RemoveMeanInPlace(k, adcSamples, n);
    }
    if win != null {
      MultiplyInPlace(adcSamples, win, n);
    }
    assert adcSamples[..n] == Conditioned(k, samples, meanRemoval, r.win);
    var bins := k.rfft(adcSamples[..n]);
    WriteSpectrum(range, off, bins);
  }

  /**
   * One pass of the chirp loop: chirp `c`'s spectrum is written at the
   * cursor, which extends the finished part of the antenna's block by it.
   */
  method ChirpStep(k: Kernels, ghost r: RangeArgs, frame: array<U16>, range: array<Complex>,
                   adcSamples: array<real>, meanRemoval: bool, win: array?<real>,
                   antennaCount: nat, numSamplesPerChirp: nat, a: nat, c: nat,
                   ghost prev: seq<Complex>, start: nat, off: nat)
    requires k.Valid() && r.WellFormed()
    requires Describes(r, frame, adcSamples, meanRemoval, win, antennaCount, numSamplesPerChirp)
    requires a < antennaCount && c < r.chirps && off == start + Mul(c, r.Bins())
    requires off + r.Bins() <= |prev| == range.Length
    requires range[..] == prev[..start] + ChirpBlocks(k, r, a, c) + prev[off..]
    modifies range, adcSamples
    ensures range[..] == prev[..start] + ChirpBlocks(k, r, a, c + 1) + prev[off + r.Bins()..]
  {
    ghost var cur := range[..];
    TransformChirp(k, r, frame, range, adcSamples, meanRemoval, win, antennaCount, numSamplesPerChirp, a, c, off);
    Overwrite(prev[..start], ChirpBlocks(k, r, a, c), ChirpSpectrum(k, r, a, c), prev, off, cur, range[..]);
  }

  /**
   * The chirp loop for one selected antenna: chirp after chirp, its spectrum
   * is written at the cursor, which then advances by N/2 bins.
   */
  method TransformAntenna(k: Kernels, ghost r: RangeArgs, frame: array<U16>, range: array<Complex>,
                          adcSamples: array<real>, meanRemoval: bool, win: array?<real>,
                          antennaCount: nat, numSamplesPerChirp: nat, chirps: nat, a: nat, start: nat)
    requires k.Valid() && r.WellFormed()
    requires Describes(r, frame, adcSamples, meanRemoval, win, antennaCount, numSamplesPerChirp)
    requires r.chirps == chirps && a < antennaCount
    requires start + r.BlockLen() <= range.Length
    modifies range, adcSamples
    ensures range[..] == old(range[..])[..start] + ChirpBlocks(k, r, a, chirps) + old(range[..])[start + r.BlockLen()..]
  {
    var L: nat := numSamplesPerChirp / 2;
    ghost var prev := range[..];
    NothingWritten(prev, start);
    var off: nat := start;
    var c: nat := 0;
    while c < chirps
      invariant c <= chirps && off == start + Mul(c, r.Bins()) && off <= start + r.BlockLen()
      invariant range[..] == prev[..start] + ChirpBlocks(k, r, a, c) + prev[off..]
      modifies range, adcSamples
    {
      MulMono(c + 1, chirps, r.Bins());
      ChirpStep(k, r, frame, range, adcSamples, meanRemoval, win, antennaCount, numSamplesPerChirp, a, c, prev, start, off);
      assert L == r.Bins();
      off := off + L;
      c := c + 1;
    }
  }

  /**
   * One pass of the antenna loop: a selected antenna's block is transformed,
   * any other block is skipped.
   */
  method AntennaPass(k: Kernels, ghost r: RangeArgs, frame: array<U16>, range: array<Complex>,
                     adcSamples: array<real>, meanRemoval: bool, win: array?<real>,
                     antennaCount: nat, antennaMask: nat, numSamplesPerChirp: nat, chirps: nat,
                     ghost prev: seq<Complex>, ghost sp: seq<seq<Complex>>, a: nat, off: nat)
    requires k.Valid() && r.WellFormed() && SpectraOf(k, r, sp)
    requires Describes(r, frame, adcSamples, meanRemoval, win, antennaCount, numSamplesPerChirp)
    requires r.chirps == chirps && r.antennaMask == antennaMask && a < antennaCount
    requires r.Total() <= |prev| == range.Length
    requires off == Mul(a, r.BlockLen())
    requires range[..] == Pass(r, prev, sp, a)
    modifies range, adcSamples
    ensures range[..] == Pass(r, prev, sp, a + 1)
  {
    BlockInside(r, a);
    if MaskBit(antennaMask, a) {
      TransformAntenna(k, r, frame, range, adcSamples, meanRemoval, win, antennaCount, numSamplesPerChirp, chirps, a, off);
      assert sp[a] == ChirpBlocks(k, r, a, r.chirps);
    }
  }

  /**
   * The antenna loop: each selected antenna's block is transformed, each
   * other block skipped, the cursor advancing by a block either way.
   */
  method TransformAntennas(k: Kernels, ghost r: RangeArgs, frame: array<U16>, range: array<Complex>,
                           adcSamples: array<real>, meanRemoval: bool, win: array?<real>,
                           antennaCount: nat, antennaMask: nat, numSamplesPerChirp: nat, chirps: nat,
                           ghost sp: seq<seq<Complex>>)
    requires k.Valid() && r.WellFormed() && SpectraOf(k, r, sp)
    requires Describes(r, frame, adcSamples, meanRemoval, win, antennaCount, numSamplesPerChirp)
    requires r.chirps == chirps && r.antennaMask == antennaMask
    requires r.Total() <= range.Length
    modifies range, adcSamples
    ensures range[..] == Pass(r, old(range[..]), sp, r.antennaCount)
  {
    var blockLen: nat := chirps * (numSamplesPerChirp / 2);
    MulIsProduct(chirps, numSamplesPerChirp / 2);
    ghost var prev := range[..];
    var off: nat := 0;
    var a: nat := 0;
    while a < antennaCount
      invariant a <= antennaCount && off == Mul(a, r.BlockLen())
      invariant range[..] == Pass(r, prev, sp, a)
      modifies range, adcSamples
    {
      // An antenna outside the mask only advances the cursor over its block.
      AntennaPass(k, r, frame, range, adcSamples, meanRemoval, win, antennaCount, antennaMask,
                  numSamplesPerChirp, chirps, prev, sp, a, off);
      assert blockLen == r.BlockLen();
      off := off + blockLen;
      a := a + 1;
    }
  }

  /**
   * After `a` passes the buffer holds the blocks of the first `a` antennas
   * followed by the untouched rest.
   */
  lemma {:induction false} PassLaysOut(r: RangeArgs, prev: seq<Complex>, sp: seq<seq<Complex>>, a: nat)
    requires r.WellFormed() && Shaped(r, sp) && |prev| >= r.Total() && a <= r.antennaCount
    ensures Mul(a, r.BlockLen()) <= r.Total()
    ensures Pass(r, prev, sp, a) == Antennas(r, prev, sp, a) + prev[Mul(a, r.BlockLen())..]
  {
    if a == 0 {
      assert Antennas(r, prev, sp, 0) == [];
    } else {
      var off, cur, next := Mul(a - 1, r.BlockLen()), Pass(r, prev, sp, a - 1), Pass(r, prev, sp, a);
      BlockInside(r, a - 1);
      PassLaysOut(r, prev, sp, a - 1);
      assert off + r.BlockLen() == Mul(a, r.BlockLen());
      assert MaskBit(r.antennaMask, a - 1) ==> next == cur[..off] + sp[a - 1] + cur[off + r.BlockLen()..];
      AntennaStep(r, prev, sp, a - 1, off, cur, next);
    }
  }

  /** The antenna loop as a whole produces the block layout of the range buffer. */
  lemma {:induction false} PassIsLayout(r: RangeArgs, prev: seq<Complex>, sp: seq<seq<Complex>>)
    requires r.WellFormed() && Shaped(r, sp) && |prev| >= r.Total()
    ensures Pass(r, prev, sp, r.antennaCount) == Layout(r, prev, sp)
  {
    PassLaysOut(r, prev, sp, r.antennaCount);
  }

  /**
   * `range_fft_do`. The frame is only read (it is not in the modifies
   * clause); the plan is rebuilt when its length differs from N.
   */
  method RangeFftDo(k: Kernels, frame: array?<U16>, range: array?<Complex>, adcSamples: array<real>,
                    meanRemoval: bool, win: array?<real>, antennaCount: U8, antennaMask: U8,
                    numSamplesPerChirp: U16, numChirpsPerFrame: U16, plan: FftPlan)
    returns (status: Status)
    requires k.Valid()
    requires adcSamples.Length >= numSamplesPerChirp
    requires win != null ==> win.Length >= numSamplesPerChirp && win != adcSamples
    requires frame != null && range != null ==> FrameSize(numChirpsPerFrame, antennaCount, numSamplesPerChirp) <= 0x1_0000
    requires frame != null ==> frame.Length >= FrameSize(numChirpsPerFrame, antennaCount, numSamplesPerChirp)
    requires range != null ==> range.Length >= RangeSize(antennaCount, numChirpsPerFrame, numSamplesPerChirp)
    requires frame != null && range != null ==> 2 <= numSamplesPerChirp  // every transformed chirp writes bin 0 of its block
    modifies range, adcSamples, plan
    ensures frame == null ==> status == MissingBuffer(-1)
    ensures frame != null && range == null ==> status == MissingBuffer(-2)
    ensures frame == null || range == null ==> plan.fftLen == old(plan.fftLen)
    ensures range != null && status != StatusOk ==> range[..] == old(range[..])
    ensures frame != null && range != null ==>
      && plan.fftLen == PlanLenAfter(old(plan.fftLen), numSamplesPerChirp, k.rfftSupports(numSamplesPerChirp))
      && (status == StatusOk || status == ArgumentError)
      && (status == StatusOk <==> old(plan.fftLen) == numSamplesPerChirp || k.rfftSupports(numSamplesPerChirp))
      && (status == StatusOk ==>
            range[..] == RangeOutput(k, RangeArgs(frame[..], meanRemoval,
                                                  if win == null then None else Some(win[..numSamplesPerChirp]),
                                                  antennaCount, antennaMask, numSamplesPerChirp, numChirpsPerFrame),
                                     old(range[..])))
  {
    if frame == null { return MissingBuffer(-1); }
    if range == null { return MissingBuffer(-2); }

    if plan.fftLen != numSamplesPerChirp {
      if !k.rfftSupports(numSamplesPerChirp) {
        return ArgumentError;
      }
      plan.fftLen := numSamplesPerChirp;
    }

    ghost var r := RangeArgs(frame[..], meanRemoval, if win == null then None else Some(win[..numSamplesPerChirp]),
                             antennaCount, antennaMask, numSamplesPerChirp, numChirpsPerFrame);
    TransformAntennas(k, r, frame, range, adcSamples, meanRemoval, win,
                      antennaCount, antennaMask, numSamplesPerChirp, numChirpsPerFrame, Spectra(k, r));
    PassIsLayout(r, old(range[..]), Spectra(k, r));
    return StatusOk;
  }
}

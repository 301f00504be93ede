/**
 * Shared vocabulary of the radar signal chain: complex samples, the fixed-width
 * integer types of the C interfaces, the status values the extractors return,
 * the external numeric kernels (FFT, window generator, mean removal, square
 * root, arctangent) and the length-keyed FFT plan cache.
 *
 * Floating point is modelled by `real`.
 */
module Dsp {

  type U8 = x: int | 0 <= x < 0x100
  type U16 = x: int | 0 <= x < 0x1_0000
  type U32 = x: int | 0 <= x < 0x1_0000_0000
  type U64 = x: int | 0 <= x < 0x1_0000_0000_0000_0000

  /** Truncation of a non-negative value on assignment to a `uint16_t`. */
  function Wrap16(x: nat): (r: U16)
    ensures x < 0x1_0000 ==> r == x
  {
    x % 0x1_0000
  }

  /**
   * Product of naturals by repeated addition. Buffer layouts are stated with
   * it so that the proofs about them stay in linear arithmetic;
   * `MulIsProduct` shows it is the ordinary product.
   */
  function Mul(x: nat, y: nat): nat
  {
    if x == 0 then 0 else Mul(x - 1, y) + y
  }

  lemma {:induction false} MulIsProduct(x: nat, y: nat)
    ensures Mul(x, y) == x * y
  {
    if x > 0 {
      MulIsProduct(x - 1, y);
    }
  }

  /**
   * A block start index `x * y * z` stored in a `uint16_t`, as both
   * extractors compute it: the chirp start of the range FFT and the antenna
   * start of the Doppler FFT.
   */
  method StartIndex16(x: nat, y: nat, z: nat) returns (start: U16)
    ensures start == Wrap16(Mul(Mul(x, y), z))
  {
    start := Wrap16(x * y * z);
    MulIsProduct(x, y);
    MulIsProduct(Mul(x, y), z);
  }

  lemma {:induction false} MulMono(x: nat, z: nat, y: nat)
    requires x <= z
    ensures Mul(x, y) <= Mul(z, y)
  {
    if x < z {
      MulMono(x, z - 1, y);
    }
  }

  lemma {:induction false} MulComm(x: nat, y: nat)
    ensures Mul(x, y) == Mul(y, x)
  {
    MulIsProduct(x, y);
    MulIsProduct(y, x);
  }

  lemma {:induction false} MulAdd(x: nat, y: nat, z: nat)
    ensures Mul(x + y, z) == Mul(x, z) + Mul(y, z)
  {
    if y > 0 {
      MulAdd(x, y - 1, z);
    }
  }

  lemma {:induction false} MulAssoc(x: nat, y: nat, z: nat)
    ensures Mul(Mul(x, y), z) == Mul(x, Mul(y, z))
  {
    if x > 0 {
      MulAssoc(x - 1, y, z);
      MulAdd(Mul(x - 1, y), y, z);
    }
  }

  /** `cfloat32_t`: a complex sample as real and imaginary part. */
  datatype Complex = Complex(re: real, im: real)

  datatype Option<T> = None | Some(value: T)

  /**
   * Return value of the extractors. The numeric value of the kernel library's
   * argument-error code lives in a header that is not part of this model, so
   * it is kept symbolic; the literal codes the extractors return for missing
   * buffers are kept as `MissingBuffer(code)`.
   */
  datatype Status = StatusOk | ArgumentError | MissingBuffer(code: int)

  /**
   * The trusted numeric kernels the core calls but does not implement. Each is
   * an arbitrary function; `Valid` states the only thing assumed about them,
   * the shape of what they produce.
   */
  datatype Kernels = Kernels(
    rfftSupports: nat -> bool,                 // arm_rfft_fast_init_f32 succeeds for this length
    rfft: seq<real> -> seq<Complex>,           // arm_rfft_fast_f32, packed: N reals give N/2 bins
    cfftSupports: nat -> bool,                 // arm_cfft_init_f32 succeeds for this length
    cfft: seq<Complex> -> seq<Complex>,        // arm_cfft_f32, forward, natural bin order
    meanRemoval: seq<real> -> seq<real>,       // ifx_mean_removal_f32
    cmplxMeanRemoval: seq<Complex> -> seq<Complex>,  // ifx_cmplx_mean_removal_f32
    window: nat -> seq<real>,                  // ifx_window_blackmanharris_f32
    sqrt: real -> real,                        // arm_sqrt_f32
    atan2: (real, real) -> real)               // atan2f(imag, real)
  {
    ghost predicate Valid()
    {
      && (forall x: seq<real> :: |rfft(x)| == |x| / 2)
      && (forall z: seq<Complex> :: |cfft(z)| == |z|)
      && (forall x: seq<real> :: |meanRemoval(x)| == |x|)
      && (forall z: seq<Complex> :: |cmplxMeanRemoval(z)| == |z|)
      && (forall n: nat :: |window(n)| == n)
    }
  }

  /** `get_magnitude`: Euclidean norm through the square-root kernel. */
  function Magnitude(k: Kernels, z: Complex): real
  {
    k.sqrt(z.re * z.re + z.im * z.im)
  }

  /** `get_phase`: four-quadrant arctangent of (imaginary, real). */
  function Phase(k: Kernels, z: Complex): real
  {
    k.atan2(z.im, z.re)
  }

  /**
   * The function-static FFT instance of an extractor, reduced to the one field
   * the extractor inspects: the length the plan was last built for. A
   * zero-initialised static starts at length 0.
   */
  class FftPlan {
    var fftLen: nat

    constructor ()
      ensures fftLen == 0
    {
      fftLen := 0;
    }
  }

  /**
   * Cached plan length after an extractor asked for length `n`: the plan is
   * rebuilt only when the cached length differs, and a failed build (which
   * the extractor reports as an argument error) leaves it as it was.
   */
  function PlanLenAfter(cached: nat, n: nat, supported: bool): (r: nat)
    ensures r == n <==> cached == n || supported
    ensures r != cached ==> r == n && supported
  {
    if cached != n && supported then n else cached
  }
}

# Radar DSP core in Dafny

This project models the signal-processing core of an FMCW radar demo firmware. The C code under
`radar_dsp/src/c` turns one raw ADC frame into a single detection result: amplitude, range bin,
azimuth and elevation. The steps are:

- **Range extractor** (`range_fft_do`). It de-interleaves every chirp of every selected antenna
  from the frame and scales it by 1/4096. It optionally removes the mean and applies a window,
  then runs a real FFT. It writes the `N/2` packed bins into the range buffer with the DC bin's
  imaginary part forced to 0. Antennas outside the mask keep their slot untouched.
- **Doppler extractor** (`doppler_fft_bin_do`). For one range bin and one antenna it gathers the
  chirp-indexed sequence from the range buffer. It optionally removes the complex mean and applies
  a window, then runs a complex FFT in place.
- **Orchestrator** (`radar_processing_init` / `radar_processing_feed`). Init stores the
  configuration, derives the bin range and the detection threshold, allocates the five buffers
  and fills the two Blackman-Harris windows. Feed runs the range extractor on all three antennas.
  It then scans the range bins of antenna 0 for the strongest Doppler peak. Above the threshold,
  it recomputes the Doppler spectrum of antennas 2 and 1 at that bin and turns the wrapped phase
  differences into azimuth and elevation.
- **Label follower** (`label_follower.h`): a two-threshold hysteresis state machine.
- **Linear regression** (`linear_regression_compute`): the closed-form least-squares line
  through `(i, y[i])`.

Files:

- `dsp.dfy` (module `Dsp`) holds the shared vocabulary:
  - the fixed-width integer types and `uint16_t` truncation;
  - `Mul`, a product by repeated addition that keeps buffer-layout proofs linear;
  - complex samples and the extractor status values;
  - the external numeric kernels, kept abstract as the `Kernels` record;
  - the length-keyed FFT plan cache, `FftPlan`.
- `range_fft.dfy` and `doppler_fft.dfy` model the two extractors as methods over arrays. Each is
  proved against a function that says what the output buffer holds.
- `radar_processing.dfy` models the orchestrator. The session's static buffers become a `Session`
  class. The bin scan and the detection are proved equal to pure specification functions
  (`ScanBins`, `FeedOutput`), and those functions are related to a plain first-maximum search
  (`PeakOf`).
- `label_follower.dfy` models the follower as a class with `Init` and `Feed`.
- `linear_regression.dfy` models the regression as a loop proved to compute `Fit`, the
  least-squares line of its input.

## Model

| member | source | states |
|---|---|---|
| Dsp.Wrap16 | radar_dsp/src/c/range_fft.c:55 | storing a value below 65536 into a `uint16_t` keeps it unchanged |
| Dsp.FftPlan.constructor | radar_dsp/src/c/range_fft.c:32 | a zero-initialised static plan starts with cached length 0 |
| Dsp.PlanLenAfter | radar_dsp/src/c/range_fft.c:32-39 | after a request for length n the plan has length n exactly when it already had it or the rebuild succeeds; the cached length changes only through a successful rebuild for n |
| Dsp.StartIndex16 | radar_dsp/src/c/range_fft.c:55 | a block start index x*y*z stored in a `uint16_t` is the truncation of the product; the same computation is doppler_fft.c:39 |
| RangeFft.SizesAreProducts | radar_dsp/src/c/radar_processing.c:83 | the frame holds antennas * chirps * N samples and the range buffer antennas * chirps * (N/2) bins |
| RangeFft.MaskBit | radar_dsp/src/c/range_fft.c:44 | antenna `a` is selected exactly when bit `a` of the mask is set, the test `((1 << a) & mask) != 0` |
| RangeFft.MaskBitSeven | radar_dsp/src/c/radar_processing.c:176 | mask 7 selects exactly antennas 0, 1 and 2 |
| RangeFft.MaskBitZero | radar_dsp/src/c/range_fft.c:44-49 | mask 0 selects no antenna |
| RangeFft.FrameIndex | radar_dsp/src/c/range_fft.c:55-59 | the frame index of sample s of chirp c of antenna a: c*ac*N stored in a `uint16_t`, plus s*ac + a, stored in a `uint16_t` again |
| RangeFft.FrameIndexIsSourceExpression | radar_dsp/src/c/range_fft.c:55-59 | the modelled sample index is the source's two `uint16_t`-truncated index computations |
| RangeFft.FrameIndexInBounds | radar_dsp/src/c/range_fft.c:55-60 | for a frame of at most 65536 samples, no truncation happens and sample s of chirp c of antenna a is read at c*ac*N + s*ac + a, inside the frame |
| RangeFft.ChirpSamples | radar_dsp/src/c/range_fft.c:57-61 | one de-interleaved chirp has N samples |
| RangeFft.Windowed | radar_dsp/src/c/range_fft.c:68-71 | windowing multiplies sample i by window coefficient i |
| RangeFft.Conditioned | radar_dsp/src/c/range_fft.c:63-71 | conditioning keeps the length, and is the identity without mean removal and window |
| RangeFft.DcFixed | radar_dsp/src/c/range_fft.c:73-74 | only the imaginary part of bin 0 is replaced, by 0 |
| RangeFft.ChirpSpectrum | radar_dsp/src/c/range_fft.c:57-74 | a chirp's spectrum has N/2 bins and a zero imaginary DC bin |
| RangeFft.ChirpBlocks | radar_dsp/src/c/range_fft.c:52-77 | the first c chirps of an antenna fill c * N/2 bins |
| RangeFft.ChirpBlocksAt | radar_dsp/src/c/range_fft.c:73-76 | bin b of chirp j sits at offset j*(N/2) + b of the antenna's block |
| RangeFft.BlockInside | radar_dsp/src/c/range_fft.c:47 | each antenna's block lies inside the written part of the range buffer |
| RangeFft.Spectra | radar_dsp/src/c/range_fft.c:42-78 | one block of chirps * N/2 bins per antenna, holding that antenna's chirp spectra in chirp order |
| RangeFft.AntennaBlock | radar_dsp/src/c/range_fft.c:44-49 | one antenna's block has chirps * N/2 bins |
| RangeFft.Antennas | radar_dsp/src/c/range_fft.c:42-78 | the first m antennas fill m blocks |
| RangeFft.Layout | radar_dsp/src/c/range_fft.c:42-78 | the buffer after the antenna loop keeps its length |
| RangeFft.Pass | radar_dsp/src/c/range_fft.c:42-78 | the buffer after the loop has handled the first a antennas keeps its length |
| RangeFft.PassLaysOut | radar_dsp/src/c/range_fft.c:42-78 | after a antennas the buffer holds their a blocks, each the antenna's spectra if selected and its old contents if not, followed by the untouched rest |
| RangeFft.PassIsLayout | radar_dsp/src/c/range_fft.c:42-78 | the whole antenna loop produces the block layout |
| RangeFft.AntennasLaid | radar_dsp/src/c/range_fft.c:42-78 | the antenna blocks lie end to end, block a after the first a blocks |
| RangeFft.AntennasAt | radar_dsp/src/c/range_fft.c:42-78 | entry i of block a of the concatenation is entry i of antenna a's block |
| RangeFft.RangeOutput | radar_dsp/src/c/range_fft.c:42-78 | the output buffer keeps its length |
| RangeFft.LayoutInBlock | radar_dsp/src/c/range_fft.c:42-78 | offset a*block + i of the buffer is entry i of antenna a's block |
| RangeFft.AntennaBlockAt | radar_dsp/src/c/range_fft.c:44-49 | a masked-out antenna keeps the old contents of its block, and a selected one holds its chirp spectra |
| RangeFft.LayoutAt | radar_dsp/src/c/range_fft.c:42-78 | offset a*block + i of the buffer is the antenna's spectra entry i when it is selected and the old entry otherwise |
| RangeFft.RangeOutputAt | radar_dsp/src/c/range_fft.c:42-78 | bin b of chirp c of antenna a is that chirp's spectrum bin when a is selected and the previous value otherwise |
| RangeFft.RangeOutputTail | radar_dsp/src/c/range_fft.c:42-78 | entries past antennas * chirps * N/2 are never written |
| RangeFft.RangeOutputDcImag | radar_dsp/src/c/range_fft.c:74 | every written DC bin has imaginary part 0 |
| RangeFft.SampleIndex | radar_dsp/src/c/range_fft.c:59 | the sample index is the `uint16_t` truncation of start + s*ac + a |
| RangeFft.DeinterleaveChirp | radar_dsp/src/c/range_fft.c:57-61 | the scratch buffer receives the chirp's scaled samples |
| RangeFft.RemoveMeanInPlace | radar_dsp/src/c/range_fft.c:63-66 | the first n samples become the mean-removal kernel's output and the rest are untouched |
| RangeFft.MultiplyInPlace | radar_dsp/src/c/range_fft.c:68-71 | the first n samples are multiplied by the window and the rest are untouched |
| RangeFft.WriteSpectrum | radar_dsp/src/c/range_fft.c:73-74 | the bins land at the cursor with a zero DC imaginary part, and nothing else changes |
| RangeFft.TransformChirp | radar_dsp/src/c/range_fft.c:55-76 | exactly the chirp's N/2 bins at the cursor change, to its spectrum |
| RangeFft.AntennaStep | radar_dsp/src/c/range_fft.c:44-49 | overwriting a selected antenna's block with its spectra, or skipping an unselected one, extends the finished blocks by one |
| RangeFft.ChirpStep | radar_dsp/src/c/range_fft.c:52-76 | one chirp pass extends the finished part of the antenna's block by that chirp's spectrum |
| RangeFft.TransformAntenna | radar_dsp/src/c/range_fft.c:52-77 | exactly the antenna's block changes, to its chirp spectra in chirp order |
| RangeFft.AntennaPass | radar_dsp/src/c/range_fft.c:44-77 | one antenna pass takes the buffer from `Pass` of a antennas to `Pass` of a + 1 |
| RangeFft.TransformAntennas | radar_dsp/src/c/range_fft.c:42-78 | the range buffer becomes `Pass` over all antennas of its old contents |
| RangeFft.RangeFftDo | radar_dsp/src/c/range_fft.c:18-81 | a missing frame gives -1 and a missing output gives -2, both with plan and buffer untouched; otherwise the call succeeds exactly when the plan is or becomes N, an argument error leaves the buffer untouched, and success writes `RangeOutput` |
| DopplerFft.GatherIndex | radar_dsp/src/c/doppler_fft.c:39-42 | the range-buffer index read for chirp c: antenna*chirps*len stored in a `uint16_t`, plus c*len + bin without truncation |
| DopplerFft.GatherIndexIsSourceExpression | radar_dsp/src/c/doppler_fft.c:39-42 | the gather index is the source's `uint16_t` start index plus c*len + bin |
| DopplerFft.GatherInside | radar_dsp/src/c/doppler_fft.c:40-43 | every gathered index is inside the range buffer |
| DopplerFft.GatherInsideLayout | radar_dsp/src/c/doppler_fft.c:39-42 | without truncation, the gather stays inside antenna `antenna_index`'s block of chirps * len bins |
| DopplerFft.LayoutReadsInside | radar_dsp/src/c/doppler_fft.c:39-43 | a range buffer of antennas * chirps * len bins covers every gather for a valid antenna and bin |
| DopplerFft.Gathered | radar_dsp/src/c/doppler_fft.c:40-43 | the gathered sequence has one sample per chirp |
| DopplerFft.CmplxWindowed | radar_dsp/src/c/doppler_fft.c:52-58 | both parts of sample i are scaled by window coefficient i |
| DopplerFft.CmplxConditioned | radar_dsp/src/c/doppler_fft.c:45-58 | conditioning keeps the length; with no mean removal it is plain windowing, or the identity without a window |
| DopplerFft.DopplerSpectrum | radar_dsp/src/c/doppler_fft.c:38-61 | the Doppler spectrum has one bin per chirp |
| DopplerFft.Gather | radar_dsp/src/c/doppler_fft.c:38-43 | the first `chirps` entries of the output receive the gathered samples and the rest are untouched |
| DopplerFft.BinIndex | radar_dsp/src/c/doppler_fft.c:42 | the read index is start + c*len + bin, computed in `int` |
| DopplerFft.CmplxRemoveMeanInPlace | radar_dsp/src/c/doppler_fft.c:46-49 | the first n samples become the kernel's output and the rest are untouched |
| DopplerFft.CmplxMultiplyInPlace | radar_dsp/src/c/doppler_fft.c:52-58 | the first n samples are windowed and the rest are untouched |
| DopplerFft.CfftInPlace | radar_dsp/src/c/doppler_fft.c:61 | the first n samples become their FFT and the rest are untouched |
| DopplerFft.Transform | radar_dsp/src/c/doppler_fft.c:38-61 | the output's first `chirps` entries become `DopplerSpectrum` and the rest are untouched |
| DopplerFft.DopplerFftBinDo | radar_dsp/src/c/doppler_fft.c:17-66 | a missing range gives -1 and a missing output gives +2, both with the plan untouched; otherwise the call succeeds exactly when the plan is or becomes `chirps`, leaves the output untouched on failure, and on success writes `DopplerSpectrum` into the first `chirps` entries only |
| RadarProcessing.F32Abs | radar_dsp/src/c/radar_processing.c:142-146 | the result is non-negative and equals a or -a |
| RadarProcessing.AngleDiff | radar_dsp/src/c/radar_processing.c:148-161 | the result is a1 - a2, or that shifted by one turn toward zero (down when a1 > a2, up otherwise), the shift is taken only when strictly smaller in magnitude, and the result is never larger in magnitude than the shifted value |
| RadarProcessing.AngleDiffWrapped | radar_dsp/src/c/radar_processing.c:148-161 | for phases in [-pi, pi] the result is in [-pi, pi] and differs from a1 - a2 by 0 or one full turn |
| RadarProcessing.AngleDiffEnds | radar_dsp/src/c/radar_processing.c:150-160 | both ends are reached: (pi, 0) gives pi and (0, pi) gives -pi, so the range is [-pi, pi] and not (-pi, pi] |
| RadarProcessing.AngleDiffOneTurnOnly | radar_dsp/src/c/radar_processing.c:154-160 | at most one turn is removed: (5pi, 0) gives 3pi |
| RadarProcessing.AngleDiffAntisymmetric | radar_dsp/src/c/radar_processing.c:148-161 | swapping the arguments negates the result exactly |
| RadarProcessing.PeakOf | radar_dsp/src/c/radar_processing.c:125-139 | the first-maximum search starts at 0 and index 0, never goes below 0, and points inside a non-empty input |
| RadarProcessing.PeakOfIsFirstPeak | radar_dsp/src/c/radar_processing.c:127-135 | the search returns the first index of the maximum, or 0 and index 0 when nothing is positive |
| RadarProcessing.FirstPeakUnique | radar_dsp/src/c/radar_processing.c:127-135 | that characterisation has exactly one solution |
| RadarProcessing.Magnitudes | radar_dsp/src/c/radar_processing.c:102-112 | entry i is the magnitude of sample i |
| RadarProcessing.GetMaxMagnitudePhaseVelocity | radar_dsp/src/c/radar_processing.c:123-140 | the outputs are the first peak of the first `len` magnitudes, with the phase of the sample at the peak index |
| RadarProcessing.InitStatusAsWritten | radar_dsp/src/c/radar_processing.c:79-99 | init's status as written: -5 and -6 for the first two failed allocations, then line 87's repeated test of `range` in place of `doppler_out`, then -8, -9, and 0 otherwise |
| RadarProcessing.InitStatusAsWrittenMissesDopplerOut | radar_dsp/src/c/radar_processing.c:86-87 | as written, init never returns -7, and with only `doppler_out` failing it returns 0 |
| RadarProcessing.InitStatus | radar_dsp/src/c/radar_processing.c:79-99 | init reports 0 exactly when all five allocations succeed |
| RadarProcessing.InitStatusFirstFailure | radar_dsp/src/c/radar_processing.c:80-96 | each of -5 to -9 is returned exactly when its allocation is the first to fail, and the corrected status differs from the written one only in returning -7 |
| RadarProcessing.StageReadsInside | radar_dsp/src/c/radar_processing.c:190-197 | a Doppler request for antennas 0 to 2 and any bin below N/2 reads inside the range buffer |
| RadarProcessing.BinDoppler | radar_dsp/src/c/radar_processing.c:190-197 | the Doppler buffer after a request holds one value per chirp |
| RadarProcessing.BinPeak | radar_dsp/src/c/radar_processing.c:199-204 | the peak of a bin's Doppler spectrum lies at a valid chirp index |
| RadarProcessing.ScanFold | radar_dsp/src/c/radar_processing.c:183-212 | the running best starts at zeros, never goes below 0, and when positive is one of the candidates |
| RadarProcessing.ScanFoldNext | radar_dsp/src/c/radar_processing.c:205-211 | one more bin replaces the running best only when strictly larger |
| RadarProcessing.Maxima | radar_dsp/src/c/radar_processing.c:200-204 | one maximum per candidate bin |
| RadarProcessing.ScanFoldIsPeak | radar_dsp/src/c/radar_processing.c:183-212 | the scan's maximum is the first peak of the per-bin maxima, and when positive the kept candidate is that bin's |
| RadarProcessing.BinCandidate | radar_dsp/src/c/radar_processing.c:190-204 | a bin's candidate carries its own index, a valid velocity index and its spectrum's peak |
| RadarProcessing.Candidates | radar_dsp/src/c/radar_processing.c:188 | one candidate per scanned bin |
| RadarProcessing.ScanBins | radar_dsp/src/c/radar_processing.c:183-212 | the best is zeros when nothing is positive, and otherwise lies in the scanned range and is that bin's own candidate |
| RadarProcessing.CandidateFound | radar_dsp/src/c/radar_processing.c:205-211 | a positive best comes from a scanned bin |
| RadarProcessing.ScanBinsNext | radar_dsp/src/c/radar_processing.c:190-211 | scanning bins up to and including `bin` is scanning up to `bin - 1`, then letting bin `bin`'s candidate replace the best only when strictly larger |
| RadarProcessing.BinSpectra | radar_dsp/src/c/radar_processing.c:190-197 | one antenna-0 Doppler buffer per range bin, each the one `doppler_fft_bin_do` leaves for that bin |
| RadarProcessing.BinMaxima | radar_dsp/src/c/radar_processing.c:200-204 | one maximum per scanned bin |
| RadarProcessing.ScanBinsIsPeak | radar_dsp/src/c/radar_processing.c:183-212 | the detected amplitude is the largest per-bin Doppler maximum, and the detected bin is the first bin reaching it |
| RadarProcessing.FeedOutput | radar_dsp/src/c/radar_processing.c:214-263 | the amplitude is the scan's maximum, and at or below the threshold range, azimuth and elevation are 0 |
| RadarProcessing.LastDoppler | radar_dsp/src/c/radar_processing.c:188-240 | the Doppler buffer after the feed holds one value per chirp, and a plan that cannot be built leaves its old contents |
| RadarProcessing.FeedAboveThreshold | radar_dsp/src/c/radar_processing.c:216-256 | above the threshold the amplitude is the first peak over the bins, the range is that bin's index, and azimuth and elevation lie in [-pi, pi] |
| RadarProcessing.NewWindow | radar_dsp/src/c/radar_processing.c:90-92 | a freshly allocated window holds the generator's n coefficients |
| RadarProcessing.SessionLayout | radar_dsp/src/c/radar_processing.c:83 | with three antennas and a frame of at most 65536 samples, the buffer covers antennas 0 to 2 and their `uint16_t` start indices do not wrap |
| RadarProcessing.RangeLength | radar_dsp/src/c/radar_processing.c:83 | the range buffer length is antennas * chirps * (N/2) |
| RadarProcessing.FeedStage | radar_dsp/src/c/radar_processing.c:165-197 | the state the Doppler requests see, built from the range buffer after the range step, is well formed with N/2 bins and `chirps` chirps |
| RadarProcessing.DopplerBin | radar_dsp/src/c/radar_processing.c:190-197 | a Doppler request leaves `doppler_out` holding the bin's spectrum, or its previous contents when the plan cannot be built, and updates the cached plan length for the chirp count |
| RadarProcessing.PeakInBin | radar_dsp/src/c/radar_processing.c:190-204 | one iteration yields that bin's candidate and leaves that bin's antenna-0 spectrum in `doppler_out` |
| RadarProcessing.ScanStep | radar_dsp/src/c/radar_processing.c:190-211 | one bin pass extends the running best by that bin's candidate, replacing it only when strictly larger, leaves that bin's spectrum in `doppler_out` and the plan rebuilt for the chirp count |
| RadarProcessing.ScanDopplerBins | radar_dsp/src/c/radar_processing.c:183-212 | the loop computes `ScanBins` over [bin_start, bin_end); when at least one bin is scanned, `doppler_out` holds the last bin's spectrum and the plan is rebuilt, and otherwise both are as before |
| RadarProcessing.Detect | radar_dsp/src/c/radar_processing.c:183-263 | scanning and the threshold branch produce `FeedOutput`, with `doppler_out` ending as `LastDoppler` |
| RadarProcessing.Session.constructor | radar_dsp/src/c/radar_processing.c:27-57 | the static buffers start NULL, the parameters at zero and the two static FFT plans at length 0 |
| RadarProcessing.Session.Init | radar_dsp/src/c/radar_processing.c:60-100 | the configuration is stored with threshold 0.05, bin range [0, N/2) and the corrected status; allocations stop at the first failure; on success every buffer is fresh with the session's sizes and both windows are filled |
| RadarProcessing.Session.AllocateBuffers | radar_dsp/src/c/radar_processing.c:79-99 | buffers are allocated in source order up to the first failure, with the corrected status and on success the right sizes and window contents |
| RadarProcessing.Session.Feed | radar_dsp/src/c/radar_processing.c:163-264 | the range buffer becomes the range extractor's output for all three antennas, or stays as it was when the frame or the plan is missing; the result is `FeedOutput` of what the Doppler requests then see; the range plan is rebuilt for N unless the frame is missing, the Doppler plan for the chirp count, and `doppler_out` ends as `LastDoppler` |
| LinearRegression.Accumulate | radar_dsp/src/c/linear_regression.c:30-34 | one loop iteration adds i, y[i], i*y[i], i*i and y[i]*y[i] to the five accumulators |
| LinearRegression.SumsOf | radar_dsp/src/c/linear_regression.c:28-35 | the accumulators after the loop over the points, each point's x being its index |
| LinearRegression.LineFrom | radar_dsp/src/c/linear_regression.c:37-45 | slope (n*xysum - xsum*ysum)/den and intercept (ysum - slope*xsum)/n, with den = n*xxsum - xsum*xsum; both 0 when den is 0 |
| LinearRegression.Fit | radar_dsp/src/c/linear_regression.c:13-46 | 0 and 0 for no points, otherwise `LineFrom` of the accumulated sums of the points |
| LinearRegression.LinearRegressionCompute | radar_dsp/src/c/linear_regression.c:13-46 | the outputs are `Fit` of the first `len` values |
| LinearRegression.IndexSums | radar_dsp/src/c/linear_regression.c:28-35 | after n points the x sums are n(n-1)/2 and (n-1)n(2n-1)/6 |
| LinearRegression.FitDegenerate | radar_dsp/src/c/linear_regression.c:23-42 | with no point or one point the outputs stay 0 and 0 |
| LinearRegression.ClosedFormDenominator | radar_dsp/src/c/linear_regression.c:37 | with the closed-form x sums and n >= 2 the denominator is positive |
| LinearRegression.DenominatorPositive | radar_dsp/src/c/linear_regression.c:37-42 | with two or more points the zero-denominator branch is never taken |
| LinearRegression.LineSolvesNormalEquations | radar_dsp/src/c/linear_regression.c:44-45 | whenever the division is taken, slope and intercept solve the least-squares normal equations of the sums |
| LinearRegression.FitSolvesNormalEquations | radar_dsp/src/c/linear_regression.c:13-46 | with two or more points the fit is the least-squares line of the points |
| LinearRegression.SumsOfLine | radar_dsp/src/c/linear_regression.c:28-35 | for points on y = m x + b, the y and xy sums are m and b applied to the x sums |
| LinearRegression.LineFromLine | radar_dsp/src/c/linear_regression.c:44-45 | sums of points on a line give back that slope and intercept |
| LinearRegression.FitRecoversLine | radar_dsp/src/c/linear_regression.c:13-46 | two or more points on y = m x + b give slope m and intercept b |
| LabelFollower.NextState | radar_dsp/src/c/label_follower.h:64-65 | the state stays 0 or 1 and changes exactly on entering (0, value >= enter) or leaving (1, value <= exit) |
| LabelFollower.Edge | radar_dsp/src/c/label_follower.h:74 | what `feed` returns: 1 when the state changed and 0 when it did not |
| LabelFollower.Run | radar_dsp/src/c/label_follower.h:69-76 | repeated feeding keeps the state 0 or 1 |
| LabelFollower.Edges | radar_dsp/src/c/label_follower.h:74 | the reported changes number at most one per value fed |
| LabelFollower.Follower.Init | radar_dsp/src/c/label_follower.h:61-67 | both thresholds are stored and the follower starts inactive |
| LabelFollower.Follower.Feed | radar_dsp/src/c/label_follower.h:69-76 | the state moves to `NextState`, the thresholds are untouched, and the return value is 1 exactly when the state changed and 0 otherwise |
| LabelFollower.Hysteresis | radar_dsp/src/c/label_follower.h:64-65 | with exit < enter, a value at or above enter gives 1 and one at or below exit gives 0 from either state, and a value in between keeps the state |
| LabelFollower.FeedTwiceNoEdge | radar_dsp/src/c/label_follower.h:74 | with exit < enter, feeding the same value again reports no change |
| LabelFollower.NoGapChatters | radar_dsp/src/c/label_follower.h:64-65 | with enter <= exit, a value between them toggles the state on every feed |
| LabelFollower.DeadBandSticks | radar_dsp/src/c/label_follower.h:69-76 | values strictly between exit and enter never move the state or report a change |
| LabelFollower.EdgesParity | radar_dsp/src/c/label_follower.h:74 | the number of reported changes is even exactly when the follower ends in its starting state |
| LabelFollower.LastValueDecides | radar_dsp/src/c/label_follower.h:64-65 | with exit < enter, the last value alone decides the final state when it lies outside the dead band |

## Left out

- Floating point is modelled by `real`. Rounding, NaN and infinities are not modelled, so the
  exact zero test in `linear_regression_compute` and the comparisons in the peak search and
  the follower are exact.
- The CMSIS-DSP and kernel-library routines are abstract functions in `Dsp.Kernels`, constrained
  only by their output lengths. This covers the real and complex FFTs and their plan
  initialisation, mean removal, the Blackman-Harris window, `arm_sqrt_f32` and `atan2f`. No
  spectral property (such as a sinusoid peaking at its bin) can be proved about them.
- `FeedAboveThreshold` states the angle range only under the hypothesis that `atan2` returns
  values in [-pi, pi], because the kernel is abstract.
- Dsp.PlanLenAfter: the plan routines are not part of this model, so a failed plan build is
  assumed to leave the cached length unchanged.
- `ifx_sensor_dsp.h` is not part of this model. `IFX_SENSOR_DSP_ARGUMENT_ERROR` is kept symbolic
  as `ArgumentError`.
- `malloc` is replaced by an `Allocation` record saying which of the five allocations succeed.
  The `int` overflow of the size products in `radar_processing_init` is not modelled.
- RangeFft.RangeFftDo: when both buffers are present, requires `num_samples_per_chirp >= 2`.
  With fewer samples line 74 writes the DC bin of a block that has no bins, which lies outside
  the buffer. In the same case it requires a frame of at most 65536 samples so that the
  `uint16_t` start index cannot wrap. The NULL checks at lines 28-29 are modelled for every size.
  It also requires a scratch buffer and window covering one chirp.
- RadarProcessing.Session.Feed: requires at least three antennas. This is a simplification. The
  range step at line 176 passes mask 7, but range_fft.c:42 only visits antennas below the antenna
  count, so fewer antennas are safe there. The Doppler requests for antennas 1 and 2 at lines
  222-240 run only when the amplitude is above the threshold (line 216); only then would they
  read outside a buffer holding fewer than three antennas. The requirement therefore also
  excludes runs with one or two antennas that never cross the threshold, which the source
  handles without out-of-bounds reads.
  It also requires at least one chirp, because `get_max_magnitude_phase_velocity` reads
  `array[0]` even for an empty spectrum. It requires at least two samples per chirp and a frame
  of at most 65536 samples, for the reasons given under `RangeFftDo`.
- RadarProcessing.GetMaxMagnitudePhaseVelocity: requires a non-empty buffer, because line 138
  reads `array[max_index]` even when `len` is 0.
- The return codes of the range and Doppler calls inside `radar_processing_feed` are ignored, as
  in the source. When a plan cannot be built, the model keeps the previous buffer contents
  (`DopplerStage.stale`).
- `yysum` is accumulated as in the source but does not affect any output.
- `label_follower.c` is not part of this model. The header (label_follower.h:61-76) only says
  that the enter threshold is the value at which the state is considered 1, that the exit
  threshold is the value at which it is considered back to 0, and that feeding returns 1 on a
  change and 0 otherwise. It states neither the initial state nor whether the comparisons are
  strict. The model reads it as follows: `Init` starts the follower in state 0; from 0, a value
  `>=` the enter threshold moves to 1; from 1, a value `<=` the exit threshold moves to 0.
  `NextState`, `Hysteresis`, `NoGapChatters`, `DeadBandSticks` and `LastValueDecides` depend on
  this reading.
- The Python scripts, `main_radar_initialization.c` and `main_imu_deploy.c` are not part of this
  model. They cover sensor, board and USB bring-up and frame acquisition.

## Findings

| source | as written | input that shows it | evidently intended | confidence | as-written member | corrected member |
|---|---|---|---|---|---|---|
| radar_dsp/src/c/radar_processing.c:87 | after allocating `doppler_out` the code tests `range == NULL` again, so -7 is never returned and a failed `doppler_out` allocation is reported as success | `Allocation(true, true, false, true, true)`, where only `doppler_out` fails: as written init returns 0 | test `doppler_out == NULL` and return -7 | not executed | RadarProcessing.InitStatusAsWrittenMissesDopplerOut | RadarProcessing.InitStatus |

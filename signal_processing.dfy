// The spectrum post-processing engine of refactored/signal_processing.py:
// sample-block preparation, window selection, the FFT processor's validation
// and error paths, the metrics of an analysis result, peak ordering, the
// analyzer's exponential averaging and peak hold, and the SNR estimate.
//
// The numeric chain itself (window multiplication, FFT, magnitude, window
// correction, dB conversion), np.percentile and scipy's peak selection are
// parameters of the operations that use them.
module SignalProcessing {
  import opened Wrappers
  import opened Values
  import Exceptions
  import Utils
  import Stats
  import Sorting

  // ------------------------------------------------------------------ windows

  datatype WindowFunction = Hann | Hamming | Blackman | Rectangular | UnknownWindow(name: string)

  /** The coefficient family np.hanning / np.hamming / np.blackman / np.ones. */
  datatype WindowShape = HannCoefficients | HammingCoefficients | BlackmanCoefficients | Ones

  /** WindowFunctionProcessor.get_window: an unrecognised type falls back to Hann. */
  function GetWindow(w: WindowFunction): (s: WindowShape)
    ensures s == Ones <==> w == Rectangular
    ensures s == HammingCoefficients <==> w == Hamming
    ensures s == BlackmanCoefficients <==> w == Blackman
    ensures s == HannCoefficients <==> w == Hann || w.UnknownWindow?
  {
    match w
    case Hann => HannCoefficients
    case Hamming => HammingCoefficients
    case Blackman => BlackmanCoefficients
    case Rectangular => Ones
    case UnknownWindow(_) => HannCoefficients
  }

  /** WindowFunctionProcessor.get_window_correction_factor. */
  function CorrectionFactor(w: WindowFunction): (c: real)
    ensures 1.0 <= c <= 2.8
  {
    match w
    case Hann => 2.0
    case Hamming => 1.85
    case Blackman => 2.8
    case Rectangular => 1.0
    case UnknownWindow(_) => 2.0
  }

  lemma CorrectionFactors()
    ensures CorrectionFactor(Hann) == 2.0
    ensures CorrectionFactor(Hamming) == 1.85
    ensures CorrectionFactor(Blackman) == 2.8
    ensures CorrectionFactor(Rectangular) == 1.0
    ensures forall name :: CorrectionFactor(UnknownWindow(name)) == 2.0
  {
  }

  /** An unrecognised window type is processed exactly as Hann. */
  lemma UnknownWindowIsHann(w: WindowFunction)
    requires w.UnknownWindow?
    ensures GetWindow(w) == GetWindow(Hann)
    ensures CorrectionFactor(w) == CorrectionFactor(Hann)
  {
  }

  // ------------------------------------------------------------------ samples

  datatype Complex = Complex(re: real, im: real)

  const ZeroSample := Complex(0.0, 0.0)

  /** The block handed to the transform: the input zero-padded or cut to n samples. */
  function Prepared(samples: seq<Complex>, n: nat): (r: seq<Complex>)
    ensures |r| == n
  {
    if |samples| < n then samples + seq(n - |samples|, _ => ZeroSample)
    else samples[..n]
  }

  /** Sample k of the prepared block is input sample k when there is one, zero otherwise. */
  lemma PreparedPointwise(samples: seq<Complex>, n: nat)
    ensures forall k :: 0 <= k < n ==>
              Prepared(samples, n)[k] == (if k < |samples| then samples[k] else ZeroSample)
  {
  }

  /** An input of exactly n samples is returned unchanged; the prefix always survives. */
  lemma PreparedKeepsPrefix(samples: seq<Complex>, n: nat)
    ensures |samples| == n ==> Prepared(samples, n) == samples
    ensures |samples| <= n ==> Prepared(samples, n)[..|samples|] == samples
    ensures n <= |samples| ==> Prepared(samples, n) == samples[..n]
  {
  }

  /** FFTProcessor._prepare_samples. */
  method PrepareSamples(samples: seq<Complex>, fftSize: nat) returns (r: seq<Complex>)
    ensures r == Prepared(samples, fftSize)
  {
    if |samples| < fftSize {
      var padded := new Complex[fftSize](_ => ZeroSample);
      var i := 0;
      while i < |samples|
        invariant 0 <= i <= |samples|
        invariant forall j :: 0 <= j < i ==> padded[j] == samples[j]
        invariant forall j :: i <= j < fftSize ==> padded[j] == ZeroSample
      {
        padded[i] := samples[i];
        i := i + 1;
      }
      r := padded[..];
      PreparedPointwise(samples, fftSize);
    } else if |samples| > fftSize {
      r := samples[..fftSize];
    } else {
      r := samples;
    }
  }

  // ------------------------------------------------------------ the processor

  /** ValidationRanges.FFT_SIZE_RANGE. */
  const FftSizeMin: int := 256
  const FftSizeMax: int := 4096

  datatype FFTProcessor = FFTProcessor(fftSize: nat, windowType: WindowFunction,
                                       window: WindowShape, windowCorrection: real)

  predicate ValidProcessor(p: FFTProcessor)
  {
    FftSizeMin <= p.fftSize <= FftSizeMax
  }

  /** FFTProcessor.__init__: a range check of the size, then the window and its correction. */
  function NewFFTProcessor(fftSize: int, windowType: WindowFunction): (r: Result<FFTProcessor, Exceptions.Error>)
    ensures r.Success? <==> FftSizeMin <= fftSize <= FftSizeMax
    ensures r.Success? ==> ValidProcessor(r.value) && r.value.fftSize == fftSize
    ensures r.Success? ==> r.value.window == GetWindow(windowType)
                           && r.value.windowCorrection == CorrectionFactor(windowType)
    ensures r.Failure? ==> r.error == Exceptions.InvalidParameter(
                             "fft_size", PyNum(IntNum(fftSize)),
                             Some(Exceptions.RangeText(IntNum(FftSizeMin), IntNum(FftSizeMax))))
  {
    match Utils.ValidateRange(IntNum(fftSize), IntNum(FftSizeMin), IntNum(FftSizeMax), "fft_size")
    case Some(e) => Failure(e)
    case None => Success(FFTProcessor(fftSize, windowType, GetWindow(windowType), CorrectionFactor(windowType)))
  }

  /** The size is checked against a range, not a list of powers of two. */
  lemma FFTSizeIsARange()
    ensures NewFFTProcessor(300, Hann).Success?
    ensures NewFFTProcessor(256, Hann).Success? && NewFFTProcessor(4096, Hann).Success?
    ensures NewFFTProcessor(255, Hann).Failure? && NewFFTProcessor(8192, Hann).Failure?
  {
  }

  /** np.fft.fftshift(np.fft.fftfreq(n, 1/sample_rate)): bin k sits at (k - n//2)·sr/n. */
  function FrequencyAxis(n: nat, sampleRate: real): (f: seq<real>)
    requires n > 0
    ensures |f| == n
  {
    seq(n, k => (k - n / 2) as real * (sampleRate / n as real))
  }

  lemma MulLess(a: real, b: real, c: real)
    requires a < b && c > 0.0
    ensures a * c < b * c
  {
  }

  /** The centre bin is 0 Hz and, for a positive rate, the axis ascends. */
  lemma FrequencyAxisShape(n: nat, sampleRate: real)
    requires n > 0
    ensures FrequencyAxis(n, sampleRate)[n / 2] == 0.0
    ensures sampleRate > 0.0 ==>
              forall j, k :: 0 <= j < k < n ==> FrequencyAxis(n, sampleRate)[j] < FrequencyAxis(n, sampleRate)[k]
  {
    var f := FrequencyAxis(n, sampleRate);
    var res := sampleRate / n as real;
    if sampleRate > 0.0 {
      assert res > 0.0;
      forall j, k | 0 <= j < k < n
        ensures f[j] < f[k]
      {
        MulLess((j - n / 2) as real, (k - n / 2) as real, res);
      }
    }
  }

  // ---------------------------------------------------------- analysis result

  datatype Peak = Peak(frequency: real, amplitude: real, prominence: real, index: nat)

  /** SpectrumAnalysisResult. */
  datatype AnalysisResult = AnalysisResult(
    frequencies: seq<real>, spectrum: seq<real>, sampleRate: real, fftSize: int,
    peaks: seq<Peak>, noiseFloor: Option<real>, snr: Option<real>, dynamicRange: Option<real>)

  /** SpectrumAnalysisResult.__init__ with _calculate_metrics; `percentile10` is np.percentile(·, 10). */
  function NewAnalysisResult(frequencies: seq<real>, spectrum: seq<real>, sampleRate: real, fftSize: int,
                             percentile10: seq<real> -> real): (r: AnalysisResult)
    ensures r.frequencies == frequencies && r.spectrum == spectrum
    ensures r.sampleRate == sampleRate && r.fftSize == fftSize
    ensures r.peaks == [] && r.snr == None
    ensures r.noiseFloor.Some? <==> |spectrum| > 0
    ensures r.dynamicRange.Some? <==> |spectrum| > 0
    ensures r.noiseFloor.Some? ==> r.noiseFloor.value == percentile10(spectrum)
    ensures r.dynamicRange.Some? ==> r.dynamicRange.value >= 0.0
  {
    var base := AnalysisResult(frequencies, spectrum, sampleRate, fftSize, [], None, None, None);
    if |spectrum| > 0 then
      base.(noiseFloor := Some(percentile10(spectrum)),
            dynamicRange := Some(Stats.Max(spectrum) - Stats.Min(spectrum)))
    else base
  }

  /** The dynamic range is the largest difference between two bins, and it is attained. */
  lemma DynamicRangeSpan(r: AnalysisResult, frequencies: seq<real>, spectrum: seq<real>, sampleRate: real,
                         fftSize: int, percentile10: seq<real> -> real)
    requires r == NewAnalysisResult(frequencies, spectrum, sampleRate, fftSize, percentile10)
    requires |spectrum| > 0
    ensures forall i, j :: 0 <= i < |spectrum| && 0 <= j < |spectrum| ==>
              spectrum[i] - spectrum[j] <= r.dynamicRange.value
    ensures exists i, j :: 0 <= i < |spectrum| && 0 <= j < |spectrum| &&
              spectrum[i] - spectrum[j] == r.dynamicRange.value
  {
    var hi := Stats.Max(spectrum);
    var lo := Stats.Min(spectrum);
    var i :| 0 <= i < |spectrum| && spectrum[i] == hi;
    var j :| 0 <= j < |spectrum| && spectrum[j] == lo;
    assert spectrum[i] - spectrum[j] == r.dynamicRange.value;
  }

  /** The dB spectrum of a prepared block: `bin(block, shape, k)` for each bin k. */
  function SpectrumOf(block: seq<Complex>, shape: WindowShape, n: nat,
                      bin: (seq<Complex>, WindowShape, nat) -> real): (s: seq<real>)
    ensures |s| == n
    ensures forall k :: 0 <= k < n ==> s[k] == bin(block, shape, k)
  {
    seq(n, k requires 0 <= k < n => bin(block, shape, k))
  }

  /**
   * FFTProcessor.process_samples.  `bin(block, shape, k)` is bin k of the
   * fftshifted dB spectrum of the prepared block under that window, and
   * `raises(block, shape)` says numpy raised while computing it; a zero sample
   * rate raises in 1/sample_rate.  Every failure, the empty input included,
   * ends as an FFTProcessingError carrying the input length and the size.
   */
  function ProcessSamples(p: FFTProcessor, samples: seq<Complex>, sampleRate: real,
                          bin: (seq<Complex>, WindowShape, nat) -> real,
                          raises: (seq<Complex>, WindowShape) -> bool,
                          percentile10: seq<real> -> real): (r: Result<AnalysisResult, Exceptions.Error>)
    requires ValidProcessor(p)
    ensures r.Failure? <==>
              |samples| == 0 || raises(Prepared(samples, p.fftSize), p.window) || sampleRate == 0.0
    ensures r.Failure? ==> r.error == Exceptions.FFTProcessing(Some(|samples|), Some(p.fftSize))
    ensures r.Success? ==> r.value == NewAnalysisResult(FrequencyAxis(p.fftSize, sampleRate),
                                                        SpectrumOf(Prepared(samples, p.fftSize), p.window, p.fftSize, bin),
                                                        sampleRate, p.fftSize, percentile10)
  {
    if |samples| == 0 || raises(Prepared(samples, p.fftSize), p.window) || sampleRate == 0.0
    then Failure(Exceptions.FFTProcessing(Some(|samples|), Some(p.fftSize)))
    else
      var spectrum := SpectrumOf(Prepared(samples, p.fftSize), p.window, p.fftSize, bin);
      Success(NewAnalysisResult(FrequencyAxis(p.fftSize, sampleRate), spectrum, sampleRate, p.fftSize,
                                percentile10))
  }

  /** An empty block fails with the sizes left out of the message; a spectrum is never substituted. */
  lemma ProcessSamplesErrors(p: FFTProcessor, samples: seq<Complex>, sampleRate: real,
                             bin: (seq<Complex>, WindowShape, nat) -> real,
                             raises: (seq<Complex>, WindowShape) -> bool,
                             percentile10: seq<real> -> real)
    requires ValidProcessor(p)
    ensures var r := ProcessSamples(p, samples, sampleRate, bin, raises, percentile10);
            && (|samples| == 0 ==> r.Failure? && r.error.message == "FFT processing failed")
            && (r.Failure? ==> Exceptions.IsA(r.error.kind, Exceptions.DataProcessingError))
            && (r.Success? ==> |r.value.spectrum| == p.fftSize && |r.value.frequencies| == p.fftSize)
  {
    Exceptions.ProcessingErrorsAreDataProcessingErrors();
  }

  // -------------------------------------------------------------------- peaks

  /** scipy.signal.find_peaks on a spectrum and a height: (index, prominence) pairs, or None when it raises. */
  type PeakSelector = (seq<real>, real) -> Option<seq<(nat, real)>>

  /** `(noise_floor or -80) + 20`: a missing or zero noise floor counts as -80. */
  function DefaultThreshold(noiseFloor: Option<real>): (t: real)
    ensures noiseFloor.Some? && noiseFloor.value != 0.0 ==> t == noiseFloor.value + 20.0
    ensures noiseFloor == None || noiseFloor == Some(0.0) ==> t == -60.0
  {
    (if noiseFloor.Some? && noiseFloor.value != 0.0 then noiseFloor.value else -80.0) + 20.0
  }

  /** The peak dictionaries built from the selection; None when an index is out of range. */
  function PeakInfos(r: AnalysisResult, selected: seq<(nat, real)>): (peaks: Option<seq<Peak>>)
    ensures peaks.Some? <==> forall i :: 0 <= i < |selected| ==>
                               selected[i].0 < |r.frequencies| && selected[i].0 < |r.spectrum|
    ensures peaks.Some? ==> |peaks.value| == |selected|
    ensures peaks.Some? ==> forall i :: 0 <= i < |selected| ==>
              peaks.value[i] == Peak(r.frequencies[selected[i].0], r.spectrum[selected[i].0],
                                     selected[i].1, selected[i].0)
  {
    if selected == [] then Some([])
    else
      var (idx, prominence) := selected[0];
      var rest := PeakInfos(r, selected[1..]);
      if idx < |r.frequencies| && idx < |r.spectrum| && rest.Some? then
        Some([Peak(r.frequencies[idx], r.spectrum[idx], prominence, idx)] + rest.value)
      else None
  }

  /** The order `sort(key=amplitude, reverse=True)` produces: higher amplitude first. */
  predicate LouderFirst(a: Peak, b: Peak)
  {
    a.amplitude >= b.amplitude
  }

  lemma LouderFirstTotal()
    ensures Sorting.Total(LouderFirst)
  {
  }

  /**
   * SpectrumAnalysisResult.find_peaks: returns the result with its peaks
   * replaced and the peaks, or the result unchanged and [] when the selection
   * or the indexing raises.
   */
  function FindPeaks(r: AnalysisResult, heightThreshold: Option<real>, select: PeakSelector): (out: (AnalysisResult, seq<Peak>))
    ensures out.0 == r.(peaks := out.0.peaks)
    ensures out.0.peaks == r.peaks || out.0.peaks == out.1
  {
    var height := if heightThreshold.Some? then heightThreshold.value else DefaultThreshold(r.noiseFloor);
    match select(r.spectrum, height)
    case None => (r, [])
    case Some(selected) =>
      match PeakInfos(r, selected)
      case None => (r, [])
      case Some(peaks) =>
        var sorted := Sorting.Sort(peaks, LouderFirst);
        (r.(peaks := sorted), sorted)
  }

  /** The peaks come highest first and are exactly the selected ones; failures give []. */
  lemma FindPeaksOrdered(r: AnalysisResult, heightThreshold: Option<real>, select: PeakSelector)
    ensures var out := FindPeaks(r, heightThreshold, select);
            Sorting.SortedBy(out.1, LouderFirst)
            && (out.0 == r || out.0 == r.(peaks := out.1))
    ensures var height := if heightThreshold.Some? then heightThreshold.value else DefaultThreshold(r.noiseFloor);
            var out := FindPeaks(r, heightThreshold, select);
            match select(r.spectrum, height)
            case None => out == (r, [])
            case Some(selected) =>
              (PeakInfos(r, selected).None? ==> out == (r, []))
              && (PeakInfos(r, selected).Some? ==>
                    multiset(out.1) == multiset(PeakInfos(r, selected).value)
                    && out.0 == r.(peaks := out.1))
  {
    var height := if heightThreshold.Some? then heightThreshold.value else DefaultThreshold(r.noiseFloor);
    match select(r.spectrum, height)
    case None =>
    case Some(selected) =>
      match PeakInfos(r, selected)
      case None =>
      case Some(peaks) =>
        LouderFirstTotal();
        Sorting.SortSorted(peaks, LouderFirst);
  }

  /**
   * The sort is stable: peaks of equal amplitude come out in the order the
   * selection found them.
   */
  lemma FindPeaksStable(r: AnalysisResult, heightThreshold: Option<real>, select: PeakSelector, amplitude: real)
    ensures var height := if heightThreshold.Some? then heightThreshold.value else DefaultThreshold(r.noiseFloor);
            var same := (p: Peak) => p.amplitude == amplitude;
            match select(r.spectrum, height)
            case None => true
            case Some(selected) =>
              PeakInfos(r, selected).Some? ==>
                Sorting.Keep(FindPeaks(r, heightThreshold, select).1, same)
                == Sorting.Keep(PeakInfos(r, selected).value, same)
  {
    var height := if heightThreshold.Some? then heightThreshold.value else DefaultThreshold(r.noiseFloor);
    var same := (p: Peak) => p.amplitude == amplitude;
    match select(r.spectrum, height)
    case None =>
    case Some(selected) =>
      match PeakInfos(r, selected)
      case None =>
      case Some(peaks) =>
        Sorting.SortStable(peaks, LouderFirst, same);
  }

  // ----------------------------------------------------- averaging, peak hold

  /** alpha·x + (1 − alpha)·y. */
  function Mix(alpha: real, x: real, y: real): real
  {
    alpha * x + (1.0 - alpha) * y
  }

  lemma ScaledBelow(a: real, d: real)
    requires 0.0 <= a <= 1.0 && d >= 0.0
    ensures 0.0 <= a * d <= d
  {
  }

  lemma MixAsStep(a: real, x: real, y: real)
    ensures Mix(a, x, y) == y - a * (y - x)
    ensures Mix(a, x, y) == y + a * (x - y)
  {
  }

  lemma MixUp(a: real, x: real, y: real)
    requires 0.0 <= a <= 1.0 && x <= y
    ensures x <= Mix(a, x, y) <= y
  {
    MixAsStep(a, x, y);
    ScaledBelow(a, y - x);
  }

  lemma MixDown(a: real, x: real, y: real)
    requires 0.0 <= a <= 1.0 && y <= x
    ensures y <= Mix(a, x, y) <= x
  {
    MixAsStep(a, x, y);
    ScaledBelow(a, x - y);
  }

  /** alpha·raw + (1 − alpha)·prev, elementwise. */
  function Blend(alpha: real, raw: seq<real>, prev: seq<real>): (b: seq<real>)
    requires |raw| == |prev|
    ensures |b| == |raw|
  {
    seq(|raw|, i requires 0 <= i < |raw| => Mix(alpha, raw[i], prev[i]))
  }

  /** Each blended bin lies between the new and the previous value of that bin. */
  lemma BlendBetween(alpha: real, raw: seq<real>, prev: seq<real>)
    requires |raw| == |prev| && 0.0 <= alpha <= 1.0
    ensures forall i :: 0 <= i < |raw| && raw[i] <= prev[i] ==> raw[i] <= Blend(alpha, raw, prev)[i] <= prev[i]
    ensures forall i :: 0 <= i < |raw| && prev[i] <= raw[i] ==> prev[i] <= Blend(alpha, raw, prev)[i] <= raw[i]
  {
    var b := Blend(alpha, raw, prev);
    forall i | 0 <= i < |raw|
      ensures raw[i] <= prev[i] ==> raw[i] <= b[i] <= prev[i]
      ensures prev[i] <= raw[i] ==> prev[i] <= b[i] <= raw[i]
    {
      assert b[i] == Mix(alpha, raw[i], prev[i]);
      if raw[i] <= prev[i] {
        MixUp(alpha, raw[i], prev[i]);
      }
      if prev[i] <= raw[i] {
        MixDown(alpha, raw[i], prev[i]);
      }
    }
  }

  /** A steady input is a fixed point of the average; alpha 1 tracks, alpha 0 freezes. */
  lemma BlendSteady(alpha: real, raw: seq<real>, prev: seq<real>)
    requires |raw| == |prev|
    ensures raw == prev ==> Blend(alpha, raw, prev) == raw
    ensures alpha == 1.0 ==> Blend(alpha, raw, prev) == raw
    ensures alpha == 0.0 ==> Blend(alpha, raw, prev) == prev
  {
    var b := Blend(alpha, raw, prev);
    if raw == prev {
      forall i | 0 <= i < |raw|
        ensures b[i] == raw[i]
      {
        MixAsStep(alpha, raw[i], prev[i]);
      }
    }
  }

  /** The averaged spectrum stored after a call: the raw one first, then the blend. */
  function Averaged(prev: Option<seq<real>>, raw: seq<real>, alpha: real): (a: seq<real>)
    requires prev.Some? ==> |prev.value| == |raw|
    ensures |a| == |raw|
  {
    match prev
    case None => raw
    case Some(p) => Blend(alpha, raw, p)
  }

  /** np.maximum. */
  function ElementMax(a: seq<real>, b: seq<real>): (m: seq<real>)
    requires |a| == |b|
    ensures |m| == |a|
  {
    seq(|a|, i requires 0 <= i < |a| => if a[i] >= b[i] then a[i] else b[i])
  }

  /** The peak-hold spectrum stored after a call. */
  function Held(prev: Option<seq<real>>, s: seq<real>): (h: seq<real>)
    requires prev.Some? ==> |prev.value| == |s|
    ensures |h| == |s|
  {
    match prev
    case None => s
    case Some(p) => ElementMax(p, s)
  }

  /** Peak hold covers the spectrum it was given and never falls below what it held. */
  lemma HeldNeverDecreases(prev: Option<seq<real>>, s: seq<real>)
    requires prev.Some? ==> |prev.value| == |s|
    ensures forall i :: 0 <= i < |s| ==> s[i] <= Held(prev, s)[i]
    ensures prev.Some? ==> forall i :: 0 <= i < |s| ==> prev.value[i] <= Held(prev, s)[i]
    ensures forall i :: 0 <= i < |s| ==>
              Held(prev, s)[i] == s[i] || (prev.Some? && Held(prev, s)[i] == prev.value[i])
  {
  }

  /** SpectrumAnalyzer. */
  class SpectrumAnalyzer {
    const processor: FFTProcessor
    const averagingFactor: real
    var averaged: Option<seq<real>>
    var peakHold: Option<seq<real>>

    predicate Valid()
      reads this
    {
      ValidProcessor(processor) && 0.0 <= averagingFactor <= 1.0
      && (averaged.Some? ==> |averaged.value| == processor.fftSize)
      && (peakHold.Some? ==> |peakHold.value| == processor.fftSize)
    }

    constructor (processor: FFTProcessor, averagingFactor: real)
      requires ValidProcessor(processor) && 0.0 <= averagingFactor <= 1.0
      ensures Valid()
      ensures this.processor == processor && this.averagingFactor == averagingFactor
      ensures averaged == None && peakHold == None
    {
      this.processor := processor;
      this.averagingFactor := averagingFactor;
      averaged := None;
      peakHold := None;
    }

    /**
     * SpectrumAnalyzer.analyze_samples.  A processing failure propagates and
     * changes nothing.  The metrics of the result are those of the raw
     * spectrum; with averaging on, its spectrum is the stored average.
     */
    method AnalyzeSamples(samples: seq<Complex>, sampleRate: real, enableAveraging: bool, enablePeakHold: bool,
                          bin: (seq<Complex>, WindowShape, nat) -> real,
                          raises: (seq<Complex>, WindowShape) -> bool,
                          percentile10: seq<real> -> real)
      returns (r: Result<AnalysisResult, Exceptions.Error>)
      requires Valid()
      modifies this
      ensures Valid()
      ensures var raw := ProcessSamples(processor, samples, sampleRate, bin, raises, percentile10);
              raw.Failure? ==> r == raw && averaged == old(averaged) && peakHold == old(peakHold)
      ensures var raw := ProcessSamples(processor, samples, sampleRate, bin, raises, percentile10);
              raw.Success? ==>
                && averaged == (if enableAveraging then Some(Averaged(old(averaged), raw.value.spectrum, averagingFactor))
                                else old(averaged))
                && r == Success(raw.value.(spectrum := if enableAveraging then averaged.value else raw.value.spectrum))
                && peakHold == (if enablePeakHold then Some(Held(old(peakHold), r.value.spectrum))
                                else old(peakHold))
    {
      var raw := ProcessSamples(processor, samples, sampleRate, bin, raises, percentile10);
      if raw.Failure? {
        return raw;
      }
      var result := raw.value;
      if enableAveraging {
        if averaged.None? {
          averaged := Some(result.spectrum);
        } else {
          averaged := Some(Blend(averagingFactor, result.spectrum, averaged.value));
          result := result.(spectrum := averaged.value);
        }
      }
      if enablePeakHold {
        if peakHold.None? {
          peakHold := Some(result.spectrum);
        } else {
          peakHold := Some(ElementMax(peakHold.value, result.spectrum));
        }
      }
      r := Success(result);
    }

    /** SpectrumAnalyzer.get_peak_hold_spectrum. */
    method GetPeakHoldSpectrum() returns (h: Option<seq<real>>)
      ensures h == peakHold
    {
      h := peakHold;
    }

    /** SpectrumAnalyzer.reset_averaging: the next averaged call starts afresh. */
    method ResetAveraging()
      requires Valid()
      modifies this
      ensures Valid()
      ensures averaged == None && peakHold == old(peakHold)
    {
      averaged := None;
    }

    /** SpectrumAnalyzer.reset_peak_hold. */
    method ResetPeakHold()
      requires Valid()
      modifies this
      ensures Valid()
      ensures peakHold == None && averaged == old(averaged)
    {
      peakHold := None;
    }
  }

  /** SpectrumAnalyzer.__init__: the processor is built (and may raise) first, then the factor is checked. */
  method NewSpectrumAnalyzer(fftSize: int, windowType: WindowFunction, averagingFactor: real)
    returns (r: Result<SpectrumAnalyzer, Exceptions.Error>)
    ensures NewFFTProcessor(fftSize, windowType).Failure? ==>
              r.Failure? && r.error == NewFFTProcessor(fftSize, windowType).error
    ensures NewFFTProcessor(fftSize, windowType).Success? ==> (r.Success? <==> 0.0 <= averagingFactor <= 1.0)
    ensures NewFFTProcessor(fftSize, windowType).Success? && r.Failure? ==>
              r.error == Exceptions.InvalidParameter("averaging_factor", PyNum(FloatNum(averagingFactor)),
                                                     Some(Exceptions.RangeText(FloatNum(0.0), FloatNum(1.0))))
    ensures r.Success? ==> fresh(r.value) && r.value.Valid()
                           && r.value.processor == NewFFTProcessor(fftSize, windowType).value
                           && r.value.averagingFactor == averagingFactor
                           && r.value.averaged == None && r.value.peakHold == None
  {
    var processor := NewFFTProcessor(fftSize, windowType);
    if processor.Failure? {
      return Failure(processor.error);
    }
    var check := Utils.ValidateRange(FloatNum(averagingFactor), FloatNum(0.0), FloatNum(1.0), "averaging_factor");
    if check.Some? {
      return Failure(check.value);
    }
    var analyzer := new SpectrumAnalyzer(processor.value, averagingFactor);
    r := Success(analyzer);
  }

  // ---------------------------------------------------------------------- SNR

  function Abs(x: real): real
  {
    if x < 0.0 then -x else x
  }

  /** np.argmin: the first index of a smallest element. */
  function ArgMin(s: seq<real>): (k: nat)
    requires |s| > 0
    ensures k < |s|
    ensures forall j :: 0 <= j < |s| ==> s[k] <= s[j]
    ensures forall j :: 0 <= j < k ==> s[k] < s[j]
  {
    if |s| == 1 then 0
    else
      var k := ArgMin(s[..|s| - 1]);
      assert forall j :: 0 <= j < |s| - 1 ==> s[..|s| - 1][j] == s[j];
      if s[|s| - 1] < s[k] then |s| - 1 else k
  }

  /** The bin nearest the signal frequency: argmin of |frequencies − f|. */
  function NearestBin(frequencies: seq<real>, f: real): (k: nat)
    requires |frequencies| > 0
    ensures k < |frequencies|
    ensures forall j :: 0 <= j < |frequencies| ==> Abs(frequencies[k] - f) <= Abs(frequencies[j] - f)
  {
    var d := seq(|frequencies|, i requires 0 <= i < |frequencies| => Abs(frequencies[i] - f));
    assert forall j :: 0 <= j < |frequencies| ==> d[j] == Abs(frequencies[j] - f);
    ArgMin(d)
  }

  /** max(1, int(bandwidth / resolution)), int() truncating toward zero. */
  function BandwidthBins(bandwidth: real, resolution: real): (b: int)
    requires resolution != 0.0
    ensures b >= 1
  {
    var t := Text.Trunc(bandwidth / resolution);
    if t > 1 then t else 1
  }

  /** The signal window of estimate_snr: its bin and the slice [start, end). */
  datatype SignalWindow = SignalWindow(signalBin: nat, start: nat, end: nat)

  /**
   * The window estimate_snr measures, or None when it gives up before
   * measuring: no data, a zero resolution or size (a ZeroDivisionError it
   * catches), or an empty window.
   */
  function SnrWindow(r: AnalysisResult, signalFrequency: real, signalBandwidth: real): (w: Option<SignalWindow>)
    ensures w.Some? ==> w.value.start < w.value.end <= |r.spectrum|
  {
    if |r.spectrum| == 0 || |r.frequencies| == 0 || r.fftSize == 0 || r.sampleRate == 0.0 then None
    else
      var resolution := r.sampleRate / r.fftSize as real;
      var signalBin := NearestBin(r.frequencies, signalFrequency);
      var half := BandwidthBins(signalBandwidth, resolution) / 2;
      var start := if signalBin - half > 0 then signalBin - half else 0;
      var end := if |r.spectrum| < signalBin + half + 1 then |r.spectrum| else signalBin + half + 1;
      if start >= end || end > |r.spectrum| then None
      else Some(SignalWindow(signalBin, start, end))
  }

  /**
   * Whenever the frequency axis is no longer than the spectrum (as
   * process_samples makes it), the window exists, contains the signal bin and
   * is half a bandwidth wide on each side unless clipped by an edge.
   */
  lemma SnrWindowAroundSignal(r: AnalysisResult, signalFrequency: real, signalBandwidth: real)
    requires 0 < |r.frequencies| <= |r.spectrum|
    requires r.fftSize != 0 && r.sampleRate != 0.0
    ensures SnrWindow(r, signalFrequency, signalBandwidth).Some?
    ensures var w := SnrWindow(r, signalFrequency, signalBandwidth).value;
            var half := BandwidthBins(signalBandwidth, r.sampleRate / r.fftSize as real) / 2;
            && w.signalBin == NearestBin(r.frequencies, signalFrequency)
            && w.start <= w.signalBin < w.end
            && w.start == (if w.signalBin - half > 0 then w.signalBin - half else 0)
            && w.end == (if |r.spectrum| < w.signalBin + half + 1 then |r.spectrum| else w.signalBin + half + 1)
  {
  }

  /** The spectrum outside [start, end), in order. */
  function Outside(s: seq<real>, start: nat, end: nat): (o: seq<real>)
    requires start <= end <= |s|
    ensures |o| == |s| - (end - start)
  {
    s[..start] + s[end..]
  }

  /** SpectrumAnalyzer.estimate_snr: peak of the window minus mean of the rest. */
  function SnrEstimate(r: AnalysisResult, signalFrequency: real, signalBandwidth: real): (snr: Option<real>)
    ensures snr.None? <==>
              (SnrWindow(r, signalFrequency, signalBandwidth).None?
               || (SnrWindow(r, signalFrequency, signalBandwidth).value.start == 0
                   && SnrWindow(r, signalFrequency, signalBandwidth).value.end == |r.spectrum|))
  {
    match SnrWindow(r, signalFrequency, signalBandwidth)
    case None => None
    case Some(w) =>
      var noise := Outside(r.spectrum, w.start, w.end);
      if |noise| == 0 then None
      else Some(Stats.Max(r.spectrum[w.start..w.end]) - Stats.Mean(noise))
  }

  /** The noise bins the mask keeps among the first i bins. */
  function KeptBelow(s: seq<real>, start: nat, end: nat, i: nat): (o: seq<real>)
    requires start <= end <= |s| && i <= |s|
  {
    if i == 0 then []
    else KeptBelow(s, start, end, i - 1) + (if start <= i - 1 < end then [] else [s[i - 1]])
  }

  lemma {:induction false} KeptBelowOutside(s: seq<real>, start: nat, end: nat, i: nat)
    requires start <= end <= |s| && i <= |s|
    ensures i <= start ==> KeptBelow(s, start, end, i) == s[..i]
    ensures start <= i <= end ==> KeptBelow(s, start, end, i) == s[..start]
    ensures end <= i ==> KeptBelow(s, start, end, i) == s[..start] + s[end..i]
  {
    if i > 0 {
      KeptBelowOutside(s, start, end, i - 1);
      assert s[..i] == s[..i - 1] + [s[i - 1]];
      if end < i {
        assert s[end..i] == s[end..i - 1] + [s[i - 1]];
      }
    }
  }

  /** The noise region of estimate_snr: a mask cleared on [start, end), then applied. */
  method NoiseRegion(spectrum: seq<real>, start: nat, end: nat) returns (noise: seq<real>)
    requires start <= end <= |spectrum|
    ensures noise == Outside(spectrum, start, end)
  {
    var mask := new bool[|spectrum|](_ => true);
    var j := start;
    while j < end
      invariant start <= j <= end
      invariant forall k :: 0 <= k < mask.Length ==> mask[k] == !(start <= k < j)
    {
      mask[j] := false;
      j := j + 1;
    }
    noise := [];
    var i := 0;
    while i < |spectrum|
      invariant 0 <= i <= |spectrum|
      invariant noise == KeptBelow(spectrum, start, end, i)
    {
      if mask[i] {
        noise := noise + [spectrum[i]];
      }
      i := i + 1;
    }
    KeptBelowOutside(spectrum, start, end, |spectrum|);
    assert spectrum[end..|spectrum|] == spectrum[end..];
  }

  /** SpectrumAnalyzer.estimate_snr. */
  method EstimateSnr(r: AnalysisResult, signalFrequency: real, signalBandwidth: real) returns (snr: Option<real>)
    ensures snr == SnrEstimate(r, signalFrequency, signalBandwidth)
  {
    var window := SnrWindow(r, signalFrequency, signalBandwidth);
    if window.None? {
      return None;
    }
    var start, end := window.value.start, window.value.end;
    var signalPower := Stats.Max(r.spectrum[start..end]);
    var noise := NoiseRegion(r.spectrum, start, end);
    if |noise| == 0 {
      return None;
    }
    snr := Some(signalPower - Stats.Mean(noise));
  }
}

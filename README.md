# ADAML-Pluto, modelled in Dafny

ADAML-Pluto is a Python toolkit around the ADALM-Pluto software-defined radio.
It has two parts, and this project models the sequential logic of both.

The radio side:
- a spectrum post-processing engine: sample blocks padded or truncated to the FFT
  size, window and correction selection, exponential averaging and peak hold with
  resets, SNR signal and noise windows, and peak ordering;
- a waterfall display: a fixed-depth history scrolled newest row first, an
  elementwise peak hold, clip-normalisation, strict local-maximum peaks, and key
  handlers that step and clamp the centre frequency and the sample rate;
- a sweeping spectrum analyser: its sweep, finished and pause-then-restart phases,
  a per-frequency peak-hold table, and known-band clipping;
- parsers, formatters, validators and small utilities: frequency parsers, unit
  formatters, clamp and interpolation, chunking and flattening, greedy peak finding,
  a rate limiter, range validators and error messages;
- the exception hierarchy and the device-error mapping;
- the device-configuration validator, profile factory and file-name sanitiser;
- temperature warnings, the connection flags and URI de-duplication of the device
  manager;
- a table of timers and counters;
- the classification, sizing and ordering of the log browser.

The sales side:
- leads with bounded scores and growing notes;
- a lead table with filters, search and statistics;
- e-mail templates with `{name}` placeholders;
- an outreach tracker with status histories and response statistics.

One Dafny module models each source file:
- `Exceptions`, `Utils`, `SignalProcessing`, `ConfigManager`, `DeviceManager` and
  `Performance` model the files of the `refactored` package;
- `Waterfall`, `SpectrumSweep`, `PlutoUtils` and `LogBrowser` model the top-level
  scripts;
- `Leads`, `LeadManagement`, `EmailTemplates` and `OutreachTracking` model the
  modules under `src/adaml_pluto`.

The shared helper modules are `Wrappers` (Option and Result), `Text` (Python string
operations), `Values`, `Sorting` (a stable insertion sort), `Stats`, `Keys` (the
key order of a Python dictionary) and `Tally` (occurrence counts and their sums, rounding to two
places).

Where the source updates an object's fields, the model is a class whose methods
update those fields. Where a loop in the source updates state, the model keeps the loop,
with its invariants. A loop that only builds a list from its input becomes a recursive
function. For example, the loop building the peak dictionaries becomes `SignalProcessing.PeakInfos`.
Pure code becomes functions, and lemmas state what the code promises.

Floating-point values are exact reals. The FFT, the window generators, `log10` and
percentiles are function parameters. Clocks, UUIDs and device answers are
parameters too.

Where a docstring and the code disagree, the model follows the code.
`format_time_duration`'s docstring shows "1h 1m 1s", but the code prints the
seconds with one decimal, as in "1h 1m 1.0s" (refactored/utils.py:108-118).
`Utils.FormatTimeDuration` gives what the code prints.

## Model

| member | source | states |
|---|---|---|
| Exceptions.Parent | refactored/exceptions.py:44-339 | each exception class's direct base class; only PlutoSDRError has none |
| Exceptions.AllArePlutoSDRErrors | refactored/exceptions.py:15-339 | every exception class of the toolkit is a PlutoSDRError |
| Exceptions.ProcessingErrorsAreDataProcessingErrors | refactored/exceptions.py:217-245 | FFT and spectrum-analysis errors are DataProcessingErrors and PlutoSDRErrors, and not device or configuration errors |
| Exceptions.NewError | refactored/exceptions.py:18-31 | the message, code and details are kept; a missing details dictionary becomes an empty one |
| Exceptions.ToString | refactored/exceptions.py:33-41 | the message, preceded by the code prefix and followed by the details suffix |
| Exceptions.ToStringShape | refactored/exceptions.py:33-41 | the text starts with "[code] " exactly when a non-empty code is set; with no details it is the prefix and the message; with details it ends in ")" |
| Exceptions.DetailItemsConcat | refactored/exceptions.py:38-39 | the details text of a list is the text of any non-empty first part, then ", ", then the text of the rest: the k=v items print once each, in dictionary order |
| Exceptions.DeviceNotFound | refactored/exceptions.py:49-56 | class, code DEVICE_NOT_FOUND, the message with or without the criteria, and the search_criteria detail |
| Exceptions.DeviceConnection | refactored/exceptions.py:59-66 | class, code CONNECTION_FAILED, and the message "Failed to connect to PlutoSDR at <uri>", followed by ": <reason>" exactly when a reason is given |
| Exceptions.DeviceNotConnected | refactored/exceptions.py:69-76 | class, code DEVICE_NOT_CONNECTED, and the message with or without the attempted operation |
| Exceptions.DeviceTimeout | refactored/exceptions.py:79-84 | class, code DEVICE_TIMEOUT, the message naming the operation and the timeout in seconds, and the operation and timeout details |
| Exceptions.InvalidFrequency | refactored/exceptions.py:92-101 | class, code INVALID_FREQUENCY, the message giving the frequency and both bounds in MHz with one decimal, and the frequency, min_frequency and max_frequency details |
| Exceptions.InvalidSampleRate | refactored/exceptions.py:104-113 | class, code INVALID_SAMPLE_RATE, the message giving the rate and both bounds in MHz with one decimal, and the three details |
| Exceptions.InvalidGain | refactored/exceptions.py:116-127 | class, code INVALID_GAIN, a message starting "Invalid <type> gain " (or "Invalid gain " without a type), and the four details |
| Exceptions.InvalidParameter | refactored/exceptions.py:130-141 | class, code INVALID_PARAMETER, the message with or without the valid range, and the three details in order |
| Exceptions.CalibrationFailed | refactored/exceptions.py:149-158 | class, code CALIBRATION_FAILED, the message in each of the four cases of stage and reason given or not, and the two details |
| Exceptions.LoopbackTest | refactored/exceptions.py:161-171 | class, code LOOPBACK_FAILED, the correlation and threshold to three decimals in the message exactly when both are given, and the two details |
| Exceptions.WaveformGeneration | refactored/exceptions.py:179-189 | class, code WAVEFORM_GENERATION_FAILED, the message with the waveform type and, when given, the reason, and the two details |
| Exceptions.Transmission | refactored/exceptions.py:192-199 | class, code TRANSMISSION_FAILED, the message with the reason when given, and the reason detail |
| Exceptions.DDSConfiguration | refactored/exceptions.py:202-214 | class, code DDS_CONFIG_FAILED and the two details; the full message in all four cases: "DDS configuration failed", then " for frequency <f/1000 to one decimal> kHz" exactly when a non-zero frequency is given, then ": <reason>" exactly when a non-empty reason is given |
| Exceptions.SizesSuffix | refactored/exceptions.py:227-228 | the sizes suffix, present exactly when both sizes are given and non-zero |
| Exceptions.FFTProcessing | refactored/exceptions.py:222-232 | class, code FFT_PROCESSING_FAILED, the message with the sizes suffix, and the details |
| Exceptions.SpectrumAnalysis | refactored/exceptions.py:235-245 | class, code SPECTRUM_ANALYSIS_FAILED, the message with the analysis type and, when given, the reason, and the two details |
| Exceptions.ConfigurationFile | refactored/exceptions.py:253-264 | class, code CONFIG_FILE_ERROR, the message with the operation and file name and, when given, the reason, and the three details |
| Exceptions.DataExport | refactored/exceptions.py:267-278 | class, code DATA_EXPORT_FAILED, the message with the file name, the format and, when given, the reason, and the three details |
| Exceptions.TemperatureRead | refactored/exceptions.py:286-296 | class, code TEMPERATURE_READ_FAILED, the message with the sensor and, when given, the reason, and the two details |
| Exceptions.Overtemperature | refactored/exceptions.py:299-308 | class, code OVERTEMPERATURE, the message with both temperatures to one decimal, and the sensor, temperature and threshold details |
| Exceptions.WidgetInitialization | refactored/exceptions.py:316-326 | class, code WIDGET_INIT_FAILED, the message with the widget name and, when given, the reason, and the two details |
| Exceptions.PlotUpdate | refactored/exceptions.py:329-339 | class, code PLOT_UPDATE_FAILED, the message with the plot type and, when given, the reason, and the two details |
| Exceptions.HandleDeviceError | refactored/exceptions.py:343-355 | a success passes through; a failure becomes DeviceNotFoundError when its lowercased text contains "not found", otherwise DeviceConnectionError for "connection" or "timeout", otherwise a DeviceError |
| Exceptions.HandleDeviceErrorIsDeviceError | refactored/exceptions.py:343-355 | every error the decorator raises is a DeviceError |
| Exceptions.ValidateFrequency | refactored/exceptions.py:358-361 | no error iff min <= frequency <= max; otherwise InvalidFrequencyError with those values |
| Exceptions.ValidateSampleRate | refactored/exceptions.py:364-367 | no error iff the rate is in range; otherwise InvalidSampleRateError |
| Exceptions.ValidateGain | refactored/exceptions.py:370-373 | no error iff the gain is in range; otherwise InvalidGainError |
| Exceptions.ValidateParameter | refactored/exceptions.py:376-381 | no error iff the value is in range; otherwise InvalidParameterError with the range "min-max" |
| Values.FloatStr | refactored/exceptions.py:83 | a whole float below 10^16 in magnitude prints as its integer followed by ".0" |
| Values.FloatStrLarge | refactored/exceptions.py:83 | a float of magnitude a ≥ 10^16 prints as its sign, the mantissa a/10^e, "e+" and e, where e ≥ 16 and 10^e ≤ a < 10^(e+1) |
| Values.FloatStrSmall | refactored/exceptions.py:83 | a float of magnitude 0 < a < 10^-4 prints as its sign, the mantissa a·10^k, "e-" and k (two digits at least), where k ≥ 5 and 10^(k-1) < 1/a ≤ 10^k |
| Values.FloatStrAt16 | refactored/exceptions.py:83 | 10^16 prints as "1e+16" |
| Values.FloatStrAtMinus5 | refactored/exceptions.py:121 | -10^-5 prints as "-1e-05" |
| Values.ExponentAbove | refactored/exceptions.py:83 | the decimal exponent of a value of at least 10^from: 10^e ≤ a < 10^(e+1) |
| Values.ExponentBelow | refactored/exceptions.py:83 | the negative decimal exponent of a value below 10^-4: 10^(k-1) < 1/a ≤ 10^k with k ≥ 5 |
| Values.ExponentDigits | refactored/exceptions.py:83 | an exponent is printed with at least two digits |
| Utils.TakeDigits | refactored/utils.py:77 | the longest digit prefix: the `\d+` group of the pattern |
| Utils.DecimalValue | refactored/utils.py:84 | float() of the matched number is a non-negative exact value |
| Utils.Scale | refactored/utils.py:88-95 | the value times 1e9, 1e6, 1e3 or 1 by unit; non-negative values stay non-negative |
| Utils.MatchFrequency | refactored/utils.py:76-78 | a match of the frequency pattern has valid groups and the text starts with a digit; MatchFrequencySound and MatchFrequencyComplete give both directions of the pattern |
| Utils.MatchFrequencyComplete | refactored/utils.py:76-78 | every text of the pattern's shape is matched with exactly its groups (number, optional fraction, whitespace, optional unit) |
| Utils.ParseFrequency | refactored/utils.py:56-95 | success iff the stripped upper-cased text matches; the error is InvalidParameterError("frequency", the normalised text, format hint); the result is non-negative |
| Utils.ParseFrequencyNeedsLeadingDigit | refactored/utils.py:76-82 | a text not led by a digit (a sign, a point, nothing) raises InvalidParameterError |
| Utils.MatchFrequencySound | refactored/utils.py:76-78 | only texts of the pattern's shape match: a match means the text is the integer digits, the optional fraction, whitespace and the unit |
| Utils.ParseFrequencySound | refactored/utils.py:76-95 | a frequency is returned only for a normalised text of the pattern's shape, and it is that text's number scaled by its unit |
| Utils.ParseFrequencyTrailingExample | refactored/utils.py:78-82 | text after the unit, as in "1 MHzX", raises |
| Utils.ParseFrequencyOfMatch | refactored/utils.py:84-95 | a matched text parses to its number times its unit's multiplier |
| Utils.ParseFrequencyGigahertzExample | refactored/utils.py:69-70 | "2.4 GHz" parses to 2400000000.0 |
| Utils.ParseFrequencyMegahertzExample | refactored/utils.py:71-72 | "100 MHz" parses to 100000000.0 |
| Utils.TimeDurationFields | refactored/utils.py:114-118 | for an hour or more the fields are s // 3600, (s % 3600) // 60 and s % 60 |
| Utils.FormatTimeDuration | refactored/utils.py:98-124 | the text ends in "s"; TimeDurationFields and TimeDurationExamples state the fields and the examples |
| Utils.TimeDurationExamples | refactored/utils.py:106-124 | 3661 gives "1h 1m 1.0s" (seconds with one decimal) and 125.5 gives "2m 5.5s" |
| Utils.SizeSteps | refactored/utils.py:143-147 | the number of divisions by 1024: stops at the first value below 1024, or after the fifth unit |
| Utils.FormatDataSize | refactored/utils.py:127-147 | the loop over B, KB, MB, GB, TB and then PB returns the value after SizeSteps divisions with one decimal and that unit |
| Utils.DataSizeScaled | refactored/utils.py:143-147 | the printed value lies in 0..1024 except past the last unit; sizes below 1024 stay in bytes |
| Utils.DataSizeExamples | refactored/utils.py:137-147 | 1024 gives "1.0 KB" and 1048576 gives "1.0 MB" |
| Utils.Clamp | refactored/utils.py:150-162 | in [lo, hi] when lo <= hi; the value itself when inside; lo when lo > hi |
| Utils.LinearInterpolate | refactored/utils.py:165-179 | y1 at x1, and y1 for a degenerate segment; LinearInterpolateEndpoints and LinearInterpolateBetween state the rest |
| Utils.LinearInterpolateEndpoints | refactored/utils.py:177-179 | y1 at x1, y2 at x2, and y1 everywhere for a degenerate segment |
| Utils.LinearInterpolateBetween | refactored/utils.py:179 | between the points the value lies between y1 and y2 |
| Utils.SafeDivide | refactored/utils.py:329-341 | the default exactly when the denominator is 0, otherwise the quotient |
| Utils.ValidateRange | refactored/utils.py:311-326 | an error iff the value is outside the closed range; the error is an InvalidParameterError |
| Utils.GreedyPeaksProperties | refactored/utils.py:223-234 | every kept index is a strict local maximum above the threshold, kept indices ascend at least min_distance apart, and every peak not kept lies within min_distance after a kept one |
| Utils.GreedyPeaks | refactored/utils.py:223-234 | every index kept is a strict local maximum above the threshold; GreedyPeaksProperties states spacing and greediness |
| Utils.FindPeaksSimple | refactored/utils.py:211-234 | the loop returns the greedy left-to-right selection |
| Utils.FindPeaksSimpleSpacing | refactored/utils.py:231 | kept peaks are pairwise at least min_distance apart |
| Utils.Chunks | refactored/utils.py:375-386 | None (ValueError of range) exactly for chunk size 0; no chunks for a negative size |
| Utils.ChunksOf | refactored/utils.py:386 | every chunk is non-empty and at most k long, and all but the last are exactly k long |
| Utils.FlattenChunks | refactored/utils.py:386-399 | flattening the chunks of a list gives the list back |
| Utils.RecentCalls | refactored/utils.py:448 | the filter of the list comprehension: each occurrence of a call with now - t < window is kept as often as it occurs, every other call is dropped, and the kept calls stay in their order (a subsequence) |
| Utils.RateLimiter.constructor | refactored/utils.py:431-441 | the limits are stored and no call is recorded |
| Utils.RateLimiter.CanProceed | refactored/utils.py:443-450 | drops the expired calls and answers whether fewer than max_calls remain |
| Utils.RateLimiter.RecordCall | refactored/utils.py:452-454 | appends exactly one time stamp |
| SignalProcessing.GetWindow | refactored/signal_processing.py:134-155 | ones exactly for rectangular, Hamming and Blackman coefficients exactly for those types, and Hann for Hann and for any unknown type |
| SignalProcessing.CorrectionFactor | refactored/signal_processing.py:158-175 | the correction factor lies in 1..2.8 |
| SignalProcessing.CorrectionFactors | refactored/signal_processing.py:169-175 | 2.0, 1.85, 2.8 and 1.0 for the four windows, and the default 2.0 for any other |
| SignalProcessing.UnknownWindowIsHann | refactored/signal_processing.py:153-175 | an unknown window type gets Hann's coefficients and correction |
| SignalProcessing.Prepared | refactored/signal_processing.py:263-272 | the prepared block has exactly fft_size samples |
| SignalProcessing.PreparedPointwise | refactored/signal_processing.py:263-272 | sample k is input sample k when there is one and zero otherwise |
| SignalProcessing.PreparedKeepsPrefix | refactored/signal_processing.py:263-272 | an input of exactly fft_size is unchanged; shorter input is a prefix; longer input is cut to its first fft_size samples |
| SignalProcessing.PrepareSamples | refactored/signal_processing.py:247-272 | the padding loop builds the prepared block |
| SignalProcessing.NewFFTProcessor | refactored/signal_processing.py:181-199 | succeeds iff the size lies in the FFT size range, with the chosen window; otherwise the validate_range error |
| SignalProcessing.FFTSizeIsARange | refactored/signal_processing.py:190-191 | 300 is accepted and 8192 refused: the check is a range, not a list of powers of two |
| SignalProcessing.FrequencyAxis | refactored/signal_processing.py:240 | the fftshifted frequency axis has fft_size bins |
| SignalProcessing.FrequencyAxisShape | refactored/signal_processing.py:240 | the centre bin is 0 Hz and the axis ascends for a positive rate |
| SignalProcessing.NewAnalysisResult | refactored/signal_processing.py:32-59 | the arrays are kept, no peaks or SNR yet; noise floor (the 10th percentile) and dynamic range are set iff the spectrum is non-empty |
| SignalProcessing.DynamicRangeSpan | refactored/signal_processing.py:59 | the dynamic range bounds every difference between two bins and is attained by one |
| SignalProcessing.SpectrumOf | refactored/signal_processing.py:225-237 | the dB spectrum has fft_size bins, each the transform's value for that bin |
| SignalProcessing.ProcessSamples | refactored/signal_processing.py:201-245 | fails iff the input is empty, the rate is zero or numpy raises, always as FFTProcessingError(len(samples), fft_size); otherwise the result over the prepared block |
| SignalProcessing.ProcessSamplesErrors | refactored/signal_processing.py:218-245 | an empty input fails with the sizes left out of the message, and no spectrum is returned |
| SignalProcessing.DefaultThreshold | refactored/signal_processing.py:75-76 | noise floor + 20, with a missing or zero noise floor counted as -80 |
| SignalProcessing.PeakInfos | refactored/signal_processing.py:87-94 | one peak per selected index, carrying its frequency, amplitude, prominence and index; None when an index is out of range |
| SignalProcessing.FindPeaks | refactored/signal_processing.py:61-104 | the result changes only in its peak list, which is either unchanged or the peaks returned |
| SignalProcessing.FindPeaksOrdered | refactored/signal_processing.py:61-104 | the peaks are exactly the selected ones, highest amplitude first, and are stored on the result; a failure gives [] and leaves the result unchanged |
| SignalProcessing.FindPeaksStable | refactored/signal_processing.py:97 | the sort is stable: peaks of equal amplitude come out in the order the selection found them |
| SignalProcessing.BlendBetween | refactored/signal_processing.py:319-321 | each averaged bin lies between the new and the previous value |
| SignalProcessing.Blend | refactored/signal_processing.py:319-321 | the blend has one bin per input bin; BlendBetween and BlendSteady state its values |
| SignalProcessing.Averaged | refactored/signal_processing.py:315-322 | the stored average has one bin per raw bin; AnalyzeSamples states when it is the raw spectrum and when the blend |
| SignalProcessing.Held | refactored/signal_processing.py:325-329 | the peak hold has one bin per spectrum bin; HeldNeverDecreases states its values |
| SignalProcessing.BlendSteady | refactored/signal_processing.py:319-321 | a steady input is a fixed point; alpha 1 tracks the input and alpha 0 freezes the average |
| SignalProcessing.HeldNeverDecreases | refactored/signal_processing.py:325-329 | peak hold is at least the spectrum given and at least what it held, and is their maximum |
| SignalProcessing.SpectrumAnalyzer.constructor | refactored/signal_processing.py:289-292 | the processor and factor are stored; no average and no peak hold |
| SignalProcessing.SpectrumAnalyzer.AnalyzeSamples | refactored/signal_processing.py:296-331 | a processing failure propagates with nothing changed; otherwise the stored average and peak hold follow the raw spectrum as in the source |
| SignalProcessing.SpectrumAnalyzer.GetPeakHoldSpectrum | refactored/signal_processing.py:333-335 | returns the held spectrum, or None |
| SignalProcessing.SpectrumAnalyzer.ResetAveraging | refactored/signal_processing.py:337-339 | clears the average and keeps the peak hold |
| SignalProcessing.SpectrumAnalyzer.ResetPeakHold | refactored/signal_processing.py:341-343 | clears the peak hold and keeps the average |
| SignalProcessing.NewSpectrumAnalyzer | refactored/signal_processing.py:278-294 | the processor's error comes first; then success iff the factor lies in 0..1 |
| SignalProcessing.ArgMin | refactored/signal_processing.py:372 | the first index of a smallest element |
| SignalProcessing.NearestBin | refactored/signal_processing.py:371-372 | the bin whose frequency is nearest the signal frequency |
| SignalProcessing.BandwidthBins | refactored/signal_processing.py:375 | at least one bin |
| SignalProcessing.SnrWindow | refactored/signal_processing.py:360-388 | a window that exists always lies inside the spectrum |
| SignalProcessing.SnrWindowAroundSignal | refactored/signal_processing.py:371-382 | when the axis is no longer than the spectrum, the window exists, holds the signal bin and extends half a bandwidth each side unless an edge clips it |
| SignalProcessing.SnrEstimate | refactored/signal_processing.py:358-408 | the estimate is None exactly when there is no window or the window covers the whole spectrum |
| SignalProcessing.NoiseRegion | refactored/signal_processing.py:393-396 | the masked spectrum is exactly the bins outside the window, in order |
| SignalProcessing.EstimateSnr | refactored/signal_processing.py:358-408 | the method, which masks out the window in a loop, returns the estimate: None without a window or without noise bins, otherwise the window maximum minus the mean of the bins outside it |
| Waterfall.WindowByName | waterfall_display.py:392-400 | Hann, Hamming or Blackman coefficients exactly for those names; any other name means no window (ones) |
| Waterfall.Averaged | waterfall_display.py:413-415 | the new spectrum when there is no previous one, else alpha·new + (1 - alpha)·previous bin by bin under numpy broadcasting, where a one-bin operand stands for every bin of the other; None (numpy's ValueError) exactly when the two lengths differ and neither is 1 |
| Waterfall.AveragedBetween | waterfall_display.py:413-415 | the first spectrum passes through; later bins lie between the new and the previous values |
| Waterfall.ZeroRows | waterfall_display.py:513 | depth rows of width bins, every cell zero |
| Waterfall.SizeChangedAsWritten | waterfall_display.py:507-515 | as written, a new size replaces the size and the history, whose rows take the new width, and keeps the previous spectrum; the same size changes nothing |
| Waterfall.Tick | waterfall_display.py:340-371 | one update of the display as values: a failed averaging step, caught by the handler, leaves the display as it was; otherwise the average becomes the previous spectrum, every row below the top moves down one and the top row takes the average (broadcast when it has one bin); when the average fits neither, the write of the top row raises after the shift, and the top row keeps its value; size and height stay |
| Waterfall.Ticks | waterfall_display.py:340-371 | any number of updates keep the size and the history's height |
| Waterfall.SizeChangeFreezesAsWritten | waterfall_display.py:342-371 | as written, once a size change keeps an old-width previous spectrum, and neither the old nor the new size is 1, every later averaging step fails and, since a failed tick keeps that spectrum, any number of later ticks leave the display as it was |
| Waterfall.SizeChangeFreezesExample | waterfall_display.py:342-371 | a 1024-bin display switched to 2048 bins stays frozen through two later spectra |
| Waterfall.SizeChangeFromOneBroadcasts | waterfall_display.py:413-417 | as written, a change away from a one-bin display does not freeze it: the one-bin previous spectrum broadcasts, and the first average has the new width, is alpha·new + (1 - alpha)·old bin, and becomes the top row |
| Waterfall.Normalize | waterfall_display.py:424-428 | the normalised intensity lies in [0, 1] |
| Waterfall.NormalizeEnds | waterfall_display.py:424-428 | intensity_min maps to 0, intensity_max to 1, and values outside the range to the nearer end |
| Waterfall.ScrollIn | waterfall_display.py:357-358 | the new row on top, every other row moved down one, and the oldest row dropped |
| Waterfall.ScrollAll | waterfall_display.py:357-358 | scrolling keeps the history's height |
| Waterfall.ScrollAllNewestFirst | waterfall_display.py:357-358 | after any number n of scrolls row i holds the (i + 1)-th latest row when i < n and the old row i - n otherwise: the history keeps the last rows, newest first, the oldest discarded first |
| Waterfall.SteppedFrequencyBounds | waterfall_display.py:237-245 | Up adds 100 MHz (10 MHz with Shift) capped at 6 GHz, Down subtracts it floored at 70 MHz; a value in range stays in range |
| Waterfall.SteppedFrequency | waterfall_display.py:237-245 | an in-range frequency stays in range; a step up never passes 6 GHz and a step down never falls below 70 MHz |
| Waterfall.SteppedSampleRate | waterfall_display.py:238-251 | an in-range rate stays in range; a step up never passes 61 MHz and a step down never falls below 1 MHz |
| Waterfall.SteppedSampleRateBounds | waterfall_display.py:238-251 | Right and Left step the rate by 10 MHz (1 MHz with Shift) within 1..61 MHz |
| Waterfall.WaterfallDisplay.constructor | waterfall_display.py:79-138 | not running, not paused, peak hold checked, a zeroed history and a peak hold at -120 |
| Waterfall.WaterfallDisplay.ApplyConfiguration | waterfall_display.py:261-296 | when the device accepts, a fresh zeroed history and a peak hold at -120; otherwise nothing changes |
| Waterfall.WaterfallDisplay.TogglePause | waterfall_display.py:325-330 | flips the pause flag, and only while running |
| Waterfall.WaterfallDisplay.StopAcquisition | waterfall_display.py:318-323 | not running; everything else unchanged |
| Waterfall.WaterfallDisplay.StartAcquisition | waterfall_display.py:305-316 | runs, unpaused, with a fresh zeroed history and a peak hold at -120, exactly when connected and the device accepts the configuration; otherwise the flags and arrays are kept; the peak-hold switch is kept |
| Waterfall.WaterfallDisplay.ClearDisplay | waterfall_display.py:332-338 | every history cell becomes intensity_min and every peak-hold cell -120 |
| Waterfall.WaterfallDisplay.Scroll | waterfall_display.py:357-358 | the history after one scroll with the new spectrum on top |
| Waterfall.WaterfallDisplay.CopyRow | waterfall_display.py:357 | row r takes row r - 1's values; every other row is untouched |
| Waterfall.WaterfallDisplay.ShiftRows | waterfall_display.py:357 | every row below the top takes the old value of the row above it, cell by cell and as whole rows; the top row is unchanged |
| Waterfall.WaterfallDisplay.WriteTopRow | waterfall_display.py:358 | the top row holds the spectrum and every other row is unchanged: the rows are the old rows with row 0 replaced |
| Waterfall.WaterfallDisplay.HoldPeaks | waterfall_display.py:361-362 | the peak hold becomes the elementwise maximum with the spectrum |
| Waterfall.WaterfallDisplay.ComputeSpectrum | waterfall_display.py:373-419 | the prepared, windowed spectrum averaged with the previous one, which it then replaces |
| Waterfall.WaterfallDisplay.UpdateDisplay | waterfall_display.py:340-371 | nothing happens unless running and unpaused; a lost connection stops acquisition; otherwise the history scrolls and the peak hold rises when checked |
| Waterfall.WaterfallDisplay.NormalizedImage | waterfall_display.py:421-428 | a fresh array of the history's shape holding each cell normalised; the history is untouched |
| Waterfall.WaterfallDisplay.DetectPeaks | waterfall_display.py:444-460 | exactly the strict local maxima above intensity_max - 20, in ascending order |
| Waterfall.WaterfallDisplay.SetCenterFrequency | waterfall_display.py:532-540 | stores the frequency; while running and when the device accepts, a fresh zeroed history and a peak hold at -120; otherwise the arrays are kept; the flags are kept |
| Waterfall.WaterfallDisplay.SetSampleRate | waterfall_display.py:542-550 | stores the rate; while running and when the device accepts, a fresh zeroed history and a peak hold at -120; otherwise the arrays are kept; the flags are kept |
| Waterfall.WaterfallDisplay.KeyPress | waterfall_display.py:231-259 | arrow keys step and clamp the frequency or rate and reset the arrays exactly when running and accepted; Space toggles pause; C fills the history with intensity_min and the peak hold with -120; M and other keys change no setting and no array |
| Waterfall.WaterfallDisplay.OnFftSizeChanged | waterfall_display.py:507-515 | corrected: a new size reallocates a zeroed history and a peak hold at -120 at that width and forgets the previous spectrum; the same size changes nothing; the flags are kept |
| PlutoUtils.ParseFrequencyBare | pluto_utils.py:1102-1108 | a single token without spaces, in any case, is read by float() as a value in Hz |
| PlutoUtils.ParseFrequency | pluto_utils.py:1090-1121 | with a reader that yields non-negative numbers the result is non-negative; ParseFrequencyBare and ParseFrequencyWithUnit state the value |
| PlutoUtils.ParseFrequencyWithUnit | pluto_utils.py:1102-1119 | "number gap unit" in any letter case is the number scaled by the upper-cased unit (GHZ/G, MHZ/M, KHZ/K, else unscaled); an unreadable number fails |
| PlutoUtils.UnitFor | pluto_utils.py:1081-1088 | the divisor is 1 exactly below 1 kHz, and otherwise the largest of 1e3, 1e6, 1e9 not above the frequency |
| PlutoUtils.FormatFrequency | pluto_utils.py:1071-1088 | at least four characters; FormatFrequencySuffix and FormatFrequencyMagnitude state which unit and the value shown |
| PlutoUtils.FormatFrequencySuffix | pluto_utils.py:1071-1088 | the text ends in " GHz", " MHz", " kHz" or " Hz" exactly when the frequency lies in that unit's range |
| PlutoUtils.FormatFrequencyMagnitude | pluto_utils.py:1081-1086 | from 1 kHz up to 1000 GHz the number shown, before rounding, lies in [1, 1000) |
| PlutoUtils.SliceIndex | pluto_utils.py:1182-1188 | Python's slice bound: at most the length, and an in-range bound is used as it is |
| PlutoUtils.PySlice | pluto_utils.py:1182-1188 | an in-range slice is the ordinary subsequence |
| PlutoUtils.NarrowWindowRaises | pluto_utils.py:1176-1182 | fewer than two signal bins leave the window empty, so np.max raises, whatever the spectrum |
| PlutoUtils.EstimateSnr | pluto_utils.py:1160-1193 | a zero sample rate or an empty spectrum raises; NarrowWindowRaises, CentredWindow and WideWindowWraps state the other cases |
| PlutoUtils.CentredWindow | pluto_utils.py:1176-1193 | with 2..n signal bins the window is a centred run of an even number of bins holding the centre bin; the SNR is its peak minus the mean of the bins outside it, NaN when nothing is outside |
| PlutoUtils.WideWindowWraps | pluto_utils.py:1177-1189 | a bandwidth above the sample rate gives a negative start that Python counts from the end, so the window is not centred |
| PlutoUtils.Wrap16 | pluto_utils.py:495-500 | the int16 two's-complement value: within the int16 range and unchanged for a value already in it |
| PlutoUtils.TriangleWave | pluto_utils.py:480-505 | the wave has 2 * (n // 2) samples, none for a non-positive count |
| PlutoUtils.TriangleWaveSymmetric | pluto_utils.py:494-503 | I equals Q in every sample and the wave reads the same backwards |
| PlutoUtils.TriangleWaveOddLength | pluto_utils.py:494-497 | an odd sample count loses its last sample |
| PlutoUtils.TriangleWaveRamp | pluto_utils.py:495-500 | for up to 4096 samples the first half is 0, 16, 32, … |
| PlutoUtils.TriangleWaveWraps | pluto_utils.py:495-500 | beyond 4096 samples the int16 shift wraps the ramp to -32768 |
| PlutoUtils.Interleave | pluto_utils.py:577-586 | a fresh buffer of 2N slots with I sample k in slot 2k and Q sample k in slot 2k + 1 |
| PlutoUtils.ScaledSample | pluto_utils.py:581-583 | scaling by 2^14 stays within int16 for every sample of magnitude below 2, and a result is always within int16 |
| PlutoUtils.TriangleSamplesOverflowScaling | pluto_utils.py:495-583 | every non-zero triangle sample scaled by 2^14 leaves the int16 range |
| PlutoUtils.ConfigurationManager.constructor | pluto_utils.py:963-971 | a manager starts with no profiles |
| PlutoUtils.ConfigurationManager.SaveCurrentConfig | pluto_utils.py:973-1011 | fails without a connected device or a readable configuration, changing nothing; otherwise stores the profile under the name, a new name going last and an existing one keeping its place |
| PlutoUtils.ConfigurationManager.LoadConfigProfile | pluto_utils.py:1013-1055 | succeeds exactly for a known name with a connected device that accepts the settings; the stored profile is written whenever the name is known and the device connected |
| PlutoUtils.ConfigurationManager.GetProfileList | pluto_utils.py:1057-1059 | every stored name once, in the order first saved |
| PlutoUtils.ConfigurationManager.DeleteProfile | pluto_utils.py:1061-1067 | True exactly for a stored name, which is then gone from the table and from the key order, the other names keeping their order |
| ConfigManager.Checks | refactored/config_manager.py:42-74 | seven range checks, in the order validate makes them |
| ConfigManager.Validate | refactored/config_manager.py:42-73 | every error it reports is an InvalidParameterError; ValidateAccepts and ValidateNamesFirstFailure state when and which |
| ConfigManager.CheckError | refactored/config_manager.py:48-51 | a failed check raises InvalidParameterError |
| ConfigManager.FirstFailureNone | refactored/config_manager.py:42-74 | no error exactly when every check passes |
| ConfigManager.FirstFailureIsFirst | refactored/config_manager.py:42-74 | the error raised is that of a failing check all of whose predecessors pass |
| ConfigManager.ValidateAccepts | refactored/config_manager.py:42-74 | a device configuration is accepted exactly when both local oscillators lie in 70 MHz–6 GHz, the sample rate and both bandwidths in 1–61 MS/s, the receive gain in 0..76 and the transmit gain in −89..0 |
| ConfigManager.ValidateNamesFirstFailure | refactored/config_manager.py:42-74 | a rejected configuration is reported by the first out-of-range field in check order |
| ConfigManager.ValidateReportsRxLoFirst | refactored/config_manager.py:45-51 | an out-of-range receive oscillator is reported before anything else, with the frequency range in the message |
| ConfigManager.DefaultDeviceIsValid | refactored/config_manager.py:32-40 | the default device configuration passes validation |
| ConfigManager.OrDefault | refactored/config_manager.py:139-148 | the given value, or the default when none is given |
| ConfigManager.NewProfile | refactored/config_manager.py:128-155 | every missing sub-configuration becomes its default and each empty timestamp becomes the current time; the name and description are kept |
| ConfigManager.DefaultProfileIsValid | refactored/config_manager.py:139-161 | a profile built without a device configuration validates |
| ConfigManager.ReplaceInvalid | refactored/config_manager.py:394-397 | the same length, each of the nine invalid characters replaced by '_' and every other character kept |
| ConfigManager.SanitizedName | refactored/config_manager.py:383-402 | at most 50 characters; SanitizedNameIsSafe states that no invalid character is left |
| ConfigManager.SanitizeFilename | refactored/config_manager.py:383-402 | the replace passes, strip and 50-character truncation give SanitizedName |
| ConfigManager.ReplaceInvalidIsSafe | refactored/config_manager.py:394-397 | no invalid character survives replacement |
| ConfigManager.StripIsSafe | refactored/config_manager.py:400 | stripping keeps a name free of invalid characters |
| ConfigManager.SanitizedNameIsSafe | refactored/config_manager.py:383-402 | a sanitised name has no invalid character and at most 50 characters |
| ConfigManager.SanitizeNotIdempotent | refactored/config_manager.py:400 | truncation can leave a trailing space that a second pass strips, so sanitising twice can differ from sanitising once |
| ConfigManager.Stem | refactored/config_manager.py:293-296 | a non-empty file name's stem is the name itself |
| ConfigManager.ConfigurationManager.constructor | refactored/config_manager.py:168-190 | the profiles directory starts empty |
| ConfigManager.ConfigurationManager.SaveProfile | refactored/config_manager.py:192-225 | an invalid profile, or a failing write, raises ConfigurationFileError and stores nothing; otherwise the profile with the new modification time is stored under its sanitised name |
| ConfigManager.ConfigurationManager.LoadProfile | refactored/config_manager.py:227-255 | the profile stored under the sanitised name, or None when there is none |
| ConfigManager.ConfigurationManager.DeleteProfile | refactored/config_manager.py:263-283 | True exactly when a file existed under the sanitised name, which is then gone; nothing else changes |
| ConfigManager.ConfigurationManager.ListProfiles | refactored/config_manager.py:289-304 | one stem per stored file, sorted; a name is listed exactly when it is the stem of a stored file |
| ConfigManager.SaveThenLoad | refactored/config_manager.py:192-255 | saving a valid profile through a ConfigurationManager and loading it back by its name gives the profile with the new modification time; every other file of the directory is as it was |
| ConfigManager.SanitizedNamesCollide | refactored/config_manager.py:383-402 | names that differ only in invalid characters share one file |
| DeviceManager.AutoInfo | refactored/device_manager.py:548 | the device information for a given URI, with connection type AUTO |
| DeviceManager.ToDict | refactored/device_manager.py:68-75 | one entry for each sensor that has a value, holding that value, and no other entry |
| DeviceManager.Message | refactored/device_manager.py:82-92 | each warning text starts with the sensor's label, "temperature", and its level |
| DeviceManager.CheckWarningMessages | refactored/device_manager.py:77-94 | one message per warning, in report order |
| DeviceManager.CheckWarnings | refactored/device_manager.py:77-94 | at most two warnings; CheckWarningsClassify states which |
| DeviceManager.SensorWarningClassifies | refactored/device_manager.py:81-85 | a sensor gives at most one warning, exactly when present and above its warning threshold, critical exactly above its critical one |
| DeviceManager.CheckWarningsClassify | refactored/device_manager.py:77-94 | at most two warnings, the AD9361 one first; each sensor is reported exactly when above its warning threshold and as critical exactly when above its critical threshold |
| DeviceManager.FirstCriticalIsFirst | refactored/device_manager.py:466-473 | no critical warning exactly when every warning is high; otherwise the one found is critical and every earlier one is high |
| DeviceManager.FirstCritical | refactored/device_manager.py:466-473 | a warning found is a critical one of the list |
| DeviceManager.FirstCriticalSensor | refactored/device_manager.py:466-473 | a critical warning exists exactly when some sensor exceeds its critical threshold, and a critical AD9361 is the one found |
| DeviceManager.OvertemperaturePrefersAd9361 | refactored/device_manager.py:466-473 | a critical AD9361 raises OvertemperatureError for the AD9361 with its 80 °C threshold, whatever the Zynq reads |
| DeviceManager.OvertemperatureCheck | refactored/device_manager.py:466-478 | any error raised is an OvertemperatureError |
| DeviceManager.OvertemperatureNeedsCritical | refactored/device_manager.py:466-478 | a reading with no sensor above its critical threshold raises nothing |
| DeviceManager.SettingValues | refactored/device_manager.py:361-368 | one optional value for each of the seven attributes |
| DeviceManager.PendingCovers | refactored/device_manager.py:384-414 | every given setting has its validation and write step |
| DeviceManager.PendingNames | refactored/device_manager.py:384-414 | every step writes one of the named attributes |
| DeviceManager.PendingDistinct | refactored/device_manager.py:384-414 | no two steps write the same attribute |
| DeviceManager.AttributeNamesDistinct | refactored/device_manager.py:384-414 | the seven hardware attributes are distinct |
| DeviceManager.WrittenAllPass | refactored/device_manager.py:384-417 | when every step validates and the device accepts every write, each attribute written holds the value of its last step |
| DeviceManager.Written | refactored/device_manager.py:384-422 | every attribute present before the writes is still present; the attributes are unchanged when the first step fails validation or its write is refused |
| DeviceManager.WrittenSkips | refactored/device_manager.py:384-414 | an attribute no step names keeps its value |
| DeviceManager.WrittenStopsAtFailure | refactored/device_manager.py:384-422 | nothing at or after the first step that fails validation or whose write raises is written |
| DeviceManager.ConfigureStoresAll | refactored/device_manager.py:384-417 | when every given setting validates and the device accepts every write, each is written to its attribute with the value given |
| DeviceManager.FieldOf | refactored/device_manager.py:352-357 | the elif chain on the lower-cased attribute name: firmware exactly when it contains 'fw_version', otherwise serial or hardware model by 'serial' and 'hw_model', and none exactly when it contains none of the three |
| DeviceManager.UpdatedInfo | refactored/device_manager.py:340-357 | applying the context attributes keeps the URI, connection type and IP address |
| DeviceManager.UpdatedInfoKeeps | refactored/device_manager.py:348-357 | a field no context attribute selects keeps its old value |
| DeviceManager.UpdatedInfoLastWins | refactored/device_manager.py:348-357 | a field holds the value of the last context attribute that selects it, so a later attribute overrides an earlier one |
| DeviceManager.PlutoSDRDevice.constructor | refactored/device_manager.py:253-266 | the device information kept, every handle cleared and not connected |
| DeviceManager.PlutoSDRDevice.ConnectBody | refactored/device_manager.py:272-320 | an already connected device returns True unchanged; missing pyadi-iio raises DeviceConnectionError; a failing probe raises it with the probe's text and clears every handle; in all three the device info stays; otherwise the handles are set, the device is connected and its info is updated from the context attributes |
| DeviceManager.PlutoSDRDevice.Connect | refactored/device_manager.py:272-320 | succeeds, and the device is then connected, exactly when it already was or pyadi-iio is present and the probe succeeds; a fresh connection updates the device info from the context attributes, anything else keeps it; every failure is a DeviceError |
| DeviceManager.PlutoSDRDevice.UpdateDeviceInfo | refactored/device_manager.py:340-359 | while connected, the info becomes UpdatedInfo of the context attributes in order; while not connected nothing changes; the handles, flag and attributes are kept |
| DeviceManager.PlutoSDRDevice.Disconnect | refactored/device_manager.py:322-338 | a connected device has every handle cleared; an unconnected one is left as it was; afterwards it is not connected |
| DeviceManager.PlutoSDRDevice.ConfigureBasicSettings | refactored/device_manager.py:361-422 | raises DeviceNotConnectedError when not connected; otherwise True exactly when every given setting validates and the device accepts every write, with the settings written in order up to the first that fails validation or whose write raises |
| DeviceManager.PlutoSDRDevice.GetTemperatures | refactored/device_manager.py:424-484 | raises when not connected; otherwise records the reading and either raises the OvertemperatureError of the first critical warning or returns the reading |
| DeviceManager.PlutoSDRDevice.SetLoopbackMode | refactored/device_manager.py:486-516 | raises when not connected; otherwise True exactly when the loopback attribute exists |
| DeviceManager.Discovered | refactored/device_manager.py:586-592 | a device is collected exactly when some discovery method that returned found it |
| DeviceManager.CollectDiscovered | refactored/device_manager.py:584-592 | the first loop of discover_devices collects the devices of every method that did not raise |
| DeviceManager.UniqueByUri | refactored/device_manager.py:594-600 | the second loop keeps the first device of each URI, in input order |
| DeviceManager.Dedup | refactored/device_manager.py:594-600 | never more devices than were discovered; DedupUnique, DedupCovers, DedupKeepsFirst and DedupKeepsOrder state which |
| DeviceManager.DedupUnique | refactored/device_manager.py:594-600 | no two kept devices share a URI |
| DeviceManager.DedupFromInput | refactored/device_manager.py:594-600 | every kept device was discovered |
| DeviceManager.DedupKeepsFirst | refactored/device_manager.py:594-600 | the first device of each URI is the one kept |
| DeviceManager.DedupCovers | refactored/device_manager.py:594-600 | every discovered URI has a kept device |
| DeviceManager.DedupKeepsOrder | refactored/device_manager.py:594-600 | the kept devices appear in discovery order |
| DeviceManager.DiscoverDevices | refactored/device_manager.py:574-601 | the unique devices: distinct URIs, every discovered URI present, each one a discovered device |
| DeviceManager.PlutoSDRManager.Uri | refactored/device_manager.py:559-563 | the URI of the current device, or None without one |
| DeviceManager.PlutoSDRManager.constructor | refactored/device_manager.py:526-553 | a given URI is connected to directly and a failed attempt leaves no device; without one, auto-discovery (when enabled) keeps the first device that connects; any device kept is connected, with its info updated from its context attributes |
| DeviceManager.PlutoSDRManager.AutoConnect | refactored/device_manager.py:603-622 | with nothing discovered nothing changes; otherwise a device is kept exactly when one of them connects, and it is the first that does, with its info updated from its context attributes |
| DeviceManager.PlutoSDRManager.Connect | refactored/device_manager.py:624-645 | the old device is disconnected; True exactly when the new URI connects, with a fresh connected device whose info is updated from the context attributes, else no device |
| DeviceManager.PlutoSDRManager.Disconnect | refactored/device_manager.py:647-651 | the current device, if any, is disconnected and dropped |
| DeviceManager.PlutoSDRManager.ConfigureBasicSettings | refactored/device_manager.py:653-666 | raises DeviceNotConnectedError when not connected and changes nothing; otherwise the device's own result and writes, with the same refused writes |
| DeviceManager.PlutoSDRManager.GetTemperatures | refactored/device_manager.py:668-679 | raises when not connected; otherwise the overtemperature error or the reading as a dictionary |
| DeviceManager.PlutoSDRManager.SetLoopbackMode | refactored/device_manager.py:681-694 | raises when not connected; otherwise whether the loopback attribute exists |
| SpectrumSweep.Clip | spectrum_analyzer.py:294-296 | the drawn region keeps the band's name and lies within both the band and the sweep range, each end being the band's or the range's |
| SpectrumSweep.OverlappingExact | spectrum_analyzer.py:288-292 | a band is drawn exactly when it meets the closed sweep range |
| SpectrumSweep.VisibleIsClipped | spectrum_analyzer.py:272-316 | the drawn regions are the overlapping bands in order, each clipped to the range, with label slots numbered on consecutively |
| SpectrumSweep.DrawBands | spectrum_analyzer.py:284-316 | the loop of add_known_bands, with its label counter, draws exactly those regions |
| SpectrumSweep.AlertThreshold | spectrum_analyzer.py:518-521 | the parsed threshold, or −20 when the text does not parse |
| SpectrumSweep.InSomeBand | spectrum_analyzer.py:524-526 | true exactly when some known band contains the frequency, both ends included |
| SpectrumSweep.AlertsOutsideBandsOnly | spectrum_analyzer.py:518-540 | nothing inside a known band alerts, however loud; outside them exactly the points above the threshold alert |
| SpectrumSweep.Round5 | spectrum_analyzer.py:503 | the key lies within half of 1e-5 of the frequency |
| SpectrumSweep.HoldOfKeys | spectrum_analyzer.py:502-507 | the peak hold has a key exactly for each rounded frequency measured |
| SpectrumSweep.HoldOfBounds | spectrum_analyzer.py:502-507 | the value held at a point's rounded frequency is at least that point's amplitude |
| SpectrumSweep.HoldOfAttained | spectrum_analyzer.py:502-507 | every held value is the amplitude of some point at that key |
| SpectrumSweep.HoldNeverDrops | spectrum_analyzer.py:502-507 | one more point never lowers nor removes a held value |
| SpectrumSweep.NextPhase | spectrum_analyzer.py:476-586 | a sweeping tick advances the index; the tick after the last frequency completes the sweep and restarts the pause count; an idle tick counts, and the 50th restarts the sweep |
| SpectrumSweep.RunSweeping | spectrum_analyzer.py:476-545 | during a sweep each tick takes exactly one more frequency |
| SpectrumSweep.RunPausing | spectrum_analyzer.py:571-574 | between sweeps each tick counts one more idle tick |
| SpectrumSweep.SweepCycle | spectrum_analyzer.py:476-586 | from a fresh sweep over n frequencies, n ticks take the points, one completes the sweep, and n + 1 + 50 ticks bring a fresh sweep again |
| SpectrumSweep.Linspace | spectrum_analyzer.py:117 | num points, from start to stop inclusive |
| SpectrumSweep.PeakMarkers | spectrum_analyzer.py:557-570 | one marker per detected peak, at that point's frequency and amplitude, in detector order |
| SpectrumSweep.MainWindow.constructor | spectrum_analyzer.py:86-254 | the defaults of 1 MHz rate and bandwidth, 400 kHz cutoff, 2000 steps over 0.1–6 GHz, empty lists and peak hold, and the known bands drawn for that range |
| SpectrumSweep.MainWindow.AddKnownBands | spectrum_analyzer.py:272-316 | the regions are the known bands meeting the sweep range in GHz, clipped to it |
| SpectrumSweep.MainWindow.UpdatePlot | spectrum_analyzer.py:472-586 | a paused tick changes nothing; otherwise the phase advances as NextPhase says; a sweeping tick appends the point, updates the peak hold and alerts by the rule; the finishing tick marks the detected peaks; the 50th idle tick clears the lists and markers; the sweep invariant is kept |
| SpectrumSweep.MainWindow.TakePoint | spectrum_analyzer.py:477-545 | the point at the current frequency is appended, its peak hold updated, an alert marker added exactly when the rule says so, and the index advanced |
| SpectrumSweep.MainWindow.TogglePause | spectrum_analyzer.py:379-381 | the pause flag is inverted |
| SpectrumSweep.MainWindow.ClearAllMarkers | spectrum_analyzer.py:383-389 | no marker remains |
| SpectrumSweep.MainWindow.ResetPeakHold | spectrum_analyzer.py:399-402 | the peak hold is empty and the invariant kept |
| SpectrumSweep.MainWindow.ApplySdrSettings | spectrum_analyzer.py:404-466 | fields are set in order until one fails to parse or the radio refuses the rate and bandwidth writes, leaving the earlier ones set; only full success restarts the sweep over the new frequencies, with lists, peak hold and markers cleared and the bands redrawn |
| SpectrumSweep.MainWindow.ReadSettings | spectrum_analyzer.py:412-433 | each field set in turn until one fails; a refused radio write leaves every field as it was; success exactly when every field parses, the radio accepts the writes, the filter is designed and the step count is non-negative |
| SpectrumSweep.MainWindow.RestartSweep | spectrum_analyzer.py:433-459 | the new frequencies with an empty sweep at index 0 and the bands redrawn |
| Performance.Get | refactored/__init__.py:209 | the counter's value, or 0 for a name without one |
| Performance.Applied | refactored/__init__.py:207-209 | every counter that existed and every counter incremented exists afterwards |
| Performance.AppliedCounts | refactored/__init__.py:207-209 | after a series of increments a counter equals its start (0 when absent) plus every value added to it, and it exists exactly when it existed or was incremented |
| Performance.PerformanceMonitor.constructor | refactored/__init__.py:189-191 | no timers and no counters |
| Performance.PerformanceMonitor.StartTimer | refactored/__init__.py:193-196 | the timer holds the new start time; a new name goes last in the key order and a restarted one keeps its place |
| Performance.PerformanceMonitor.StopTimer | refactored/__init__.py:198-205 | for a running timer the time elapsed since its start, and the timer is removed with the others keeping their order; for any other name None and nothing changes |
| Performance.PerformanceMonitor.IncrementCounter | refactored/__init__.py:207-209 | the named counter grows by the value, starting from 0, and every other counter is unchanged |
| Performance.PerformanceMonitor.GetStats | refactored/__init__.py:211-216 | the running timers once each, in insertion order, and the counters as they stand |
| Performance.PerformanceMonitor.Reset | refactored/__init__.py:218-221 | no timers and no counters remain |
| LogBrowser.GetLogTypeIsFirstMatch | log_browser.py:44-58 | the type of the first keyword the path contains, in rule order, and OTHER exactly when it contains none |
| LogBrowser.GetLogType | log_browser.py:44-58 | each type other than OTHER is given only to a path holding its keyword |
| LogBrowser.FormatSizeScale | log_browser.py:60-67 | below 1 KiB the whole number of bytes; otherwise the value shown lies in [1, 1024) KB below 1 MiB, and is at least 1 in MB |
| LogBrowser.FormatSize | log_browser.py:60-67 | the text ends in " B", "KB" or "MB" |
| LogBrowser.FormatSizeOneKilobyte | log_browser.py:60-65 | 1024 bytes are shown as "1.0 KB" |
| LogBrowser.EntryOf | log_browser.py:32-38 | a listed file keeps its path and is typed by it |
| LogBrowser.FilesOfMembers | log_browser.py:29-38 | an entry is listed exactly when it comes from a regular file inside a sub-directory |
| LogBrowser.FilesIn | log_browser.py:31-38 | the inner loop collects the regular files of one sub-directory in listing order |
| LogBrowser.LogBrowser.constructor | log_browser.py:15-19 | the browser starts with the scanned list |
| LogBrowser.LogBrowser.ScanLogs | log_browser.py:21-42 | no directory gives an empty list; otherwise the regular files of every sub-directory, sorted newest first: a permutation of what was found (ScanOrderStable keeps ties in listing order) |
| LogBrowser.ScanOrderStable | log_browser.py:42 | logs modified at the same time keep the order the directory listing gave them |
| LogBrowser.LogBrowser.Selected | log_browser.py:89-96 | the log with the given 1-based number, or nothing for a number out of range |
| LogBrowser.LogBrowser.ViewLogSummary | log_browser.py:89-117 | nothing for a number out of range; otherwise the entry, with a session summary exactly for a session log |
| LogBrowser.LogBrowser.ViewLogContent | log_browser.py:261-279 | nothing for a number out of range; otherwise the first `lines` lines of the file without trailing whitespace, and the truncation notice exactly when the file has more |
| LogBrowser.Kind | log_browser.py:250-255 | a stripped line is a key/value line exactly when it has a colon and does not start with '[', an event exactly when it starts with '[', and ignored otherwise |
| LogBrowser.SplitColon | log_browser.py:252 | the text before the first colon and everything after it, which joined by the colon give the line back |
| LogBrowser.GatheredEvents | log_browser.py:248-255 | the events are the stripped lines starting with '[', in file order |
| LogBrowser.AddLineInfo | log_browser.py:250-253 | one line adds at most its own key to the session info |
| LogBrowser.GatheredInfo | log_browser.py:248-253 | the session info has a key exactly when some line names it, and the key order lists exactly those keys |
| LogBrowser.LastValueWins | log_browser.py:250-253 | a key's value is that of the last line naming it |
| LogBrowser.SummarizeSessionLog | log_browser.py:234-262 | the loop gives the line count, the events in file order and one info entry per key named by some line |
| Leads.StatusesEnumerated | src/adaml_pluto/lead_management/lead.py:9-18 | the seven statuses are listed once each, and distinct statuses have distinct string values |
| Leads.Defaults | src/adaml_pluto/lead_management/lead.py:43-55 | a lead given only names and e-mail is NEW with score 0, empty notes, no optional field and both time stamps now; it is admissible exactly when both names are non-empty |
| Leads.WithNoteGrows | src/adaml_pluto/lead_management/lead.py:73-86 | the earlier notes stay as a prefix and the text ends with "[stamp] note", after a newline when there were notes and alone when there were none |
| Leads.WithNote | src/adaml_pluto/lead_management/lead.py:80-85 | the old notes stay a prefix of the longer text |
| Leads.FullNameSplits | src/adaml_pluto/lead_management/lead.py:103-110 | a first name without spaces is recovered before the first space of the full name and the last name after it |
| Leads.FullName | src/adaml_pluto/lead_management/lead.py:103-110 | the first name, one space, and the last name |
| Leads.Lead.constructor | src/adaml_pluto/lead_management/lead.py:21-55 | a lead built from data its field declarations accept holds exactly that data |
| Leads.Lead.UpdateStatus | src/adaml_pluto/lead_management/lead.py:63-71 | the new status and the current time, every other field unchanged |
| Leads.Lead.AddNote | src/adaml_pluto/lead_management/lead.py:73-86 | the notes gain the time-stamped entry and the lead is stamped; nothing else changes |
| Leads.Lead.UpdateScore | src/adaml_pluto/lead_management/lead.py:88-101 | a score in 0..100 is set and stamped; any other raises ValueError with its message and changes nothing |
| Leads.Lead.GetFullName | src/adaml_pluto/lead_management/lead.py:103-110 | the lead's first name, one space, and its last name |
| LeadManagement.Known | src/adaml_pluto/lead_management/lead_manager.py:80-83 | the updates naming an attribute of the lead, each one of them |
| LeadManagement.ApplyIgnoresUnknown | src/adaml_pluto/lead_management/lead_manager.py:80-83 | keys the lead does not have are ignored: applying all the updates equals applying the known ones |
| LeadManagement.ApplyScore | src/adaml_pluto/lead_management/lead_manager.py:80-83 | the last score given wins and is not range-checked, so update_lead can store a score of 150 that the constructor would refuse |
| LeadManagement.SetAttribute | src/adaml_pluto/lead_management/lead_manager.py:82-83 | setattr changes just the named field of the lead, and nothing for an unknown key |
| LeadManagement.SetContactAttribute | src/adaml_pluto/lead_management/lead_manager.py:82-83 | for the id and the contact fields, the lead becomes the update applied to what it was |
| LeadManagement.SetTrackingAttribute | src/adaml_pluto/lead_management/lead_manager.py:82-83 | for status, source, score, notes and the timestamps, the lead becomes the update applied to what it was |
| LeadManagement.Filter | src/adaml_pluto/lead_management/lead_manager.py:127-140 | a filter keeps only input leads, never more than were given |
| LeadManagement.FilterMembers | src/adaml_pluto/lead_management/lead_manager.py:127-140 | a lead is kept exactly when it is an input lead meeting the condition |
| LeadManagement.FilterAllMembers | src/adaml_pluto/lead_management/lead_manager.py:125-142 | a lead survives the chain of filters exactly when it is an input lead meeting every condition |
| LeadManagement.StatusCounts | src/adaml_pluto/lead_management/lead_manager.py:199-202 | one count per status, in enum order, each the number of leads with that status |
| LeadManagement.StatusCountsSum | src/adaml_pluto/lead_management/lead_manager.py:196-202 | the status counts add up to the number of leads |
| LeadManagement.AverageScore | src/adaml_pluto/lead_management/lead_manager.py:204-211 | 0 with no leads; otherwise within 0.005 of the mean score |
| LeadManagement.AverageScoreBounds | src/adaml_pluto/lead_management/lead_manager.py:204-211 | when every score lies in 0..100 so does the rounded average |
| LeadManagement.LeadManager.Values | src/adaml_pluto/lead_management/lead_manager.py:125 | the stored leads in insertion order, each stored lead exactly once |
| LeadManagement.LeadManager.Records | src/adaml_pluto/lead_management/lead_manager.py:196-206 | the stored leads' fields in insertion order |
| LeadManagement.LeadManager.constructor | src/adaml_pluto/lead_management/lead_manager.py:20-30 | a manager without a storage file starts empty |
| LeadManagement.LeadManager.CreateLead | src/adaml_pluto/lead_management/lead_manager.py:32-52 | the given id, or a fresh one when it is missing or empty; the validation error leaves the table unchanged; otherwise a fresh lead holding the data is stored under that id, a new id going last |
| LeadManagement.LeadManager.GetLead | src/adaml_pluto/lead_management/lead_manager.py:54-64 | the lead stored under the id, or None exactly when there is none |
| LeadManagement.LeadManager.UpdateLead | src/adaml_pluto/lead_management/lead_manager.py:66-91 | None exactly for an unknown id; otherwise the stored lead with the updates applied in order and stamped with the current time |
| LeadManagement.LeadManager.DeleteLead | src/adaml_pluto/lead_management/lead_manager.py:93-108 | True exactly for a stored id, which is then gone with the others keeping their order; otherwise nothing changes |
| LeadManagement.LeadManager.ListLeads | src/adaml_pluto/lead_management/lead_manager.py:110-142 | exactly the stored leads that meet every filter given: status, minimum score, and a non-empty company contained case-insensitively |
| LeadManagement.FilterAll | src/adaml_pluto/lead_management/lead_manager.py:127-140 | applying the filters one after another keeps only leads of the input |
| LeadManagement.FilterAllMembersAll | src/adaml_pluto/lead_management/lead_manager.py:127-140 | a lead survives the successive filters exactly when it is in the input and meets every criterion |
| LeadManagement.LeadManager.SearchLeads | src/adaml_pluto/lead_management/lead_manager.py:144-166 | exactly the stored leads, in insertion order, whose first name, last name, e-mail or company contains the lowercased query |
| LeadManagement.LeadManager.GetStats | src/adaml_pluto/lead_management/lead_manager.py:189-212 | the total is the number of leads and the status counts add up to it; the average is 0 with no leads |
| EmailTemplates.Placeholder | src/adaml_pluto/email_tools/template_manager.py:40 | the key wrapped in braces |
| EmailTemplates.Render | src/adaml_pluto/email_tools/template_manager.py:26-47 | the subject and the body, each with the placeholders of the variables replaced one variable after another in dictionary order |
| EmailTemplates.RenderWithoutPlaceholders | src/adaml_pluto/email_tools/template_manager.py:39-42 | a text holding none of the variables' placeholders is rendered verbatim |
| EmailTemplates.RenderOnePlaceholder | src/adaml_pluto/email_tools/template_manager.py:39-42 | a placeholder between brace-free text is replaced by the variable's value |
| EmailTemplates.ToDict | src/adaml_pluto/email_tools/template_manager.py:49-56 | the four keys name, subject, body and description |
| EmailTemplates.FromDict | src/adaml_pluto/email_tools/template_manager.py:58-66 | succeeds exactly when name, subject and body are present and takes them; a missing description is "" |
| EmailTemplates.DictRoundTrip | src/adaml_pluto/email_tools/template_manager.py:49-66 | reading back a template's dictionary gives the template |
| EmailTemplates.DictRoundTripBack | src/adaml_pluto/email_tools/template_manager.py:49-66 | a dictionary with exactly the four keys is the dictionary of the template read from it |
| EmailTemplates.Names | src/adaml_pluto/email_tools/template_manager.py:137-138 | the templates' names, in order |
| EmailTemplates.DefaultNamesDistinct | src/adaml_pluto/email_tools/template_manager.py:93-135 | the three default templates have the distinct names initial_outreach, follow_up and value_proposition |
| EmailTemplates.EmailTemplateManager.constructor | src/adaml_pluto/email_tools/template_manager.py:77-89 | a manager without a storage file holds exactly the three default templates, in order, each under its name |
| EmailTemplates.EmailTemplateManager.AddAll | src/adaml_pluto/email_tools/template_manager.py:137-138 | the loop stores each template under its name, in order |
| EmailTemplates.EmailTemplateManager.AddNext | src/adaml_pluto/email_tools/template_manager.py:137-138 | one iteration of the loop: with the first k templates stored under their names, the (k + 1)-th joins them |
| EmailTemplates.EmailTemplateManager.AddTemplate | src/adaml_pluto/email_tools/template_manager.py:140-149 | the template is stored under its name, replacing any with that name; a new name goes last |
| EmailTemplates.EmailTemplateManager.GetTemplate | src/adaml_pluto/email_tools/template_manager.py:151-161 | the stored template with that name, or None exactly when there is none |
| EmailTemplates.EmailTemplateManager.ListTemplates | src/adaml_pluto/email_tools/template_manager.py:163-170 | every stored name once |
| EmailTemplates.EmailTemplateManager.DeleteTemplate | src/adaml_pluto/email_tools/template_manager.py:172-187 | True exactly for a stored name, which is then gone with the others keeping their order; otherwise nothing changes |
| EmailTemplates.EmailTemplateManager.RenderTemplate | src/adaml_pluto/email_tools/template_manager.py:189-203 | None exactly for an unknown name; otherwise the stored template's subject and body rendered with the variables |
| OutreachTracking.StatusOf | src/adaml_pluto/email_tools/outreach_tracker.py:11-20 | the status whose value is the text, or None exactly when no status has that value |
| OutreachTracking.StatusesEnumerated | src/adaml_pluto/email_tools/outreach_tracker.py:11-20 | the seven statuses are listed once each, and each status's value converts back to it |
| OutreachTracking.StatusChanged | src/adaml_pluto/email_tools/outreach_tracker.py:57-70 | the new status is set and one history entry with its value, the time stamp and the note is appended; nothing else changes |
| OutreachTracking.NewState | src/adaml_pluto/email_tools/outreach_tracker.py:137-141 | a record created with a lead, a template and a subject is PENDING, unsent, without notes or history |
| OutreachTracking.Encode | src/adaml_pluto/email_tools/outreach_tracker.py:72-83 | the eight keys of the stored dictionary |
| OutreachTracking.Decode | src/adaml_pluto/email_tools/outreach_tracker.py:85-98 | reading a dictionary succeeds exactly when every present field has a usable value; absent fields take their defaults |
| OutreachTracking.DictRoundTrip | src/adaml_pluto/email_tools/outreach_tracker.py:72-98 | reading back a stored record with a non-empty id reproduces every field, whatever fresh id is at hand |
| OutreachTracking.DictRoundTripBack | src/adaml_pluto/email_tools/outreach_tracker.py:72-98 | a complete dictionary with a non-empty id and usable values is the stored form of the record read from it |
| OutreachTracking.DecodeEmpty | src/adaml_pluto/email_tools/outreach_tracker.py:85-98 | an empty dictionary reads as a new PENDING record under the fresh id |
| OutreachTracking.OutreachRecord.constructor | src/adaml_pluto/email_tools/outreach_tracker.py:26-55 | the given fields, the fresh id when none or an empty one is given, and an empty history |
| OutreachTracking.OutreachRecord.UpdateStatus | src/adaml_pluto/email_tools/outreach_tracker.py:57-70 | the record's new state is the status change of its old state |
| OutreachTracking.OutreachRecord.ToDict | src/adaml_pluto/email_tools/outreach_tracker.py:72-83 | the stored form of a storable record, from which every field is read back |
| OutreachTracking.OutreachRecord.FromDict | src/adaml_pluto/email_tools/outreach_tracker.py:85-98 | a new record holding what the dictionary reads as, or the error reading it raises |
| OutreachTracking.StatusCounts | src/adaml_pluto/email_tools/outreach_tracker.py:228-231 | the number of records of each status, in the enum's order |
| OutreachTracking.StatusCountsSum | src/adaml_pluto/email_tools/outreach_tracker.py:225-231 | the counts of the statuses add up to the number of records |
| OutreachTracking.Rate | src/adaml_pluto/email_tools/outreach_tracker.py:237-238 | 0 when nothing is in SENT, otherwise within 0.005 of the percentage |
| OutreachTracking.StatsOf | src/adaml_pluto/email_tools/outreach_tracker.py:218-245 | the total, the count of each status summing to it, and the response and open rates over the records in SENT |
| OutreachTracking.StatsAfterReplyAndOpen | src/adaml_pluto/email_tools/outreach_tracker.py:233-245 | three records of which one replied, one opened and one still in SENT give rates of 100 |
| OutreachTracking.ResponseRateAboveHundred | src/adaml_pluto/email_tools/outreach_tracker.py:237 | one record in SENT and two replied give a response rate of 200 |
| OutreachTracking.RatesZeroWhenNoneInSent | src/adaml_pluto/email_tools/outreach_tracker.py:237-238 | with no record in SENT both rates are 0 |
| OutreachTracking.ForLead | src/adaml_pluto/email_tools/outreach_tracker.py:213-216 | exactly the records of the list that belong to the lead |
| OutreachTracking.OutreachTracker.Values | src/adaml_pluto/email_tools/outreach_tracker.py:214 | the stored records in table order, each record once per id |
| OutreachTracking.OutreachTracker.Records | src/adaml_pluto/email_tools/outreach_tracker.py:230 | the stored records' states in table order |
| OutreachTracking.OutreachTracker.constructor | src/adaml_pluto/email_tools/outreach_tracker.py:108-118 | a tracker without a storage file holds no records |
| OutreachTracking.OutreachTracker.CreateOutreach | src/adaml_pluto/email_tools/outreach_tracker.py:120-147 | a fresh PENDING record is stored under its fresh id and returned; a new id goes last |
| OutreachTracking.OutreachTracker.MarkSent | src/adaml_pluto/email_tools/outreach_tracker.py:149-165 | None exactly for an unknown id; otherwise the stored record gets its sending time and enters SENT with a history entry |
| OutreachTracking.OutreachTracker.UpdateStatus | src/adaml_pluto/email_tools/outreach_tracker.py:167-189 | None exactly for an unknown id; otherwise the stored record's status changes with a history entry |
| OutreachTracking.OutreachTracker.GetOutreach | src/adaml_pluto/email_tools/outreach_tracker.py:191-201 | the record stored under the id, which carries that id, or None exactly when there is none |
| OutreachTracking.OutreachTracker.GetLeadOutreach | src/adaml_pluto/email_tools/outreach_tracker.py:203-216 | exactly the stored records of the lead |
| OutreachTracking.OutreachTracker.GetStats | src/adaml_pluto/email_tools/outreach_tracker.py:218-245 | the statistics of the stored records; the total and the counts' sum are the number of records |
| Tally.Round2Bounds | src/adaml_pluto/lead_management/lead_manager.py:211 | rounding to two places moves a value by at most 0.005 and keeps a percentage within 0..100 |
| Tally.Round2Whole | src/adaml_pluto/email_tools/outreach_tracker.py:243-244 | a whole number is unchanged by rounding to two places |
| Tally.CountsSum | src/adaml_pluto/lead_management/lead_manager.py:196-202 | when the statuses are listed once each, their counts add up to the number of records |
| Tally.CountAbsent | src/adaml_pluto/email_tools/outreach_tracker.py:228-231 | a status no record has is counted zero times |

## Left out

- Floating-point arithmetic: every float is an exact real, so rounding error, NaN and infinities are not modelled.
- Values.FloatStr: the digits are those of the exact real, up to 17 decimals, where Python prints the shortest text that reads back as the same double; the choice between positional and exponent form and the shape of the exponent are as Python's.
- The FFT, the window generators (`np.hanning` and the others), `log10`, the dB conversion and `np.percentile` are function parameters; `calculate_fft_spectrum`, `generate_chirp` and the calibration measurements are not part of this model.
- scipy's `find_peaks` is a parameter (refactored/signal_processing.py:79-84 and spectrum_analyzer.py:557-570); only the thresholding and ordering around it are modelled.
- `firwin` and `lfilter` are foreign numerical filters and are not part of this model.
- Device I/O is a parameter: the iio_info, avahi-resolve and ping subprocesses, the iio/adi attribute reads and writes, whether the radio accepts each hardware write of `configure_basic_settings` and `apply_sdr_settings` (a refused write is one that raises), the attributes of the IIO context read by `_update_device_info`, DDS setup, TX buffer pushes and the temperature reads.
- Concurrency and timing are not modelled: `DeviceMonitorThread`, `retry_on_failure`, `timeout_after`, `PerformanceTimer`, the sleep in `RateLimiter.wait_if_needed` and the Qt timers.
- Clocks and UUIDs are parameters: each call receives the time or the id it would read.
- `datetime.fromisoformat` is treated as always succeeding on non-empty text; timestamps are kept as their ISO text.
- GUI widgets, plots, menus and terminal dashboards are not modelled; only the state the handlers update is modelled.
- File persistence is not modelled: the JSON save, load, export and import of the lead, template, outreach and configuration stores, `get_profile_info`, the preferences file, `ensure_directory` and reading log files. The model keeps only the in-memory tables; the configuration profiles directory is a map from file stem to profile.
- pydantic's `EmailStr` validation, `model_dump` and `custom_fields` are foreign and not modelled; an e-mail address is any string.
- The log browser's summaries of spectrum, signal, waterfall and device logs, `show_log_list`, `format_time` and `interactive_browser` are terminal rendering over file contents and are not modelled; the session-log line classification is.
- `moving_average`, the dB and linear conversions and `get_timestamp_string` in refactored/utils.py are numpy or clock wrappers and are not modelled.
- `refactored/constants.py` holds constants only; the thresholds the model needs are written into the modules that use them.
- SpectrumSweep.Round5: rounds ties upward on exact reals; Python's `round` works on the binary double and rounds ties to even.
- SpectrumSweep.MainWindow.ApplySdrSettings: of the errors `np.linspace` can raise, only the one for a negative count is modelled.
- LeadManagement.LeadManager.UpdateLead: does not model a key that names a method of the lead, for which pydantic's attribute assignment raises.
- ConfigManager.ConfigurationManager.SaveProfile: the model is value-based, so it does not show that the caller's profile object is updated in place even when the write fails.
- OutreachTracking.Decode: refuses a stored value of the wrong kind for a text field, and a `status_history` that is null or text rather than a list, where Python would store either unchecked (outreach_tracker.py:97); the record's history is always a list of entries in the model, so such a record, on which a later update_status would fail to append, is not represented.
- OutreachTracking.OutreachRecord.FromDict: fails with "status_history" on a null or text history, as Decode does, where Python builds the record and keeps that value.
- Text.Lower: maps only the ASCII letters A-Z; Python's `str.lower` also maps other letters, such as "Ü" to "ü".
- Text.Upper: maps only the ASCII letters a-z; Python's `str.upper` also maps other letters, and expands some, such as "ß" to "SS".
- Utils.ParseFrequency: accepts ASCII digits only, while the pattern's `\d` and `float()` accept any Unicode decimal digit (as in "٣ MHz"), and it upper-cases ASCII letters only.
- PlutoUtils.ParseFrequency: upper-cases ASCII letters only, as Text.Upper does.
- LeadManagement.LeadManager.ListLeads: the company filter folds case for ASCII letters only, so "MÜLLER" does not match "müller" here while it does in Python.
- LeadManagement.LeadManager.SearchLeads: folds case for ASCII letters only, as ListLeads does.
- Exceptions.HandleDeviceError: lower-cases the error text for ASCII letters only before looking for "not found", "connection" and "timeout"; the keywords are ASCII, so this differs from Python only where a non-ASCII letter lower-cases to an ASCII one (such as the Kelvin sign "K", U+212A).
- DeviceManager.FieldOf: lower-cases the attribute name for ASCII letters only; the keywords 'fw_version', 'serial' and 'hw_model' are ASCII, so this differs from Python only for the same rare non-ASCII letters.
- DeviceManager.PlutoSDRDevice.UpdateDeviceInfo: an exception raised partway through, while reading an attribute's value, is not modelled (the handler would keep the fields set so far); a device without `_ctx` or a context without `attrs` is given as an empty attribute list.
- DeviceManager.PlutoSDRManager.AutoConnect: in Python each device shares its DeviceInfo object with the discovery list, so the info update also shows in that list; the model's values do not show that sharing.

## Findings

| source | as written | input that shows it | evidently intended | confidence | as-written member | corrected member |
|---|---|---|---|---|---|---|
| waterfall_display.py:507-515 | `on_fft_size_changed` reallocates the history and the peak hold at the new width but keeps `_previous_spectrum` at the old width; the next averaging step at waterfall_display.py:413-417 then combines arrays of different lengths, which raises every tick unless one of the two sizes is 1, where numpy broadcasts | a change from 1024 to 2048 bins after one spectrum has been averaged | a size change also forgets the previous spectrum, so that averaging starts afresh at the new width | not executed | Waterfall.SizeChangeFreezesAsWritten | Waterfall.WaterfallDisplay.OnFftSizeChanged |

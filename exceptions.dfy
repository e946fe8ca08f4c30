// The exception hierarchy of the toolkit: one error value per raised
// exception, carrying the class it was raised as, its message, its optional
// error code and its details dictionary (kept in insertion order).
module Exceptions {
  import opened Wrappers
  import opened Values
  import Text

  datatype ErrorKind =
    | PlutoSDRError
    | DeviceError | DeviceNotFoundError | DeviceConnectionError | DeviceNotConnectedError
    | DeviceTimeoutError
    | ConfigurationError | InvalidFrequencyError | InvalidSampleRateError | InvalidGainError
    | InvalidParameterError
    | CalibrationError | CalibrationFailedError | LoopbackTestError
    | SignalGenerationError | WaveformGenerationError | TransmissionError | DDSConfigurationError
    | DataProcessingError | FFTProcessingError | SpectrumAnalysisError
    | FileOperationError | ConfigurationFileError | DataExportError
    | TemperatureError | TemperatureReadError | OvertemperatureError
    | GUIError | WidgetInitializationError | PlotUpdateError

  /** Distance from the root class PlutoSDRError. */
  function Depth(k: ErrorKind): nat
  {
    match k
    case PlutoSDRError => 0
    case DeviceError | ConfigurationError | CalibrationError | SignalGenerationError
      | DataProcessingError | FileOperationError | TemperatureError | GUIError => 1
    case _ => 2
  }

  /** The direct base class of each exception class. */
  function Parent(k: ErrorKind): (p: Option<ErrorKind>)
    ensures p.None? <==> k == PlutoSDRError
  {
    match k
    case PlutoSDRError => None
    case DeviceError | ConfigurationError | CalibrationError | SignalGenerationError
      | DataProcessingError | FileOperationError | TemperatureError | GUIError => Some(PlutoSDRError)
    case DeviceNotFoundError | DeviceConnectionError | DeviceNotConnectedError
      | DeviceTimeoutError => Some(DeviceError)
    case InvalidFrequencyError | InvalidSampleRateError | InvalidGainError
      | InvalidParameterError => Some(ConfigurationError)
    case CalibrationFailedError | LoopbackTestError => Some(CalibrationError)
    case WaveformGenerationError | TransmissionError | DDSConfigurationError => Some(SignalGenerationError)
    case FFTProcessingError | SpectrumAnalysisError => Some(DataProcessingError)
    case ConfigurationFileError | DataExportError => Some(FileOperationError)
    case TemperatureReadError | OvertemperatureError => Some(TemperatureError)
    case WidgetInitializationError | PlotUpdateError => Some(GUIError)
  }

  /** Each class sits one level below its base class. */
  lemma ParentDepth(k: ErrorKind)
    ensures Parent(k).Some? ==> Depth(Parent(k).value) + 1 == Depth(k)
  {
    if Depth(k) == 1 {
    } else if Depth(k) == 2 {
    }
  }

  /** Python's isinstance for the exception classes: `k` is `base` or derives from it. */
  predicate IsA(k: ErrorKind, base: ErrorKind)
    decreases Depth(k)
  {
    ParentDepth(k);
    k == base || (Parent(k).Some? && IsA(Parent(k).value, base))
  }

  /** Every exception of the toolkit is a PlutoSDRError. */
  lemma {:induction false} AllArePlutoSDRErrors(k: ErrorKind)
    ensures IsA(k, PlutoSDRError)
    decreases Depth(k)
  {
    if k != PlutoSDRError {
      ParentDepth(k);
      AllArePlutoSDRErrors(Parent(k).value);
    }
  }

  /** The two data-processing errors sit under DataProcessingError and the root. */
  lemma ProcessingErrorsAreDataProcessingErrors()
    ensures IsA(FFTProcessingError, DataProcessingError) && IsA(FFTProcessingError, PlutoSDRError)
    ensures IsA(SpectrumAnalysisError, DataProcessingError) && IsA(SpectrumAnalysisError, PlutoSDRError)
    ensures !IsA(FFTProcessingError, DeviceError) && !IsA(SpectrumAnalysisError, ConfigurationError)
  {
    assert Parent(FFTProcessingError) == Some(DataProcessingError);
    assert Parent(SpectrumAnalysisError) == Some(DataProcessingError);
    assert Parent(DataProcessingError) == Some(PlutoSDRError);
    assert IsA(DataProcessingError, PlutoSDRError);
    assert !IsA(PlutoSDRError, DeviceError) && !IsA(PlutoSDRError, ConfigurationError);
    assert !IsA(DataProcessingError, DeviceError) && !IsA(DataProcessingError, ConfigurationError);
  }

  datatype Error = Error(kind: ErrorKind, message: string, errorCode: Option<string>,
                         details: seq<(string, PyValue)>)

  /** PlutoSDRError.__init__: a missing details dictionary is stored as an empty one. */
  function NewError(kind: ErrorKind, message: string, errorCode: Option<string>,
                    details: Option<seq<(string, PyValue)>>): (e: Error)
    ensures e.kind == kind && e.message == message && e.errorCode == errorCode
    ensures details.None? ==> e.details == []
    ensures details.Some? ==> e.details == details.value
  {
    Error(kind, message, errorCode, OptionOr(details, []))
  }

  function DetailItems(details: seq<(string, PyValue)>): (r: string)
  {
    if |details| == 0 then ""
    else
      var item := details[0].0 + "=" + Str(details[0].1);
      if |details| == 1 then item else item + ", " + DetailItems(details[1..])
  }

  function CodePrefix(e: Error): string
  {
    if Given(e.errorCode) then "[" + e.errorCode.value + "] " else ""
  }

  function DetailSuffix(e: Error): string
  {
    if |e.details| > 0 then " (Details: " + DetailItems(e.details) + ")" else ""
  }

  /** PlutoSDRError.__str__. */
  function ToString(e: Error): (r: string)
    ensures r == CodePrefix(e) + e.message + DetailSuffix(e)
  {
    var base := if Given(e.errorCode) then "[" + e.errorCode.value + "] " + e.message else e.message;
    if |e.details| > 0 then base + " (Details: " + DetailItems(e.details) + ")" else base
  }

  /** The string form starts with "[code] " exactly when a non-empty code is set and ends
      with the details list exactly when there are details. */
  lemma ToStringShape(e: Error)
    ensures Given(e.errorCode) ==> Text.StartsWith(ToString(e), "[" + e.errorCode.value + "] ")
    ensures !Given(e.errorCode) ==> Text.StartsWith(ToString(e), e.message)
    ensures |e.details| == 0 ==> ToString(e) == CodePrefix(e) + e.message
    ensures |e.details| > 0 ==> |ToString(e)| > |CodePrefix(e) + e.message| && ToString(e)[|ToString(e)| - 1] == ')'
  {
    var r := ToString(e);
    if Given(e.errorCode) {
      var p := "[" + e.errorCode.value + "] ";
      assert r == p + (e.message + DetailSuffix(e));
      assert r[..|p|] == p;
    } else {
      assert r == e.message + DetailSuffix(e);
      assert r[..|e.message|] == e.message;
    }
  }

  /**
   * The details are printed as k=v pairs in dictionary order, joined by ", ":
   * the text of a list of details is the text of its first part, ", ", and
   * the text of the rest.
   */
  lemma {:induction false} DetailItemsConcat(a: seq<(string, PyValue)>, b: seq<(string, PyValue)>)
    requires |a| > 0 && |b| > 0
    ensures DetailItems(a + b) == DetailItems(a) + ", " + DetailItems(b)
    decreases |a|
  {
    var item := a[0].0 + "=" + Str(a[0].1);
    assert (a + b)[0] == a[0];
    assert (a + b)[1..] == a[1..] + b;
    if |a| > 1 {
      DetailItemsConcat(a[1..], b);
      assert DetailItems(a + b) == item + ", " + (DetailItems(a[1..]) + ", " + DetailItems(b));
    }
  }

  // ---- the concrete exception classes -------------------------------------

  function DeviceNotFound(criteria: Option<string>): (e: Error)
    ensures e.kind == DeviceNotFoundError && e.errorCode == Some("DEVICE_NOT_FOUND")
    ensures Given(criteria) ==> e.message == "No PlutoSDR device found matching criteria: " + criteria.value
    ensures !Given(criteria) ==> e.message == "No PlutoSDR device found"
    ensures e.details == [("search_criteria", OptStr(criteria))]
  {
    var message := if Given(criteria) then "No PlutoSDR device found matching criteria: " + criteria.value
                   else "No PlutoSDR device found";
    NewError(DeviceNotFoundError, message, Some("DEVICE_NOT_FOUND"),
             Some([("search_criteria", OptStr(criteria))]))
  }

  function DeviceConnection(uri: string, reason: Option<string>): (e: Error)
    ensures e.kind == DeviceConnectionError && e.errorCode == Some("CONNECTION_FAILED")
    ensures Given(reason) <==> e.message != "Failed to connect to PlutoSDR at " + uri
    ensures Given(reason) ==> e.message == "Failed to connect to PlutoSDR at " + uri + ": " + reason.value
  {
    var base := "Failed to connect to PlutoSDR at " + uri;
    var message := if Given(reason) then base + ": " + reason.value else base;
    assert Given(reason) ==> |message| > |base|;
    NewError(DeviceConnectionError, message, Some("CONNECTION_FAILED"),
             Some([("uri", PyStr(uri)), ("reason", OptStr(reason))]))
  }

  function DeviceNotConnected(operation: Option<string>): (e: Error)
    ensures e.kind == DeviceNotConnectedError && e.errorCode == Some("DEVICE_NOT_CONNECTED")
    ensures Given(operation) ==> e.message == "PlutoSDR device is not connected (attempted operation: " + operation.value + ")"
    ensures !Given(operation) ==> e.message == "PlutoSDR device is not connected"
  {
    var message := if Given(operation)
                   then "PlutoSDR device is not connected (attempted operation: " + operation.value + ")"
                   else "PlutoSDR device is not connected";
    NewError(DeviceNotConnectedError, message, Some("DEVICE_NOT_CONNECTED"),
             Some([("operation", OptStr(operation))]))
  }

  function DeviceTimeout(operation: string, timeout: Number): (e: Error)
    ensures e.kind == DeviceTimeoutError && e.errorCode == Some("DEVICE_TIMEOUT")
    ensures e.message == "Device operation '" + operation + "' timed out after " + NumberStr(timeout) + "s"
    ensures e.details == [("operation", PyStr(operation)), ("timeout", PyNum(timeout))]
  {
    NewError(DeviceTimeoutError,
             "Device operation '" + operation + "' timed out after " + NumberStr(timeout) + "s",
             Some("DEVICE_TIMEOUT"), Some([("operation", PyStr(operation)), ("timeout", PyNum(timeout))]))
  }

  /** f"{x/1e6:.1f}": a value in MHz with one decimal. */
  function Mhz1(x: Number): string
  {
    Text.FormatFixed(x.Value() / 1000000.0, 1)
  }

  function InvalidFrequency(frequency: Number, minFreq: Number, maxFreq: Number): (e: Error)
    ensures e.kind == InvalidFrequencyError && e.errorCode == Some("INVALID_FREQUENCY")
    ensures e.message == "Invalid frequency " + Mhz1(frequency) + " MHz (valid range: "
                         + Mhz1(minFreq) + "-" + Mhz1(maxFreq) + " MHz)"
    ensures e.details == [("frequency", PyNum(frequency)), ("min_frequency", PyNum(minFreq)),
                          ("max_frequency", PyNum(maxFreq))]
  {
    NewError(InvalidFrequencyError,
             "Invalid frequency " + Mhz1(frequency) + " MHz (valid range: " + Mhz1(minFreq) + "-" + Mhz1(maxFreq) + " MHz)",
             Some("INVALID_FREQUENCY"),
             Some([("frequency", PyNum(frequency)), ("min_frequency", PyNum(minFreq)), ("max_frequency", PyNum(maxFreq))]))
  }

  function InvalidSampleRate(rate: Number, minRate: Number, maxRate: Number): (e: Error)
    ensures e.kind == InvalidSampleRateError && e.errorCode == Some("INVALID_SAMPLE_RATE")
    ensures e.message == "Invalid sample rate " + Mhz1(rate) + " MHz (valid range: "
                         + Mhz1(minRate) + "-" + Mhz1(maxRate) + " MHz)"
    ensures e.details == [("sample_rate", PyNum(rate)), ("min_sample_rate", PyNum(minRate)),
                          ("max_sample_rate", PyNum(maxRate))]
  {
    NewError(InvalidSampleRateError,
             "Invalid sample rate " + Mhz1(rate) + " MHz (valid range: " + Mhz1(minRate) + "-" + Mhz1(maxRate) + " MHz)",
             Some("INVALID_SAMPLE_RATE"),
             Some([("sample_rate", PyNum(rate)), ("min_sample_rate", PyNum(minRate)), ("max_sample_rate", PyNum(maxRate))]))
  }

  function InvalidGain(gain: Number, minGain: Number, maxGain: Number, gainType: string): (e: Error)
    ensures e.kind == InvalidGainError && e.errorCode == Some("INVALID_GAIN")
    ensures |gainType| > 0 ==> Text.StartsWith(e.message, "Invalid " + gainType + " gain ")
    ensures |gainType| == 0 ==> Text.StartsWith(e.message, "Invalid gain ")
    ensures e.details == [("gain", PyNum(gain)), ("min_gain", PyNum(minGain)), ("max_gain", PyNum(maxGain)),
                          ("gain_type", PyStr(gainType))]
  {
    var head := if |gainType| > 0 then "Invalid " + gainType + " gain " else "Invalid gain ";
    var tail := NumberStr(gain) + " dB (valid range: " + NumberStr(minGain) + "-" + NumberStr(maxGain) + " dB)";
    assert (head + tail)[..|head|] == head;
    NewError(InvalidGainError, head + tail, Some("INVALID_GAIN"),
             Some([("gain", PyNum(gain)), ("min_gain", PyNum(minGain)), ("max_gain", PyNum(maxGain)),
                   ("gain_type", PyStr(gainType))]))
  }

  function InvalidParameter(parameter: string, value: PyValue, validRange: Option<string>): (e: Error)
    ensures e.kind == InvalidParameterError && e.errorCode == Some("INVALID_PARAMETER")
    ensures Given(validRange) ==> e.message == "Invalid value for parameter '" + parameter + "': " + Str(value)
                                               + " (valid range: " + validRange.value + ")"
    ensures !Given(validRange) ==> e.message == "Invalid value for parameter '" + parameter + "': " + Str(value)
    ensures e.details == [("parameter", PyStr(parameter)), ("value", value), ("valid_range", OptStr(validRange))]
  {
    var message := "Invalid value for parameter '" + parameter + "': " + Str(value)
      + (if Given(validRange) then " (valid range: " + validRange.value + ")" else "");
    NewError(InvalidParameterError, message, Some("INVALID_PARAMETER"),
             Some([("parameter", PyStr(parameter)), ("value", value), ("valid_range", OptStr(validRange))]))
  }

  function CalibrationFailed(stage: Option<string>, reason: Option<string>): (e: Error)
    ensures e.kind == CalibrationFailedError && e.errorCode == Some("CALIBRATION_FAILED")
    ensures !Given(stage) && !Given(reason) ==> e.message == "Device calibration failed"
    ensures Given(stage) && !Given(reason) ==> e.message == "Device calibration failed at stage: " + stage.value
    ensures !Given(stage) && Given(reason) ==> e.message == "Device calibration failed (" + reason.value + ")"
    ensures Given(stage) && Given(reason) ==>
              e.message == "Device calibration failed at stage: " + stage.value + " (" + reason.value + ")"
    ensures e.details == [("stage", OptStr(stage)), ("reason", OptStr(reason))]
  {
    var head := if Given(stage) then "Device calibration failed at stage: " + stage.value else "Device calibration failed";
    var message := if Given(reason) then head + " (" + reason.value + ")" else head;
    NewError(CalibrationFailedError, message, Some("CALIBRATION_FAILED"),
             Some([("stage", OptStr(stage)), ("reason", OptStr(reason))]))
  }

  function OptNum(n: Option<Number>): PyValue
  {
    match n
    case Some(v) => PyNum(v)
    case None => PyNone
  }

  function LoopbackTest(correlation: Option<Number>, threshold: Option<Number>): (e: Error)
    ensures e.kind == LoopbackTestError && e.errorCode == Some("LOOPBACK_FAILED")
    ensures correlation.Some? && threshold.Some? ==>
              e.message == "Loopback test failed (correlation: " + Text.FormatFixed(correlation.value.Value(), 3)
                           + ", threshold: " + Text.FormatFixed(threshold.value.Value(), 3) + ")"
    ensures correlation.None? || threshold.None? ==> e.message == "Loopback test failed"
    ensures e.details == [("correlation", OptNum(correlation)), ("threshold", OptNum(threshold))]
  {
    var message :=
      if correlation.Some? && threshold.Some?
      then "Loopback test failed (correlation: " + Text.FormatFixed(correlation.value.Value(), 3)
           + ", threshold: " + Text.FormatFixed(threshold.value.Value(), 3) + ")"
      else "Loopback test failed";
    NewError(LoopbackTestError, message, Some("LOOPBACK_FAILED"),
             Some([("correlation", OptNum(correlation)), ("threshold", OptNum(threshold))]))
  }

  function WaveformGeneration(waveformType: string, reason: Option<string>): (e: Error)
    ensures e.kind == WaveformGenerationError && e.errorCode == Some("WAVEFORM_GENERATION_FAILED")
    ensures Given(reason) ==> e.message == "Failed to generate " + waveformType + " waveform: " + reason.value
    ensures !Given(reason) ==> e.message == "Failed to generate " + waveformType + " waveform"
    ensures e.details == [("waveform_type", PyStr(waveformType)), ("reason", OptStr(reason))]
  {
    var message := "Failed to generate " + waveformType + " waveform"
      + (if Given(reason) then ": " + reason.value else "");
    NewError(WaveformGenerationError, message, Some("WAVEFORM_GENERATION_FAILED"),
             Some([("waveform_type", PyStr(waveformType)), ("reason", OptStr(reason))]))
  }

  function Transmission(reason: Option<string>): (e: Error)
    ensures e.kind == TransmissionError && e.errorCode == Some("TRANSMISSION_FAILED")
    ensures Given(reason) ==> e.message == "Signal transmission failed: " + reason.value
    ensures !Given(reason) ==> e.message == "Signal transmission failed"
    ensures e.details == [("reason", OptStr(reason))]
  {
    var message := "Signal transmission failed" + (if Given(reason) then ": " + reason.value else "");
    NewError(TransmissionError, message, Some("TRANSMISSION_FAILED"), Some([("reason", OptStr(reason))]))
  }

  function DDSConfiguration(frequency: Option<Number>, reason: Option<string>): (e: Error)
    ensures e.kind == DDSConfigurationError && e.errorCode == Some("DDS_CONFIG_FAILED")
    ensures !(frequency.Some? && frequency.value.Truthy()) && !Given(reason) ==> e.message == "DDS configuration failed"
    ensures frequency.Some? && frequency.value.Truthy() && !Given(reason) ==>
              e.message == "DDS configuration failed for frequency "
                           + Text.FormatFixed(frequency.value.Value() / 1000.0, 1) + " kHz"
    ensures frequency.Some? && frequency.value.Truthy() && Given(reason) ==>
              e.message == "DDS configuration failed for frequency "
                           + Text.FormatFixed(frequency.value.Value() / 1000.0, 1) + " kHz: " + reason.value
    ensures !(frequency.Some? && frequency.value.Truthy()) && Given(reason) ==>
              e.message == "DDS configuration failed: " + reason.value
    ensures e.details == [("frequency", OptNum(frequency)), ("reason", OptStr(reason))]
  {
    var head :=
      if frequency.Some? && frequency.value.Truthy()
      then "DDS configuration failed for frequency " + Text.FormatFixed(frequency.value.Value() / 1000.0, 1) + " kHz"
      else "DDS configuration failed";
    var message := if Given(reason) then head + ": " + reason.value else head;
    NewError(DDSConfigurationError, message, Some("DDS_CONFIG_FAILED"),
             Some([("frequency", OptNum(frequency)), ("reason", OptStr(reason))]))
  }

  /** Python's truthiness of an optional int. */
  predicate GivenInt(n: Option<int>)
  {
    n.Some? && n.value != 0
  }

  function OptInt(n: Option<int>): PyValue
  {
    match n
    case Some(v) => PyNum(IntNum(v))
    case None => PyNone
  }

  /** " (samples: n, FFT size: m)" when both sizes are given and non-zero. */
  function SizesSuffix(samplesLength: Option<int>, fftSize: Option<int>): (r: string)
    ensures GivenInt(samplesLength) && GivenInt(fftSize) ==>
              r == " (samples: " + Text.IntToString(samplesLength.value) + ", FFT size: "
                   + Text.IntToString(fftSize.value) + ")"
    ensures !(GivenInt(samplesLength) && GivenInt(fftSize)) ==> r == ""
  {
    if GivenInt(samplesLength) && GivenInt(fftSize)
    then " (samples: " + Text.IntToString(samplesLength.value) + ", FFT size: "
         + Text.IntToString(fftSize.value) + ")"
    else ""
  }

  function FFTProcessing(samplesLength: Option<int>, fftSize: Option<int>): (e: Error)
    ensures e.kind == FFTProcessingError && e.errorCode == Some("FFT_PROCESSING_FAILED")
    ensures e.message == "FFT processing failed" + SizesSuffix(samplesLength, fftSize)
    ensures !GivenInt(samplesLength) ==> e.message == "FFT processing failed"
    ensures e.details == [("samples_length", OptInt(samplesLength)), ("fft_size", OptInt(fftSize))]
  {
    var message := "FFT processing failed" + SizesSuffix(samplesLength, fftSize);
    NewError(FFTProcessingError, message, Some("FFT_PROCESSING_FAILED"),
             Some([("samples_length", OptInt(samplesLength)), ("fft_size", OptInt(fftSize))]))
  }

  function SpectrumAnalysis(analysisType: string, reason: Option<string>): (e: Error)
    ensures e.kind == SpectrumAnalysisError && e.errorCode == Some("SPECTRUM_ANALYSIS_FAILED")
    ensures Given(reason) ==> e.message == "Spectrum analysis failed: " + analysisType + " (" + reason.value + ")"
    ensures !Given(reason) ==> e.message == "Spectrum analysis failed: " + analysisType
    ensures e.details == [("analysis_type", PyStr(analysisType)), ("reason", OptStr(reason))]
  {
    var message := "Spectrum analysis failed: " + analysisType
      + (if Given(reason) then " (" + reason.value + ")" else "");
    NewError(SpectrumAnalysisError, message, Some("SPECTRUM_ANALYSIS_FAILED"),
             Some([("analysis_type", PyStr(analysisType)), ("reason", OptStr(reason))]))
  }

  function ConfigurationFile(filename: string, operation: string, reason: Option<string>): (e: Error)
    ensures e.kind == ConfigurationFileError && e.errorCode == Some("CONFIG_FILE_ERROR")
    ensures Given(reason) ==> e.message == "Configuration file " + operation + " failed: " + filename
                                           + " (" + reason.value + ")"
    ensures !Given(reason) ==> e.message == "Configuration file " + operation + " failed: " + filename
    ensures e.details == [("filename", PyStr(filename)), ("operation", PyStr(operation)), ("reason", OptStr(reason))]
  {
    var message := "Configuration file " + operation + " failed: " + filename
      + (if Given(reason) then " (" + reason.value + ")" else "");
    NewError(ConfigurationFileError, message, Some("CONFIG_FILE_ERROR"),
             Some([("filename", PyStr(filename)), ("operation", PyStr(operation)), ("reason", OptStr(reason))]))
  }

  function DataExport(filename: string, formatType: string, reason: Option<string>): (e: Error)
    ensures e.kind == DataExportError && e.errorCode == Some("DATA_EXPORT_FAILED")
    ensures Given(reason) ==> e.message == "Data export failed: " + filename + " (" + formatType + ") - " + reason.value
    ensures !Given(reason) ==> e.message == "Data export failed: " + filename + " (" + formatType + ")"
    ensures e.details == [("filename", PyStr(filename)), ("format", PyStr(formatType)), ("reason", OptStr(reason))]
  {
    var message := "Data export failed: " + filename + " (" + formatType + ")"
      + (if Given(reason) then " - " + reason.value else "");
    NewError(DataExportError, message, Some("DATA_EXPORT_FAILED"),
             Some([("filename", PyStr(filename)), ("format", PyStr(formatType)), ("reason", OptStr(reason))]))
  }

  function TemperatureRead(sensor: string, reason: Option<string>): (e: Error)
    ensures e.kind == TemperatureReadError && e.errorCode == Some("TEMPERATURE_READ_FAILED")
    ensures Given(reason) ==> e.message == "Failed to read " + sensor + " temperature: " + reason.value
    ensures !Given(reason) ==> e.message == "Failed to read " + sensor + " temperature"
    ensures e.details == [("sensor", PyStr(sensor)), ("reason", OptStr(reason))]
  {
    var message := "Failed to read " + sensor + " temperature" + (if Given(reason) then ": " + reason.value else "");
    NewError(TemperatureReadError, message, Some("TEMPERATURE_READ_FAILED"),
             Some([("sensor", PyStr(sensor)), ("reason", OptStr(reason))]))
  }

  function Overtemperature(sensor: string, temperature: real, threshold: real): (e: Error)
    ensures e.kind == OvertemperatureError && e.errorCode == Some("OVERTEMPERATURE")
    ensures e.message == sensor + " temperature (" + Text.FormatFixed(temperature, 1) + "°C) exceeds threshold ("
                         + Text.FormatFixed(threshold, 1) + "°C)"
    ensures e.details == [("sensor", PyStr(sensor)), ("temperature", PyNum(FloatNum(temperature))),
                          ("threshold", PyNum(FloatNum(threshold)))]
  {
    NewError(OvertemperatureError,
             sensor + " temperature (" + Text.FormatFixed(temperature, 1) + "°C) exceeds threshold ("
               + Text.FormatFixed(threshold, 1) + "°C)",
             Some("OVERTEMPERATURE"),
             Some([("sensor", PyStr(sensor)), ("temperature", PyNum(FloatNum(temperature))),
                   ("threshold", PyNum(FloatNum(threshold)))]))
  }

  function WidgetInitialization(widgetName: string, reason: Option<string>): (e: Error)
    ensures e.kind == WidgetInitializationError && e.errorCode == Some("WIDGET_INIT_FAILED")
    ensures Given(reason) ==> e.message == "Failed to initialize widget: " + widgetName + " (" + reason.value + ")"
    ensures !Given(reason) ==> e.message == "Failed to initialize widget: " + widgetName
    ensures e.details == [("widget_name", PyStr(widgetName)), ("reason", OptStr(reason))]
  {
    var message := "Failed to initialize widget: " + widgetName + (if Given(reason) then " (" + reason.value + ")" else "");
    NewError(WidgetInitializationError, message, Some("WIDGET_INIT_FAILED"),
             Some([("widget_name", PyStr(widgetName)), ("reason", OptStr(reason))]))
  }

  function PlotUpdate(plotType: string, reason: Option<string>): (e: Error)
    ensures e.kind == PlotUpdateError && e.errorCode == Some("PLOT_UPDATE_FAILED")
    ensures Given(reason) ==> e.message == "Failed to update " + plotType + " plot: " + reason.value
    ensures !Given(reason) ==> e.message == "Failed to update " + plotType + " plot"
    ensures e.details == [("plot_type", PyStr(plotType)), ("reason", OptStr(reason))]
  {
    var message := "Failed to update " + plotType + " plot" + (if Given(reason) then ": " + reason.value else "");
    NewError(PlotUpdateError, message, Some("PLOT_UPDATE_FAILED"),
             Some([("plot_type", PyStr(plotType)), ("reason", OptStr(reason))]))
  }

  // ---- handle_device_error and the validators -----------------------------

  /**
   * The handle_device_error decorator applied to a call whose outcome is given:
   * success passes through, and a raised exception (represented by its str())
   * is re-raised as a device error chosen by the first matching rule.
   */
  function HandleDeviceError<T>(outcome: Result<T, string>): (r: Result<T, Error>)
    ensures outcome.Success? ==> r == Success(outcome.value)
    ensures outcome.Failure? ==> r.Failure?
    ensures outcome.Failure? && Text.Contains(Text.Lower(outcome.error), "not found") ==>
              r.error == DeviceNotFound(None)
    ensures outcome.Failure? && !Text.Contains(Text.Lower(outcome.error), "not found")
              && (Text.Contains(Text.Lower(outcome.error), "connection") || Text.Contains(Text.Lower(outcome.error), "timeout")) ==>
              r.error == DeviceConnection("unknown", Some(outcome.error))
    ensures outcome.Failure? && !Text.Contains(Text.Lower(outcome.error), "not found")
              && !Text.Contains(Text.Lower(outcome.error), "connection") && !Text.Contains(Text.Lower(outcome.error), "timeout") ==>
              r.error == NewError(DeviceError, outcome.error, None, None)
  {
    match outcome
    case Success(v) => Success(v)
    case Failure(text) =>
      var low := Text.Lower(text);
      if Text.Contains(low, "not found") then Failure(DeviceNotFound(None))
      else if Text.Contains(low, "connection") || Text.Contains(low, "timeout") then
        Failure(DeviceConnection("unknown", Some(text)))
      else Failure(NewError(DeviceError, text, None, None))
  }

  /** Every error the decorator raises is a DeviceError. */
  lemma HandleDeviceErrorIsDeviceError<T>(outcome: Result<T, string>)
    requires outcome.Failure?
    ensures HandleDeviceError(outcome).Failure? && IsA(HandleDeviceError(outcome).error.kind, DeviceError)
  {
  }

  function ValidateFrequency(frequency: Number, minFreq: Number, maxFreq: Number): (r: Option<Error>)
    ensures r.None? <==> minFreq.Value() <= frequency.Value() <= maxFreq.Value()
    ensures r.Some? ==> r.value == InvalidFrequency(frequency, minFreq, maxFreq)
  {
    if minFreq.Value() <= frequency.Value() <= maxFreq.Value() then None
    else Some(InvalidFrequency(frequency, minFreq, maxFreq))
  }

  function ValidateSampleRate(rate: Number, minRate: Number, maxRate: Number): (r: Option<Error>)
    ensures r.None? <==> minRate.Value() <= rate.Value() <= maxRate.Value()
    ensures r.Some? ==> r.value == InvalidSampleRate(rate, minRate, maxRate)
  {
    if minRate.Value() <= rate.Value() <= maxRate.Value() then None
    else Some(InvalidSampleRate(rate, minRate, maxRate))
  }

  function ValidateGain(gain: Number, minGain: Number, maxGain: Number, gainType: string): (r: Option<Error>)
    ensures r.None? <==> minGain.Value() <= gain.Value() <= maxGain.Value()
    ensures r.Some? ==> r.value == InvalidGain(gain, minGain, maxGain, gainType)
  {
    if minGain.Value() <= gain.Value() <= maxGain.Value() then None
    else Some(InvalidGain(gain, minGain, maxGain, gainType))
  }

  /** f"{min_val}-{max_val}". */
  function RangeText(minVal: Number, maxVal: Number): string
  {
    NumberStr(minVal) + "-" + NumberStr(maxVal)
  }

  function ValidateParameter(parameter: string, value: Number, minVal: Number, maxVal: Number): (r: Option<Error>)
    ensures r.None? <==> minVal.Value() <= value.Value() <= maxVal.Value()
    ensures r.Some? ==> r.value == InvalidParameter(parameter, PyNum(value), Some(RangeText(minVal, maxVal)))
  {
    if minVal.Value() <= value.Value() <= maxVal.Value() then None
    else Some(InvalidParameter(parameter, PyNum(value), Some(RangeText(minVal, maxVal))))
  }
}

// refactored/config_manager.py: device-configuration validation, profile
// construction with defaults, filename sanitising, and the profile store.
//
// The profiles directory is modelled as a map from the sanitised file stem
// to the profile last saved there; the JSON encoding and the file system
// calls are not part of this model, and the clock reading is a parameter.
module ConfigManager {
  import opened Wrappers
  import opened Values
  import Text
  import Sorting
  import Exceptions

  /** DeviceConfiguration; the fields hold whatever numbers they were given. */
  datatype DeviceConfiguration = DeviceConfiguration(
    rxLo: Number, txLo: Number, sampleRate: Number, rxBandwidth: Number,
    txBandwidth: Number, rxGain: Number, txGain: Number)

  /** The defaults: 100 MHz, 20 MS/s (floats), gains 60 and −30 (ints). */
  const DefaultDevice := DeviceConfiguration(
    FloatNum(100000000.0), FloatNum(100000000.0), FloatNum(20000000.0), FloatNum(20000000.0),
    FloatNum(20000000.0), IntNum(60), IntNum(-30))

  /** One range check of validate: the field's name, its value and the closed range. */
  datatype Check = Check(name: string, value: Number, min: Number, max: Number)

  predicate Passes(c: Check)
  {
    c.min.Value() <= c.value.Value() <= c.max.Value()
  }

  /**
   * The checks in the order validate makes them: the two local oscillators
   * against the frequency limits, the sample rate and both bandwidths
   * against the sample-rate limits, then the two gains.
   */
  function Checks(d: DeviceConfiguration): (cs: seq<Check>)
    ensures |cs| == 7
  {
    var fMin, fMax := FloatNum(70000000.0), FloatNum(6000000000.0);
    var rMin, rMax := FloatNum(1000000.0), FloatNum(61000000.0);
    [Check("rx_lo", d.rxLo, fMin, fMax), Check("tx_lo", d.txLo, fMin, fMax),
     Check("sample_rate", d.sampleRate, rMin, rMax), Check("rx_bandwidth", d.rxBandwidth, rMin, rMax),
     Check("tx_bandwidth", d.txBandwidth, rMin, rMax),
     Check("rx_gain", d.rxGain, IntNum(0), IntNum(76)), Check("tx_gain", d.txGain, IntNum(-89), IntNum(0))]
  }

  /** InvalidParameterError(name, value, f"{min}-{max}"). */
  function CheckError(c: Check): (e: Exceptions.Error)
    ensures e.kind == Exceptions.InvalidParameterError
  {
    Exceptions.InvalidParameter(c.name, PyNum(c.value), Some(Exceptions.RangeText(c.min, c.max)))
  }

  /** The error of the first check that fails, if any. */
  function FirstFailure(cs: seq<Check>): (r: Option<Exceptions.Error>)
    ensures r.Some? ==> r.value.kind == Exceptions.InvalidParameterError
  {
    if cs == [] then None
    else if !Passes(cs[0]) then Some(CheckError(cs[0]))
    else FirstFailure(cs[1..])
  }

  /** There is no error exactly when every check passes. */
  lemma {:induction false} FirstFailureNone(cs: seq<Check>)
    ensures FirstFailure(cs).None? <==> forall i :: 0 <= i < |cs| ==> Passes(cs[i])
    decreases |cs|
  {
    if cs != [] {
      FirstFailureNone(cs[1..]);
      if Passes(cs[0]) && FirstFailure(cs[1..]).None? {
        forall i | 0 <= i < |cs|
          ensures Passes(cs[i])
        {
          if i > 0 {
            assert cs[i] == cs[1..][i - 1];
          }
        }
      }
    }
  }

  /** The error, when there is one, is that of a failing check all of whose predecessors pass. */
  lemma {:induction false} FirstFailureIsFirst(cs: seq<Check>)
    ensures FirstFailure(cs).Some? ==>
              exists i :: (0 <= i < |cs| && !Passes(cs[i]) && (forall j :: 0 <= j < i ==> Passes(cs[j]))
                           && FirstFailure(cs) == Some(CheckError(cs[i])))
    decreases |cs|
  {
    if cs != [] && Passes(cs[0]) && FirstFailure(cs[1..]).Some? {
      var tail := cs[1..];
      FirstFailureIsFirst(tail);
      var i :| 0 <= i < |tail| && !Passes(tail[i]) && (forall j :: 0 <= j < i ==> Passes(tail[j]))
               && FirstFailure(tail) == Some(CheckError(tail[i]));
      assert cs[i + 1] == tail[i];
      forall j | 0 <= j < i + 1
        ensures Passes(cs[j])
      {
        if j > 0 {
          assert cs[j] == tail[j - 1];
        }
      }
    } else if cs != [] && !Passes(cs[0]) {
      assert FirstFailure(cs) == Some(CheckError(cs[0]));
    }
  }

  /** DeviceConfiguration.validate: None, or the InvalidParameterError it raises. */
  function Validate(d: DeviceConfiguration): (r: Option<Exceptions.Error>)
    ensures r.Some? ==> r.value.kind == Exceptions.InvalidParameterError
  {
    FirstFailure(Checks(d))
  }

  /** A configuration is accepted exactly when every field lies in its closed range. */
  lemma ValidateAccepts(d: DeviceConfiguration)
    ensures Validate(d).None? <==>
              && 70000000.0 <= d.rxLo.Value() <= 6000000000.0
              && 70000000.0 <= d.txLo.Value() <= 6000000000.0
              && 1000000.0 <= d.sampleRate.Value() <= 61000000.0
              && 1000000.0 <= d.rxBandwidth.Value() <= 61000000.0
              && 1000000.0 <= d.txBandwidth.Value() <= 61000000.0
              && 0.0 <= d.rxGain.Value() <= 76.0
              && -89.0 <= d.txGain.Value() <= 0.0
  {
    var cs := Checks(d);
    FirstFailureNone(cs);
    assert (Passes(cs[0]) && Passes(cs[1]) && Passes(cs[2]) && Passes(cs[3]) && Passes(cs[4])
            && Passes(cs[5]) && Passes(cs[6])) ==> forall i :: 0 <= i < |cs| ==> Passes(cs[i]);
  }

  /** A rejected configuration names the first field, in check order, that is out of range. */
  lemma ValidateNamesFirstFailure(d: DeviceConfiguration)
    ensures Validate(d).Some? ==>
              exists i :: (0 <= i < 7 && !Passes(Checks(d)[i]) && (forall j :: 0 <= j < i ==> Passes(Checks(d)[j]))
                           && Validate(d) == Some(CheckError(Checks(d)[i])))
  {
    FirstFailureIsFirst(Checks(d));
  }

  /** Local-oscillator failures are reported before anything else, receive before transmit. */
  lemma ValidateReportsRxLoFirst(d: DeviceConfiguration)
    requires !(70000000.0 <= d.rxLo.Value() <= 6000000000.0)
    ensures Validate(d) == Some(Exceptions.InvalidParameter("rx_lo", PyNum(d.rxLo),
                                  Some(Exceptions.RangeText(FloatNum(70000000.0), FloatNum(6000000000.0)))))
  {
  }

  /** The defaults pass. */
  lemma DefaultDeviceIsValid()
    ensures Validate(DefaultDevice).None?
  {
    ValidateAccepts(DefaultDevice);
  }

  datatype SpectrumConfiguration = SpectrumConfiguration(
    fftSize: int, windowFunction: string, averagingFactor: real, peakHoldEnabled: bool,
    sweepStart: int, sweepStop: int, sweepSteps: int)

  /** The default sweep spans the default centre frequency ± the default sample rate. */
  const DefaultSpectrum := SpectrumConfiguration(1024, "hann", 0.1, false, 80000000, 120000000, 1000)

  datatype WaterfallConfiguration = WaterfallConfiguration(
    fftSize: int, historySize: int, updateRateMs: int, centerFrequency: Number, sampleRate: Number,
    gain: int, colormap: string, intensityMin: real, intensityMax: real, averagingFactor: real)

  const DefaultWaterfall := WaterfallConfiguration(
    1024, 800, 50, FloatNum(100000000.0), FloatNum(20000000.0), 60, "viridis", -80.0, -20.0, 0.1)

  datatype CalibrationConfiguration = CalibrationConfiguration(
    rxLo: int, txLo: int, sampleRate: int, correlationThreshold: real,
    autoCalibrateOnConnect: bool, temperatureCompensation: bool)

  const DefaultCalibration := CalibrationConfiguration(2400000000, 2400000000, 3000000, 0.5, false, true)

  datatype ConfigurationProfile = ConfigurationProfile(
    name: string, description: string, createdDate: string, modifiedDate: string,
    device: DeviceConfiguration, spectrum: SpectrumConfiguration,
    waterfall: WaterfallConfiguration, calibration: CalibrationConfiguration)

  function OrDefault<T>(o: Option<T>, default: T): (r: T)
    ensures o.Some? ==> r == o.value
    ensures o.None? ==> r == default
  {
    if o.Some? then o.value else default
  }

  /**
   * ConfigurationProfile(...) with __post_init__: a missing sub-configuration
   * becomes its default and an empty timestamp becomes `now`.
   */
  function NewProfile(name: string, description: string, createdDate: string, modifiedDate: string,
                      device: Option<DeviceConfiguration>, spectrum: Option<SpectrumConfiguration>,
                      waterfall: Option<WaterfallConfiguration>, calibration: Option<CalibrationConfiguration>,
                      now: string): (p: ConfigurationProfile)
    ensures p.name == name && p.description == description
    ensures device.None? ==> p.device == DefaultDevice
    ensures device.Some? ==> p.device == device.value
    ensures spectrum.None? ==> p.spectrum == DefaultSpectrum
    ensures waterfall.None? ==> p.waterfall == DefaultWaterfall
    ensures calibration.None? ==> p.calibration == DefaultCalibration
    ensures p.createdDate == if createdDate == "" then now else createdDate
    ensures p.modifiedDate == if modifiedDate == "" then now else modifiedDate
  {
    ConfigurationProfile(name, description,
      if createdDate == "" then now else createdDate,
      if modifiedDate == "" then now else modifiedDate,
      OrDefault(device, DefaultDevice), OrDefault(spectrum, DefaultSpectrum),
      OrDefault(waterfall, DefaultWaterfall), OrDefault(calibration, DefaultCalibration))
  }

  /** A profile built without a device configuration validates. */
  lemma DefaultProfileIsValid(name: string, now: string)
    ensures Validate(NewProfile(name, "", "", "", None, None, None, None, now).device).None?
  {
    DefaultDeviceIsValid();
  }

  /** The characters _sanitize_filename replaces. */
  const InvalidChars: string := "<>:\"/\\|?*"

  /** The maximum length of a sanitised name. */
  const MaxNameLength: nat := 50

  /** Every invalid character replaced by '_'. */
  function ReplaceInvalid(name: string): (r: string)
    ensures |r| == |name|
    ensures forall i :: 0 <= i < |r| ==> r[i] == if name[i] in InvalidChars then '_' else name[i]
  {
    seq(|name|, i requires 0 <= i < |name| => if name[i] in InvalidChars then '_' else name[i])
  }

  /** `sanitized.strip()[:50]`. */
  function SanitizedName(name: string): (r: string)
    ensures |r| <= MaxNameLength
  {
    var stripped := Text.Strip(ReplaceInvalid(name));
    if |stripped| <= MaxNameLength then stripped else stripped[..MaxNameLength]
  }

  /** _sanitize_filename: one replace pass per invalid character, then strip and truncate. */
  method SanitizeFilename(name: string) returns (r: string)
    ensures r == SanitizedName(name)
  {
    var sanitized := name;
    var k := 0;
    while k < |InvalidChars|
      invariant 0 <= k <= |InvalidChars|
      invariant |sanitized| == |name|
      invariant forall i :: 0 <= i < |name| ==>
                  sanitized[i] == if name[i] in InvalidChars[..k] then '_' else name[i]
    {
      var c := InvalidChars[k];
      Text.ReplaceCharPointwise(sanitized, c, '_');
      var next := Text.Replace(sanitized, [c], "_");
      assert forall i :: 0 <= i < |name| ==> (name[i] in InvalidChars[..k + 1] <==> name[i] in InvalidChars[..k] || name[i] == c) by {
        assert InvalidChars[..k + 1] == InvalidChars[..k] + [c];
      }
      sanitized := next;
      k := k + 1;
    }
    assert InvalidChars[..|InvalidChars|] == InvalidChars;
    assert sanitized == ReplaceInvalid(name);
    var stripped := Text.Strip(sanitized);
    r := if |stripped| <= MaxNameLength then stripped else stripped[..MaxNameLength];
  }

  /** No character of `s` is one of the invalid characters. */
  predicate NoInvalid(s: string)
  {
    forall i :: 0 <= i < |s| ==> s[i] !in InvalidChars
  }

  /** A piece of a string with no invalid character has none either. */
  lemma NoInvalidSlice(s: string, lo: int, hi: int)
    requires 0 <= lo <= hi <= |s| && NoInvalid(s)
    ensures NoInvalid(s[lo..hi])
  {
    assert forall i :: 0 <= i < hi - lo ==> s[lo..hi][i] == s[lo + i];
  }

  /** Replacement leaves no invalid character behind. */
  lemma ReplaceInvalidIsSafe(name: string)
    ensures NoInvalid(ReplaceInvalid(name))
  {
    var replaced := ReplaceInvalid(name);
    forall i | 0 <= i < |replaced|
      ensures replaced[i] !in InvalidChars
    {
      if name[i] in InvalidChars {
        assert replaced[i] == '_';
      }
    }
  }

  /** Stripping keeps a string free of invalid characters. */
  lemma {:induction false} StripIsSafe(s: string)
    requires NoInvalid(s)
    ensures NoInvalid(Text.Strip(s))
  {
    var left := Text.StripLeft(s);
    NoInvalidSlice(s, |s| - |left|, |s|);
    var right := Text.StripRight(left);
    NoInvalidSlice(left, 0, |right|);
    assert Text.Strip(s) == right;
  }

  /** A sanitised name has none of the invalid characters and at most 50 characters. */
  lemma SanitizedNameIsSafe(name: string)
    ensures |SanitizedName(name)| <= MaxNameLength
    ensures NoInvalid(SanitizedName(name))
  {
    ReplaceInvalidIsSafe(name);
    var stripped := Text.Strip(ReplaceInvalid(name));
    StripIsSafe(ReplaceInvalid(name));
    if |stripped| > MaxNameLength {
      NoInvalidSlice(stripped, 0, MaxNameLength);
    }
  }

  /**
   * Sanitising is not idempotent: truncation can end the name in a space,
   * which a second pass strips.
   */
  lemma SanitizeNotIdempotent()
    ensures var name := seq(49, _ => 'a') + " b";
            SanitizedName(SanitizedName(name)) != SanitizedName(name)
  {
    var name := seq(49, _ => 'a') + " b";
    var replaced := ReplaceInvalid(name);
    assert replaced == name by {
      assert forall i :: 0 <= i < |name| ==> name[i] !in InvalidChars;
    }
    assert !Text.IsSpace(name[0]) && !Text.IsSpace(name[50]);
    Text.StripUnchanged(name);
    var once := SanitizedName(name);
    assert once == name[..50];
    assert once[49] == ' ';
    assert |ReplaceInvalid(once)| == 50;
    assert Text.IsSpace(ReplaceInvalid(once)[49]);
    assert |Text.Strip(ReplaceInvalid(once))| < 50;
  }

  /** Path(safe + ".json").stem: an empty name leaves the file ".json", whose stem is itself. */
  function Stem(safe: string): (r: string)
    ensures safe != "" ==> r == safe
  {
    if safe == "" then ".json" else safe
  }

  /** ConfigurationManager's profiles directory. */
  class ConfigurationManager {
    /** Sanitised name ↦ the profile saved under it. */
    var directory: map<string, ConfigurationProfile>

    constructor ()
      ensures directory == map[]
    {
      directory := map[];
    }

    /**
     * save_profile: the profile is validated first; a failure, or a failing
     * write (`writeError`), raises ConfigurationFileError and stores nothing.
     * Otherwise the profile, with its modification time set to `now`, is
     * stored under its sanitised name, replacing whatever was there.
     */
    method SaveProfile(profile: ConfigurationProfile, now: string, writeError: Option<string>)
      returns (r: Result<ConfigurationProfile, Exceptions.Error>)
      modifies this
      ensures Validate(profile.device).Some? ==>
                r == Failure(Exceptions.ConfigurationFile(profile.name, "save",
                                Some(Exceptions.ToString(Validate(profile.device).value))))
                && directory == old(directory)
      ensures Validate(profile.device).None? && writeError.Some? ==>
                r == Failure(Exceptions.ConfigurationFile(profile.name, "save", writeError))
                && directory == old(directory)
      ensures Validate(profile.device).None? && writeError.None? ==>
                r == Success(profile.(modifiedDate := now))
                && directory == old(directory)[SanitizedName(profile.name) := profile.(modifiedDate := now)]
      ensures r.Failure? ==> r.error.kind == Exceptions.ConfigurationFileError
    {
      var problem := Validate(profile.device);
      if problem.Some? {
        return Failure(Exceptions.ConfigurationFile(profile.name, "save", Some(Exceptions.ToString(problem.value))));
      }
      var saved := profile.(modifiedDate := now);
      var safeName := SanitizeFilename(profile.name);
      if writeError.Some? {
        return Failure(Exceptions.ConfigurationFile(profile.name, "save", writeError));
      }
      directory := directory[safeName := saved];
      return Success(saved);
    }

    /** load_profile: the profile stored under the sanitised name, or None. */
    method LoadProfile(name: string) returns (p: Option<ConfigurationProfile>)
      ensures var safe := SanitizedName(name);
              p == if safe in directory then Some(directory[safe]) else None
    {
      var safe := SanitizeFilename(name);
      if safe !in directory {
        return None;
      }
      return Some(directory[safe]);
    }

    /** delete_profile: True, and the file gone, exactly when it existed. */
    method DeleteProfile(name: string) returns (deleted: bool)
      modifies this
      ensures deleted <==> SanitizedName(name) in old(directory)
      ensures directory == old(directory) - {SanitizedName(name)}
    {
      var safe := SanitizeFilename(name);
      if safe in directory {
        directory := directory - {safe};
        return true;
      }
      return false;
    }

    /**
     * list_profiles: the stems of the profile files, collected in whatever
     * order the directory yields them and then sorted.
     */
    method ListProfiles() returns (names: seq<string>)
      ensures Sorting.SortedBy(names, Text.StrLe)
      ensures |names| == |directory.Keys|
      ensures forall n :: n in names <==> exists k :: k in directory && Stem(k) == n
    {
      var listing: seq<string> := [];
      var remaining := directory.Keys;
      while remaining != {}
        invariant remaining <= directory.Keys
        invariant |listing| + |remaining| == |directory.Keys|
        invariant forall n :: n in listing <==> exists k :: k in directory.Keys - remaining && Stem(k) == n
        decreases |remaining|
      {
        var k :| k in remaining;
        listing := listing + [Stem(k)];
        remaining := remaining - {k};
      }
      Text.StrLeTotal();
      Sorting.SortSorted(listing, Text.StrLe);
      Sorting.SortMembers(listing, Text.StrLe);
      names := Sorting.Sort(listing, Text.StrLe);
    }
  }

  /**
   * A valid profile that is written can be loaded back, by its own name, with
   * its new modification time; every other file of the directory is as before.
   */
  method SaveThenLoad(store: ConfigurationManager, profile: ConfigurationProfile, now: string)
    returns (saved: Result<ConfigurationProfile, Exceptions.Error>, loaded: Option<ConfigurationProfile>)
    requires Validate(profile.device).None?
    modifies store
    ensures saved == Success(profile.(modifiedDate := now))
    ensures loaded == Some(profile.(modifiedDate := now))
    ensures forall k :: k in old(store.directory) && k != SanitizedName(profile.name) ==>
              k in store.directory && store.directory[k] == old(store.directory)[k]
  {
    saved := store.SaveProfile(profile, now, None);
    loaded := store.LoadProfile(profile.name);
  }

  /** Names that differ only in invalid characters share one file. */
  lemma SanitizedNamesCollide()
    ensures SanitizedName("a/b") == SanitizedName("a?b") == "a_b"
  {
    assert ReplaceInvalid("a/b") == "a_b";
    assert ReplaceInvalid("a?b") == "a_b";
    Text.StripUnchanged("a_b");
  }
}

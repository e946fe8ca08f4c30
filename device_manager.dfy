// refactored/device_manager.py: temperature readings and their warnings,
// the connection state of one PlutoSDRDevice, and the PlutoSDRManager that
// discovers devices, connects to one and guards every operation on it.
//
// Everything the hardware does is a parameter: whether the pyadi-iio and
// libiio bindings are importable, whether opening and probing a URI raises
// (and with what text), what each discovery method returned, the sensor
// values read, and whether the loopback attribute exists.
module DeviceManager {
  import opened Wrappers
  import opened Values
  import Text
  import Exceptions

  // ---- DeviceInfo ---------------------------------------------------------

  datatype ConnectionType = Usb | Ip | Zeroconf | Auto

  datatype DeviceInfo = DeviceInfo(
    uri: string, connectionType: ConnectionType, ipAddress: Option<string>,
    serialNumber: Option<string>, firmwareVersion: Option<string>, hardwareRevision: Option<string>)

  /** DeviceInfo(uri=uri, connection_type=ConnectionType.AUTO). */
  function AutoInfo(uri: string): (d: DeviceInfo)
    ensures d.uri == uri && d.connectionType == Auto
  {
    DeviceInfo(uri, Auto, None, None, None, None)
  }

  // ---- temperature readings -----------------------------------------------

  /** TemperatureThresholds, in degrees Celsius. */
  const Ad9361Warning: real := 70.0
  const Ad9361Critical: real := 80.0
  const ZynqWarning: real := 75.0
  const ZynqCritical: real := 85.0

  datatype TemperatureReading = TemperatureReading(ad9361: Option<real>, zynq: Option<real>, timestamp: Option<real>)

  /** to_dict: one entry for each sensor that has a value. */
  function ToDict(t: TemperatureReading): (r: map<string, real>)
    ensures r.Keys <= {"ad9361", "zynq"}
    ensures ("ad9361" in r <==> t.ad9361.Some?) && ("zynq" in r <==> t.zynq.Some?)
    ensures t.ad9361.Some? ==> r["ad9361"] == t.ad9361.value
    ensures t.zynq.Some? ==> r["zynq"] == t.zynq.value
  {
    var withAd := if t.ad9361.Some? then map["ad9361" := t.ad9361.value] else map[];
    if t.zynq.Some? then withAd["zynq" := t.zynq.value] else withAd
  }

  datatype Sensor = Ad9361 | Zynq
  datatype Level = Critical | High

  /** A warning check_warnings reports, before it is rendered as text. */
  datatype Warning = Warning(sensor: Sensor, level: Level, temperature: real)

  function SensorLabel(s: Sensor): string
  {
    match s
    case Ad9361 => "AD9361"
    case Zynq => "Zynq"
  }

  function LevelWord(l: Level): string
  {
    match l
    case Critical => "critical"
    case High => "high"
  }

  /** f"{label} temperature {critical|high}: {t:.1f}°C". */
  function Message(w: Warning): (r: string)
    ensures Text.IsPrefix(SensorLabel(w.sensor) + " temperature " + LevelWord(w.level) + ": ", r)
  {
    var head := SensorLabel(w.sensor) + " temperature " + LevelWord(w.level) + ": ";
    var r := head + Text.FormatFixed(w.temperature, 1) + "°C";
    assert r[..|head|] == head;
    r
  }

  /** One sensor's contribution: critical above `critical`, else high above `warning`. */
  function SensorWarning(s: Sensor, t: Option<real>, warning: real, critical: real): seq<Warning>
  {
    if t.None? then []
    else if t.value > critical then [Warning(s, Critical, t.value)]
    else if t.value > warning then [Warning(s, High, t.value)]
    else []
  }

  /** check_warnings, as the warnings it reports in order. */
  function CheckWarnings(t: TemperatureReading): (ws: seq<Warning>)
    ensures |ws| <= 2
  {
    SensorWarning(Ad9361, t.ad9361, Ad9361Warning, Ad9361Critical)
      + SensorWarning(Zynq, t.zynq, ZynqWarning, ZynqCritical)
  }

  /** check_warnings, as the list of strings it returns. */
  function CheckWarningMessages(t: TemperatureReading): (r: seq<string>)
    ensures |r| == |CheckWarnings(t)|
    ensures forall i :: 0 <= i < |r| ==> r[i] == Message(CheckWarnings(t)[i])
  {
    var ws := CheckWarnings(t);
    seq(|ws|, i requires 0 <= i < |ws| => Message(ws[i]))
  }

  /** The warning reported for one present sensor, if any, and its level. */
  lemma SensorWarningClassifies(s: Sensor, t: Option<real>, warning: real, critical: real)
    requires warning < critical
    ensures |SensorWarning(s, t, warning, critical)| <= 1
    ensures |SensorWarning(s, t, warning, critical)| == 1 <==> t.Some? && t.value > warning
    ensures forall w :: w in SensorWarning(s, t, warning, critical) ==>
              w.sensor == s && w.temperature == t.value && (w.level == Critical <==> t.value > critical)
  {
  }

  /**
   * check_warnings reports at most one message per sensor, the AD9361 one
   * first; a sensor is reported exactly when it is present and above its
   * warning threshold, and as critical exactly when above its critical one.
   */
  lemma CheckWarningsClassify(t: TemperatureReading)
    ensures |CheckWarnings(t)| <= 2
    ensures forall i, j :: 0 <= i < j < |CheckWarnings(t)| ==>
              CheckWarnings(t)[i].sensor == Ad9361 && CheckWarnings(t)[j].sensor == Zynq
    ensures (exists w :: w in CheckWarnings(t) && w.sensor == Ad9361) <==> t.ad9361.Some? && t.ad9361.value > Ad9361Warning
    ensures (exists w :: w in CheckWarnings(t) && w.sensor == Zynq) <==> t.zynq.Some? && t.zynq.value > ZynqWarning
    ensures forall w :: w in CheckWarnings(t) && w.sensor == Ad9361 ==>
              w.temperature == t.ad9361.value && (w.level == Critical <==> w.temperature > Ad9361Critical)
    ensures forall w :: w in CheckWarnings(t) && w.sensor == Zynq ==>
              w.temperature == t.zynq.value && (w.level == Critical <==> w.temperature > ZynqCritical)
  {
    var a := SensorWarning(Ad9361, t.ad9361, Ad9361Warning, Ad9361Critical);
    var z := SensorWarning(Zynq, t.zynq, ZynqWarning, ZynqCritical);
    SensorWarningClassifies(Ad9361, t.ad9361, Ad9361Warning, Ad9361Critical);
    SensorWarningClassifies(Zynq, t.zynq, ZynqWarning, ZynqCritical);
    assert CheckWarnings(t) == a + z;
    assert forall w :: w in a + z <==> w in a || w in z;
  }

  /** The first critical warning, in report order. */
  function FirstCritical(ws: seq<Warning>): (r: Option<Warning>)
    ensures r.Some? ==> r.value in ws && r.value.level == Critical
  {
    if ws == [] then None
    else if ws[0].level == Critical then Some(ws[0])
    else FirstCritical(ws[1..])
  }

  lemma {:induction false} FirstCriticalIsFirst(ws: seq<Warning>)
    ensures FirstCritical(ws).None? <==> forall i :: 0 <= i < |ws| ==> ws[i].level == High
    ensures FirstCritical(ws).Some? ==>
              exists i :: 0 <= i < |ws| && ws[i] == FirstCritical(ws).value && ws[i].level == Critical
                          && forall j :: 0 <= j < i ==> ws[j].level == High
  {
    if ws != [] && ws[0].level != Critical {
      FirstCriticalIsFirst(ws[1..]);
      if FirstCritical(ws).Some? {
        var i :| 0 <= i < |ws[1..]| && ws[1..][i] == FirstCritical(ws[1..]).value && ws[1..][i].level == Critical
                 && forall j :: 0 <= j < i ==> ws[1..][j].level == High;
        assert ws[i + 1] == FirstCritical(ws).value;
      }
    }
  }

  /**
   * The OvertemperatureError get_temperatures raises for a reading: the first
   * critical warning decides the sensor, reported with its critical threshold.
   */
  function OvertemperatureCheck(t: TemperatureReading): (r: Option<Exceptions.Error>)
    ensures r.Some? ==> r.value.kind == Exceptions.OvertemperatureError
  {
    match FirstCritical(CheckWarnings(t))
    case None => None
    case Some(w) =>
      if w.sensor == Ad9361 then Some(Exceptions.Overtemperature("AD9361", w.temperature, Ad9361Critical))
      else Some(Exceptions.Overtemperature("Zynq", w.temperature, ZynqCritical))
  }

  /**
   * A reading has a critical warning exactly when some sensor is above its
   * critical threshold, and a critical AD9361 is the one reported first.
   */
  lemma FirstCriticalSensor(t: TemperatureReading)
    ensures FirstCritical(CheckWarnings(t)).Some? <==>
              (t.ad9361.Some? && t.ad9361.value > Ad9361Critical) || (t.zynq.Some? && t.zynq.value > ZynqCritical)
    ensures t.ad9361.Some? && t.ad9361.value > Ad9361Critical ==>
              FirstCritical(CheckWarnings(t)) == Some(Warning(Ad9361, Critical, t.ad9361.value))
    ensures !(t.ad9361.Some? && t.ad9361.value > Ad9361Critical) && t.zynq.Some? && t.zynq.value > ZynqCritical ==>
              FirstCritical(CheckWarnings(t)) == Some(Warning(Zynq, Critical, t.zynq.value))
  {
    var a := SensorWarning(Ad9361, t.ad9361, Ad9361Warning, Ad9361Critical);
    var z := SensorWarning(Zynq, t.zynq, ZynqWarning, ZynqCritical);
    assert CheckWarnings(t) == a + z;
    FirstCriticalOfSensor(Zynq, t.zynq, ZynqWarning, ZynqCritical);
    if a != [] && a[0].level == Critical {
      assert (a + z)[0] == a[0];
    } else if a != [] {
      assert (a + z)[0] == a[0];
      assert (a + z)[1..] == z;
      assert FirstCritical(a + z) == FirstCritical(z);
    } else {
      assert a + z == z;
    }
  }

  /** One sensor's warning is critical exactly when it is above its critical threshold. */
  lemma FirstCriticalOfSensor(s: Sensor, t: Option<real>, warning: real, critical: real)
    ensures FirstCritical(SensorWarning(s, t, warning, critical)).Some? <==> t.Some? && t.value > critical
    ensures t.Some? && t.value > critical ==> FirstCritical(SensorWarning(s, t, warning, critical)) == Some(Warning(s, Critical, t.value))
  {
    var w := SensorWarning(s, t, warning, critical);
    if w != [] {
      assert w[1..] == [];
    }
  }

  /** get_temperatures raises for the AD9361 whenever it is critical, whatever the Zynq reads. */
  lemma OvertemperaturePrefersAd9361(t: TemperatureReading)
    requires t.ad9361.Some? && t.ad9361.value > Ad9361Critical
    ensures OvertemperatureCheck(t) == Some(Exceptions.Overtemperature("AD9361", t.ad9361.value, Ad9361Critical))
  {
    FirstCriticalSensor(t);
  }

  /** A reading with no critical sensor raises nothing. */
  lemma OvertemperatureNeedsCritical(t: TemperatureReading)
    requires !(t.ad9361.Some? && t.ad9361.value > Ad9361Critical) && !(t.zynq.Some? && t.zynq.value > ZynqCritical)
    ensures OvertemperatureCheck(t).None?
  {
    FirstCriticalSensor(t);
  }

  // ---- a device's connection state ----------------------------------------

  /** The objects a connection holds: the adi.Pluto object and the two iio devices. */
  datatype Handle = PlutoHandle(uri: string) | IioDevice(uri: string, name: string)

  /** The reason connect gives when pyadi-iio cannot be imported. */
  const AdiMissing := "PyADI-IIO not available"
  /** The iio devices a connection looks up for receive and transmit. */
  const RxDeviceName := "cf-ad9361-lpc"
  const TxDeviceName := "cf-ad9361-dds-core-lpc"

  /** One named device attribute with the value configure_basic_settings validates and writes. */
  datatype Step = Step(attribute: string, value: Number, passes: bool)

  /** The optional keyword arguments of configure_basic_settings. */
  datatype Settings = Settings(
    rxLo: Option<Number>, txLo: Option<Number>, sampleRate: Option<Number>, rxBandwidth: Option<Number>,
    txBandwidth: Option<Number>, rxGain: Option<Number>, txGain: Option<Number>)

  /** The hardware attributes configure_basic_settings writes, in the order it handles them. */
  const AttributeNames: seq<string> := ["rx_lo", "tx_lo", "sample_rate", "rx_rf_bandwidth", "tx_rf_bandwidth",
                                       "rx_hardwaregain_chan0", "tx_hardwaregain_chan0"]

  function SettingValues(s: Settings): (r: seq<Option<Number>>)
    ensures |r| == |AttributeNames|
  {
    [s.rxLo, s.txLo, s.sampleRate, s.rxBandwidth, s.txBandwidth, s.rxGain, s.txGain]
  }

  predicate Within(v: Number, lo: Number, hi: Number)
  {
    lo.Value() <= v.Value() <= hi.Value()
  }

  /** The range configure_basic_settings' validator accepts for an attribute. */
  predicate Validates(attribute: string, v: Number)
  {
    if attribute == "rx_lo" || attribute == "tx_lo" then Within(v, FloatNum(70000000.0), FloatNum(6000000000.0))
    else if attribute == "rx_hardwaregain_chan0" then Within(v, IntNum(0), IntNum(76))
    else if attribute == "tx_hardwaregain_chan0" then Within(v, IntNum(-89), IntNum(0))
    else Within(v, FloatNum(1000000.0), FloatNum(61000000.0))
  }

  /**
   * A value passes exactly when the validator configure_basic_settings calls
   * for its attribute raises nothing: validate_frequency for the oscillators,
   * validate_gain for the gains, validate_sample_rate for the rate and the
   * bandwidths.
   */
  lemma ValidatesIsValidator(attribute: string, v: Number)
    ensures attribute == "rx_lo" || attribute == "tx_lo" ==>
              (Validates(attribute, v) <==> Exceptions.ValidateFrequency(v, FloatNum(70000000.0), FloatNum(6000000000.0)).None?)
    ensures attribute == "rx_hardwaregain_chan0" ==>
              (Validates(attribute, v) <==> Exceptions.ValidateGain(v, IntNum(0), IntNum(76), "RX").None?)
    ensures attribute == "tx_hardwaregain_chan0" ==>
              (Validates(attribute, v) <==> Exceptions.ValidateGain(v, IntNum(-89), IntNum(0), "TX").None?)
    ensures attribute == "sample_rate" || attribute == "rx_rf_bandwidth" || attribute == "tx_rf_bandwidth" ==>
              (Validates(attribute, v) <==> Exceptions.ValidateSampleRate(v, FloatNum(1000000.0), FloatNum(61000000.0)).None?)
  {
    if attribute == "rx_lo" || attribute == "tx_lo" {
      FrequencyWithin(v);
    } else if attribute == "rx_hardwaregain_chan0" {
      GainWithin(v, IntNum(0), IntNum(76), "RX");
    } else if attribute == "tx_hardwaregain_chan0" {
      GainWithin(v, IntNum(-89), IntNum(0), "TX");
    } else {
      SampleRateWithin(v);
    }
  }

  lemma FrequencyWithin(v: Number)
    ensures Within(v, FloatNum(70000000.0), FloatNum(6000000000.0))
            <==> Exceptions.ValidateFrequency(v, FloatNum(70000000.0), FloatNum(6000000000.0)).None?
  {
  }

  lemma GainWithin(v: Number, lo: Number, hi: Number, kind: string)
    ensures Within(v, lo, hi) <==> Exceptions.ValidateGain(v, lo, hi, kind).None?
  {
  }

  lemma SampleRateWithin(v: Number)
    ensures Within(v, FloatNum(1000000.0), FloatNum(61000000.0))
            <==> Exceptions.ValidateSampleRate(v, FloatNum(1000000.0), FloatNum(61000000.0)).None?
  {
  }

  /** The steps for the given values, in order; absent ones are skipped. */
  function Pending(names: seq<string>, values: seq<Option<Number>>): (r: seq<Step>)
    requires |names| == |values|
  {
    if names == [] then []
    else if values[0].None? then Pending(names[1..], values[1..])
    else [Step(names[0], values[0].value, Validates(names[0], values[0].value))] + Pending(names[1..], values[1..])
  }

  /** The given settings in the order configure_basic_settings validates them. */
  function Steps(s: Settings): seq<Step>
  {
    Pending(AttributeNames, SettingValues(s))
  }

  predicate DistinctNames(names: seq<string>)
  {
    forall i, j :: 0 <= i < j < |names| ==> names[i] != names[j]
  }

  /** Pending on a non-empty input, one step at a time. */
  lemma PendingStep(names: seq<string>, values: seq<Option<Number>>)
    requires |names| == |values| && names != []
    ensures values[0].None? ==> Pending(names, values) == Pending(names[1..], values[1..])
    ensures values[0].Some? ==>
              Pending(names, values) == [Step(names[0], values[0].value, Validates(names[0], values[0].value))] + Pending(names[1..], values[1..])
  {
  }

  /** The given value at position `i` has its step. */
  lemma {:induction false} PendingCoversAt(names: seq<string>, values: seq<Option<Number>>, i: nat)
    requires |names| == |values| && i < |values| && values[i].Some?
    ensures Step(names[i], values[i].value, Validates(names[i], values[i].value)) in Pending(names, values)
    decreases i
  {
    PendingStep(names, values);
    if i > 0 {
      var st := Step(names[i], values[i].value, Validates(names[i], values[i].value));
      var tail := Pending(names[1..], values[1..]);
      assert names[1..][i - 1] == names[i] && values[1..][i - 1] == values[i];
      PendingCoversAt(names[1..], values[1..], i - 1);
      assert st in tail;
      assert Pending(names, values) == tail || Pending(names, values) == [Pending(names, values)[0]] + tail;
    }
  }

  /** Each given value has its step. */
  lemma PendingCovers(names: seq<string>, values: seq<Option<Number>>)
    requires |names| == |values|
    ensures forall i :: 0 <= i < |values| && values[i].Some? ==>
              Step(names[i], values[i].value, Validates(names[i], values[i].value)) in Pending(names, values)
  {
    forall i | 0 <= i < |values| && values[i].Some?
      ensures Step(names[i], values[i].value, Validates(names[i], values[i].value)) in Pending(names, values)
    {
      PendingCoversAt(names, values, i);
    }
  }

  /** Every step names one of the attributes. */
  lemma {:induction false} PendingNames(names: seq<string>, values: seq<Option<Number>>)
    requires |names| == |values|
    ensures forall st :: st in Pending(names, values) ==> st.attribute in names
  {
    if names != [] {
      PendingNames(names[1..], values[1..]);
      PendingStep(names, values);
      assert forall x :: x in names[1..] ==> x in names;
    }
  }

  /** No two steps write the same attribute. */
  predicate DistinctAttributes(steps: seq<Step>)
  {
    forall k, l :: 0 <= k < l < |steps| ==> steps[k].attribute != steps[l].attribute
  }

  /** The tail of distinct names is distinct, and misses the head. */
  lemma DistinctNamesTail(names: seq<string>)
    requires names != [] && DistinctNames(names)
    ensures DistinctNames(names[1..]) && names[0] !in names[1..]
  {
    assert forall i :: 0 <= i < |names[1..]| ==> names[1..][i] == names[i + 1];
  }

  /** A step for a fresh attribute keeps the attributes distinct. */
  lemma DistinctAttributesCons(st: Step, rest: seq<Step>)
    requires DistinctAttributes(rest) && forall x :: x in rest ==> x.attribute != st.attribute
    ensures DistinctAttributes([st] + rest)
  {
    var all := [st] + rest;
    forall k, l | 0 <= k < l < |all|
      ensures all[k].attribute != all[l].attribute
    {
      assert all[l] == rest[l - 1];
      if k > 0 {
        assert all[k] == rest[k - 1];
      } else {
        assert rest[l - 1] in rest;
      }
    }
  }

  /** Distinct names give steps with distinct attributes. */
  lemma {:induction false} PendingDistinct(names: seq<string>, values: seq<Option<Number>>)
    requires |names| == |values| && DistinctNames(names)
    ensures DistinctAttributes(Pending(names, values))
  {
    if names != [] {
      DistinctNamesTail(names);
      PendingDistinct(names[1..], values[1..]);
      PendingNames(names[1..], values[1..]);
      PendingStep(names, values);
      if values[0].Some? {
        DistinctAttributesCons(Step(names[0], values[0].value, Validates(names[0], values[0].value)), Pending(names[1..], values[1..]));
      }
    }
  }

  lemma AttributeNamesDistinct()
    ensures DistinctNames(AttributeNames)
  {
  }

  predicate AllPass(steps: seq<Step>)
  {
    forall i :: 0 <= i < |steps| ==> steps[i].passes
  }

  /** No step writes one of the `refused` attributes, whose hardware writes raise. */
  predicate Accepted(steps: seq<Step>, refused: set<string>)
  {
    forall i :: 0 <= i < |steps| ==> steps[i].attribute !in refused
  }

  /** Whether configure_basic_settings gets through every step: all validate and every write is accepted. */
  predicate Completes(steps: seq<Step>, refused: set<string>)
  {
    AllPass(steps) && Accepted(steps, refused)
  }

  /**
   * The attributes after writing each step in turn, stopping at the first
   * that fails validation or whose write the device refuses.
   */
  function Written(attrs: map<string, Number>, steps: seq<Step>, refused: set<string>): (r: map<string, Number>)
    ensures forall a :: a in attrs ==> a in r
    ensures r == attrs <== steps == [] || !steps[0].passes || steps[0].attribute in refused
    decreases |steps|
  {
    if steps == [] || !steps[0].passes || steps[0].attribute in refused then attrs
    else Written(attrs[steps[0].attribute := steps[0].value], steps[1..], refused)
  }

  /** When every step passes and is accepted, each attribute ends up holding the value of its last step. */
  lemma {:induction false} WrittenAllPass(attrs: map<string, Number>, steps: seq<Step>, refused: set<string>)
    requires Completes(steps, refused)
    ensures forall i :: 0 <= i < |steps| && (forall j :: i < j < |steps| ==> steps[j].attribute != steps[i].attribute) ==>
              steps[i].attribute in Written(attrs, steps, refused)
              && Written(attrs, steps, refused)[steps[i].attribute] == steps[i].value
    decreases |steps|
  {
    if steps != [] {
      var rest := attrs[steps[0].attribute := steps[0].value];
      assert Completes(steps[1..], refused) by {
        assert forall j :: 0 <= j < |steps[1..]| ==> steps[1..][j] == steps[j + 1];
      }
      WrittenAllPass(rest, steps[1..], refused);
      forall i | 0 <= i < |steps| && (forall j :: i < j < |steps| ==> steps[j].attribute != steps[i].attribute)
        ensures steps[i].attribute in Written(attrs, steps, refused)
                && Written(attrs, steps, refused)[steps[i].attribute] == steps[i].value
      {
        if i > 0 {
          assert steps[1..][i - 1] == steps[i];
          assert forall j :: i - 1 < j < |steps[1..]| ==> steps[1..][j] == steps[j + 1];
        } else {
          WrittenSkips(rest, steps[1..], refused, steps[0].attribute);
        }
      }
    }
  }

  /** An attribute that no step names keeps its value. */
  lemma {:induction false} WrittenSkips(attrs: map<string, Number>, steps: seq<Step>, refused: set<string>, k: string)
    requires forall j :: 0 <= j < |steps| ==> steps[j].attribute != k
    ensures (k in Written(attrs, steps, refused) <==> k in attrs)
    ensures k in attrs ==> Written(attrs, steps, refused)[k] == attrs[k]
    decreases |steps|
  {
    if steps != [] && steps[0].passes && steps[0].attribute !in refused {
      assert forall j :: 0 <= j < |steps[1..]| ==> steps[1..][j] == steps[j + 1];
      WrittenSkips(attrs[steps[0].attribute := steps[0].value], steps[1..], refused, k);
    }
  }

  /** Nothing at or after the first step that fails validation or whose write is refused is written. */
  lemma {:induction false} WrittenStopsAtFailure(attrs: map<string, Number>, steps: seq<Step>, refused: set<string>, i: nat, k: string)
    requires i < |steps| && (!steps[i].passes || steps[i].attribute in refused)
    requires forall j :: 0 <= j < i ==> steps[j].attribute != k
    ensures (k in Written(attrs, steps, refused) <==> k in attrs)
    ensures k in attrs ==> Written(attrs, steps, refused)[k] == attrs[k]
    decreases i
  {
    if steps[0].passes && steps[0].attribute !in refused {
      assert steps[1..][i - 1] == steps[i];
      assert forall j :: 0 <= j < i - 1 ==> steps[1..][j] == steps[j + 1];
      WrittenStopsAtFailure(attrs[steps[0].attribute := steps[0].value], steps[1..], refused, i - 1, k);
    }
  }

  /**
   * When every given setting passes validation and the device accepts every
   * write, each of them is written to its attribute with the value given.
   */
  lemma ConfigureStoresAll(s: Settings, attrs: map<string, Number>, refused: set<string>)
    requires Completes(Steps(s), refused)
    ensures forall i :: 0 <= i < |AttributeNames| && SettingValues(s)[i].Some? ==>
              AttributeNames[i] in Written(attrs, Steps(s), refused)
              && Written(attrs, Steps(s), refused)[AttributeNames[i]] == SettingValues(s)[i].value
  {
    AttributeNamesDistinct();
    PendingCovers(AttributeNames, SettingValues(s));
    PendingDistinct(AttributeNames, SettingValues(s));
    WrittenAllPass(attrs, Steps(s), refused);
    forall i | 0 <= i < |AttributeNames| && SettingValues(s)[i].Some?
      ensures AttributeNames[i] in Written(attrs, Steps(s), refused)
              && Written(attrs, Steps(s), refused)[AttributeNames[i]] == SettingValues(s)[i].value
    {
      var st := Step(AttributeNames[i], SettingValues(s)[i].value, Validates(AttributeNames[i], SettingValues(s)[i].value));
      var k :| 0 <= k < |Steps(s)| && Steps(s)[k] == st;
    }
  }

  // ---- _update_device_info ---------------------------------------------------

  /** The DeviceInfo fields an IIO context attribute can fill. */
  datatype InfoField = Firmware | Serial | HardwareModel

  /**
   * The field a context attribute fills: the first of 'fw_version', 'serial'
   * and 'hw_model' its lower-cased name contains, or none.
   */
  function FieldOf(name: string): (f: Option<InfoField>)
    ensures f == Some(Firmware) <==> Text.Contains(Text.Lower(name), "fw_version")
    ensures f == Some(Serial) ==> Text.Contains(Text.Lower(name), "serial")
    ensures f == Some(HardwareModel) ==> Text.Contains(Text.Lower(name), "hw_model")
    ensures f.None? <==> !Text.Contains(Text.Lower(name), "fw_version") && !Text.Contains(Text.Lower(name), "serial")
                         && !Text.Contains(Text.Lower(name), "hw_model")
  {
    var lower := Text.Lower(name);
    if Text.Contains(lower, "fw_version") then Some(Firmware)
    else if Text.Contains(lower, "serial") then Some(Serial)
    else if Text.Contains(lower, "hw_model") then Some(HardwareModel)
    else None
  }

  function Field(info: DeviceInfo, f: InfoField): Option<string>
  {
    match f
    case Firmware => info.firmwareVersion
    case Serial => info.serialNumber
    case HardwareModel => info.hardwareRevision
  }

  function WithField(info: DeviceInfo, f: InfoField, value: string): (r: DeviceInfo)
    ensures Field(r, f) == Some(value)
    ensures forall g :: g != f ==> Field(r, g) == Field(info, g)
    ensures r.uri == info.uri && r.connectionType == info.connectionType && r.ipAddress == info.ipAddress
  {
    match f
    case Firmware => info.(firmwareVersion := Some(value))
    case Serial => info.(serialNumber := Some(value))
    case HardwareModel => info.(hardwareRevision := Some(value))
  }

  /** The device info after the context attributes (name, value) are applied in order. */
  function UpdatedInfo(info: DeviceInfo, attrs: seq<(string, string)>): (r: DeviceInfo)
    ensures r.uri == info.uri && r.connectionType == info.connectionType && r.ipAddress == info.ipAddress
    decreases |attrs|
  {
    if attrs == [] then info
    else
      var prior := UpdatedInfo(info, attrs[..|attrs| - 1]);
      var last := attrs[|attrs| - 1];
      match FieldOf(last.0)
      case None => prior
      case Some(f) => WithField(prior, f, last.1)
  }

  /** A field that no context attribute fills keeps its old value. */
  lemma {:induction false} UpdatedInfoKeeps(info: DeviceInfo, attrs: seq<(string, string)>, f: InfoField)
    requires forall k :: 0 <= k < |attrs| ==> FieldOf(attrs[k].0) != Some(f)
    ensures Field(UpdatedInfo(info, attrs), f) == Field(info, f)
    decreases |attrs|
  {
    if attrs != [] {
      var n := |attrs| - 1;
      assert forall j :: 0 <= j < n ==> attrs[..n][j] == attrs[j];
      UpdatedInfoKeeps(info, attrs[..n], f);
    }
  }

  /** A field ends up holding the value of the last context attribute that fills it. */
  lemma {:induction false} UpdatedInfoLastWins(info: DeviceInfo, attrs: seq<(string, string)>, f: InfoField, k: nat)
    requires k < |attrs| && FieldOf(attrs[k].0) == Some(f)
    requires forall j :: k < j < |attrs| ==> FieldOf(attrs[j].0) != Some(f)
    ensures Field(UpdatedInfo(info, attrs), f) == Some(attrs[k].1)
    decreases |attrs|
  {
    var n := |attrs| - 1;
    if k < n {
      var front := attrs[..n];
      assert front[k] == attrs[k];
      assert forall j :: k < j < n ==> front[j] == attrs[j];
      UpdatedInfoLastWins(info, front, f, k);
      assert FieldOf(attrs[n].0) != Some(f);
    }
  }

  /** PlutoSDRDevice: a device's handles and connection flag. */
  class PlutoSDRDevice {
    var info: DeviceInfo
    var sdr: Option<Handle>
    var rxDevice: Option<Handle>
    var txDevice: Option<Handle>
    var connectedFlag: bool
    /** The values written to the adi.Pluto object's attributes. */
    var attributes: map<string, Number>
    var lastReading: Option<TemperatureReading>

    constructor (deviceInfo: DeviceInfo)
      ensures info == deviceInfo && Cleared() && attributes == map[] && lastReading.None?
    {
      info := deviceInfo;
      sdr := None;
      rxDevice := None;
      txDevice := None;
      connectedFlag := false;
      attributes := map[];
      lastReading := None;
    }

    /** is_connected. */
    predicate IsConnected()
      reads this
    {
      connectedFlag && sdr.Some?
    }

    /** Every handle cleared and the flag down, as disconnect and a failed connect leave them. */
    predicate Cleared()
      reads this
    {
      sdr.None? && rxDevice.None? && txDevice.None? && !connectedFlag
    }

    /**
     * The body of connect, before the handle_device_error decorator.
     * `adiAvailable` and `iioAvailable` say whether the bindings imported;
     * `probe` is None when opening the URI and reading rx_lo succeed, and
     * otherwise the text of the exception raised.
     */
    method ConnectBody(adiAvailable: bool, iioAvailable: bool, probe: Option<string>, contextAttrs: seq<(string, string)>)
      returns (r: Result<bool, Exceptions.Error>)
      modifies this
      ensures attributes == old(attributes) && lastReading == old(lastReading)
      ensures !old(IsConnected()) && adiAvailable && probe.None? ==> info == UpdatedInfo(old(info), contextAttrs)
      ensures old(IsConnected()) || !adiAvailable || probe.Some? ==> info == old(info)
      ensures old(IsConnected()) ==> r == Success(true)
      ensures !old(IsConnected()) && !adiAvailable ==> r == Failure(Exceptions.DeviceConnection(info.uri, Some(AdiMissing)))
      ensures !old(IsConnected()) && adiAvailable && probe.Some? ==> r == Failure(Exceptions.DeviceConnection(info.uri, probe))
      ensures !old(IsConnected()) && adiAvailable && probe.None? ==> r == Success(true)
      ensures old(IsConnected()) || !adiAvailable ==>
                sdr == old(sdr) && rxDevice == old(rxDevice) && txDevice == old(txDevice) && connectedFlag == old(connectedFlag)
      ensures !old(IsConnected()) && adiAvailable && probe.Some? ==> Cleared()
      ensures !old(IsConnected()) && adiAvailable && probe.None? ==>
                connectedFlag && sdr == Some(PlutoHandle(info.uri))
                && rxDevice == (if iioAvailable then Some(IioDevice(info.uri, RxDeviceName)) else old(rxDevice))
                && txDevice == (if iioAvailable then Some(IioDevice(info.uri, TxDeviceName)) else old(txDevice))
    {
      if IsConnected() {
        return Success(true);
      }
      if !adiAvailable {
        return Failure(Exceptions.DeviceConnection(info.uri, Some(AdiMissing)));
      }
      sdr := Some(PlutoHandle(info.uri));
      if iioAvailable {
        rxDevice := Some(IioDevice(info.uri, RxDeviceName));
        txDevice := Some(IioDevice(info.uri, TxDeviceName));
      }
      if probe.Some? {
        sdr, rxDevice, txDevice, connectedFlag := None, None, None, false;
        return Failure(Exceptions.DeviceConnection(info.uri, probe));
      }
      connectedFlag := true;
      UpdateDeviceInfo(contextAttrs);
      r := Success(true);
    }

    /**
     * _update_device_info on the attributes of the device's IIO context, in
     * order: each fills the field its name selects, so a later attribute
     * overrides an earlier one.  Nothing changes while not connected.
     */
    method UpdateDeviceInfo(contextAttrs: seq<(string, string)>)
      modifies this
      ensures info == if old(IsConnected()) then UpdatedInfo(old(info), contextAttrs) else old(info)
      ensures sdr == old(sdr) && rxDevice == old(rxDevice) && txDevice == old(txDevice) && connectedFlag == old(connectedFlag)
      ensures attributes == old(attributes) && lastReading == old(lastReading)
    {
      if !IsConnected() {
        return;
      }
      var i := 0;
      while i < |contextAttrs|
        invariant 0 <= i <= |contextAttrs|
        invariant info == UpdatedInfo(old(info), contextAttrs[..i])
        invariant sdr == old(sdr) && rxDevice == old(rxDevice) && txDevice == old(txDevice) && connectedFlag == old(connectedFlag)
        invariant attributes == old(attributes) && lastReading == old(lastReading)
      {
        var (name, value) := contextAttrs[i];
        var lower := Text.Lower(name);
        if Text.Contains(lower, "fw_version") {
          info := info.(firmwareVersion := Some(value));
        } else if Text.Contains(lower, "serial") {
          info := info.(serialNumber := Some(value));
        } else if Text.Contains(lower, "hw_model") {
          info := info.(hardwareRevision := Some(value));
        }
        assert contextAttrs[..i + 1][..i] == contextAttrs[..i];
        i := i + 1;
      }
      assert contextAttrs[..i] == contextAttrs;
    }

    /**
     * connect as callers see it: the body under handle_device_error, which
     * re-raises the body's exception by the text of its str().
     */
    method Connect(adiAvailable: bool, iioAvailable: bool, probe: Option<string>, contextAttrs: seq<(string, string)>)
      returns (r: Result<bool, Exceptions.Error>)
      modifies this
      ensures attributes == old(attributes) && lastReading == old(lastReading)
      ensures r.Success? && !old(IsConnected()) ==> info == UpdatedInfo(old(info), contextAttrs)
      ensures r.Failure? || old(IsConnected()) ==> info == old(info)
      ensures r.Success? <==> old(IsConnected()) || (adiAvailable && probe.None?)
      ensures r.Success? ==> r.value && IsConnected()
      ensures r.Failure? ==> Exceptions.IsA(r.error.kind, Exceptions.DeviceError)
      ensures old(IsConnected()) || !adiAvailable ==>
                sdr == old(sdr) && rxDevice == old(rxDevice) && txDevice == old(txDevice) && connectedFlag == old(connectedFlag)
      ensures !old(IsConnected()) && adiAvailable && probe.Some? ==> Cleared()
      ensures !old(IsConnected()) && adiAvailable && probe.None? ==>
                sdr == Some(PlutoHandle(info.uri))
                && rxDevice == (if iioAvailable then Some(IioDevice(info.uri, RxDeviceName)) else old(rxDevice))
                && txDevice == (if iioAvailable then Some(IioDevice(info.uri, TxDeviceName)) else old(txDevice))
    {
      var raised := ConnectBody(adiAvailable, iioAvailable, probe, contextAttrs);
      if raised.Failure? {
        var text := Exceptions.ToString(raised.error);
        Exceptions.HandleDeviceErrorIsDeviceError<bool>(Failure(text));
        r := Exceptions.HandleDeviceError(Failure(text));
      } else {
        r := raised;
      }
    }

    /** disconnect: clears everything when connected, and otherwise does nothing. */
    method Disconnect()
      modifies this
      ensures info == old(info) && attributes == old(attributes) && lastReading == old(lastReading)
      ensures old(IsConnected()) ==> Cleared()
      ensures !old(IsConnected()) ==>
                sdr == old(sdr) && rxDevice == old(rxDevice) && txDevice == old(txDevice) && connectedFlag == old(connectedFlag)
      ensures !IsConnected()
    {
      if IsConnected() {
        sdr := None;
        rxDevice := None;
        txDevice := None;
        connectedFlag := false;
      }
    }

    /**
     * configure_basic_settings: raises when not connected; otherwise writes
     * the given settings in order and returns False at the first one that
     * fails validation or whose write the device refuses (one of `refused`),
     * after the earlier ones have been written.
     */
    method ConfigureBasicSettings(s: Settings, refused: set<string>) returns (r: Result<bool, Exceptions.Error>)
      modifies this
      ensures info == old(info) && sdr == old(sdr) && rxDevice == old(rxDevice) && txDevice == old(txDevice)
      ensures connectedFlag == old(connectedFlag) && lastReading == old(lastReading)
      ensures !IsConnected() ==>
                r == Failure(Exceptions.DeviceNotConnected(Some("configure_basic_settings"))) && attributes == old(attributes)
      ensures IsConnected() ==>
                r == Success(Completes(Steps(s), refused)) && attributes == Written(old(attributes), Steps(s), refused)
    {
      if !IsConnected() {
        return Failure(Exceptions.DeviceNotConnected(Some("configure_basic_settings")));
      }
      var steps := Steps(s);
      attributes := Written(attributes, steps, refused);
      r := Success(Completes(steps, refused));
    }

    /**
     * get_temperatures on a reading taken from the sensors: raises when not
     * connected; otherwise records the reading and raises OvertemperatureError
     * for the first critical warning.
     */
    method GetTemperatures(reading: TemperatureReading) returns (r: Result<TemperatureReading, Exceptions.Error>)
      modifies this
      ensures info == old(info) && sdr == old(sdr) && rxDevice == old(rxDevice) && txDevice == old(txDevice)
      ensures connectedFlag == old(connectedFlag) && attributes == old(attributes)
      ensures !IsConnected() ==>
                r == Failure(Exceptions.DeviceNotConnected(Some("get_temperatures"))) && lastReading == old(lastReading)
      ensures IsConnected() ==> lastReading == Some(reading)
      ensures IsConnected() && OvertemperatureCheck(reading).Some? ==> r == Failure(OvertemperatureCheck(reading).value)
      ensures IsConnected() && OvertemperatureCheck(reading).None? ==> r == Success(reading)
    {
      if !IsConnected() {
        return Failure(Exceptions.DeviceNotConnected(Some("get_temperatures")));
      }
      lastReading := Some(reading);
      var check := OvertemperatureCheck(reading);
      if check.Some? {
        return Failure(check.value);
      }
      r := Success(reading);
    }

    /** set_loopback_mode: raises when not connected, else reports whether the attribute exists. */
    method SetLoopbackMode(enable: bool, attributeFound: bool) returns (r: Result<bool, Exceptions.Error>)
      ensures !IsConnected() ==> r == Failure(Exceptions.DeviceNotConnected(Some("set_loopback_mode")))
      ensures IsConnected() ==> r == Success(attributeFound)
    {
      if !IsConnected() {
        return Failure(Exceptions.DeviceNotConnected(Some("set_loopback_mode")));
      }
      r := Success(attributeFound);
    }
  }

  // ---- discovery -----------------------------------------------------------

  /** The devices of the discovery methods that returned, in discoverer order. */
  function Discovered(results: seq<Result<seq<DeviceInfo>, string>>): (r: seq<DeviceInfo>)
    ensures forall i, d :: 0 <= i < |results| && results[i].Success? && d in results[i].value ==> d in r
    ensures forall d :: d in r ==> exists i :: 0 <= i < |results| && results[i].Success? && d in results[i].value
  {
    if results == [] then []
    else (if results[0].Success? then results[0].value else []) + Discovered(results[1..])
  }

  /** The first device of each URI not already in `seen`, in input order. */
  function Dedup(xs: seq<DeviceInfo>, seen: set<string>): (r: seq<DeviceInfo>)
    ensures |r| <= |xs|
  {
    if xs == [] then []
    else if xs[0].uri in seen then Dedup(xs[1..], seen)
    else [xs[0]] + Dedup(xs[1..], seen + {xs[0].uri})
  }

  /** No two results share a URI, and none has a URI already seen. */
  lemma {:induction false} DedupUnique(xs: seq<DeviceInfo>, seen: set<string>)
    ensures forall i :: 0 <= i < |Dedup(xs, seen)| ==> Dedup(xs, seen)[i].uri !in seen
    ensures forall i, j :: 0 <= i < j < |Dedup(xs, seen)| ==> Dedup(xs, seen)[i].uri != Dedup(xs, seen)[j].uri
  {
    if xs != [] {
      if xs[0].uri in seen {
        DedupUnique(xs[1..], seen);
      } else {
        DedupUnique(xs[1..], seen + {xs[0].uri});
        var rest := Dedup(xs[1..], seen + {xs[0].uri});
        assert Dedup(xs, seen) == [xs[0]] + rest;
        assert forall i :: 0 < i < |Dedup(xs, seen)| ==> Dedup(xs, seen)[i] == rest[i - 1];
      }
    }
  }

  /** Every device of the result comes from the input. */
  lemma {:induction false} DedupFromInput(xs: seq<DeviceInfo>, seen: set<string>)
    ensures forall k :: 0 <= k < |Dedup(xs, seen)| ==> Dedup(xs, seen)[k] in xs
  {
    if xs != [] {
      var next := if xs[0].uri in seen then seen else seen + {xs[0].uri};
      DedupFromInput(xs[1..], next);
      assert forall d :: d in xs[1..] ==> d in xs;
    }
  }

  /**
   * The first device of each URI not already seen is kept; with DedupUnique,
   * it is the only device of that URI in the result.
   */
  lemma {:induction false} DedupKeepsFirst(xs: seq<DeviceInfo>, seen: set<string>)
    ensures forall i :: 0 <= i < |xs| && xs[i].uri !in seen && (forall j :: 0 <= j < i ==> xs[j].uri != xs[i].uri) ==>
              xs[i] in Dedup(xs, seen)
  {
    if xs != [] {
      var next := if xs[0].uri in seen then seen else seen + {xs[0].uri};
      DedupKeepsFirst(xs[1..], next);
      forall i | 0 < i < |xs| && xs[i].uri !in seen && (forall j :: 0 <= j < i ==> xs[j].uri != xs[i].uri)
        ensures xs[i] in Dedup(xs, seen)
      {
        assert xs[1..][i - 1] == xs[i];
        assert forall j :: 0 <= j < i - 1 ==> xs[1..][j] == xs[j + 1];
        assert xs[i] in Dedup(xs[1..], next);
      }
    }
  }

  /** An input URI not already seen has a device in the result. */
  lemma DedupCoversOne(xs: seq<DeviceInfo>, seen: set<string>, d: DeviceInfo) returns (k: nat)
    requires d in xs && d.uri !in seen
    ensures k < |Dedup(xs, seen)| && Dedup(xs, seen)[k].uri == d.uri
  {
    DedupKeepsFirst(xs, seen);
    var i := FirstWithUri(xs, d.uri);
    assert xs[i] in Dedup(xs, seen);
    k :| 0 <= k < |Dedup(xs, seen)| && Dedup(xs, seen)[k] == xs[i];
  }

  /** Some device of `r` has the given URI. */
  predicate HasUri(r: seq<DeviceInfo>, uri: string)
  {
    exists k :: 0 <= k < |r| && r[k].uri == uri
  }

  /** Every input URI not already seen has a device in the result. */
  lemma DedupCovers(xs: seq<DeviceInfo>, seen: set<string>)
    ensures forall d :: d in xs && d.uri !in seen ==> HasUri(Dedup(xs, seen), d.uri)
  {
    forall d | d in xs && d.uri !in seen
      ensures HasUri(Dedup(xs, seen), d.uri)
    {
      var k := DedupCoversOne(xs, seen, d);
    }
  }

  /** The position of the first device of `xs` with the given URI. */
  lemma {:induction false} FirstWithUri(xs: seq<DeviceInfo>, uri: string) returns (i: nat)
    requires exists d :: d in xs && d.uri == uri
    ensures i < |xs| && xs[i].uri == uri && forall j :: 0 <= j < i ==> xs[j].uri != uri
  {
    if xs[0].uri == uri {
      return 0;
    }
    assert exists d :: d in xs[1..] && d.uri == uri;
    var t := FirstWithUri(xs[1..], uri);
    i := t + 1;
    assert forall j :: 0 < j < i ==> xs[j] == xs[1..][j - 1];
  }

  /** `idx` lists increasing positions of `xs` holding the elements of `r`, in order. */
  predicate TakenFrom(idx: seq<nat>, xs: seq<DeviceInfo>, r: seq<DeviceInfo>)
  {
    && |idx| == |r|
    && (forall k :: 0 <= k < |idx| ==> idx[k] < |xs| && xs[idx[k]] == r[k])
    && (forall k, l :: 0 <= k < l < |idx| ==> idx[k] < idx[l])
  }

  /** Every position moved one place on. */
  function Shifted(idx: seq<nat>): (r: seq<nat>)
    ensures |r| == |idx| && forall k :: 0 <= k < |idx| ==> r[k] == idx[k] + 1
  {
    seq(|idx|, k requires 0 <= k < |idx| => idx[k] + 1)
  }

  /** Positions in the tail of `xs` are positions in `xs`, one further on. */
  lemma TakenFromTail(idx: seq<nat>, xs: seq<DeviceInfo>, r: seq<DeviceInfo>)
    requires xs != [] && TakenFrom(idx, xs[1..], r)
    ensures TakenFrom(Shifted(idx), xs, r)
  {
    var sh := Shifted(idx);
    forall k | 0 <= k < |sh|
      ensures sh[k] < |xs| && xs[sh[k]] == r[k]
    {
      assert xs[sh[k]] == xs[1..][idx[k]];
    }
  }

  /** Taking the head as well puts position 0 in front. */
  lemma TakenFromCons(idx: seq<nat>, xs: seq<DeviceInfo>, r: seq<DeviceInfo>)
    requires xs != [] && TakenFrom(idx, xs[1..], r)
    ensures TakenFrom([0] + Shifted(idx), xs, [xs[0]] + r)
  {
    TakenFromTail(idx, xs, r);
    var sh := Shifted(idx);
    var full := [0] + sh;
    forall k | 0 < k < |full|
      ensures full[k] == sh[k - 1] && ([xs[0]] + r)[k] == r[k - 1]
    {
    }
  }

  /** The result keeps the input order: `idx` gives the increasing positions it was taken from. */
  lemma {:induction false} DedupKeepsOrder(xs: seq<DeviceInfo>, seen: set<string>) returns (idx: seq<nat>)
    ensures TakenFrom(idx, xs, Dedup(xs, seen))
  {
    if xs == [] {
      return [];
    }
    var next := if xs[0].uri in seen then seen else seen + {xs[0].uri};
    var tail := DedupKeepsOrder(xs[1..], next);
    if xs[0].uri in seen {
      TakenFromTail(tail, xs, Dedup(xs[1..], next));
      idx := Shifted(tail);
    } else {
      TakenFromCons(tail, xs, Dedup(xs[1..], next));
      idx := [0] + Shifted(tail);
    }
  }

  lemma DiscoveredStep(results: seq<Result<seq<DeviceInfo>, string>>, n: nat)
    requires n < |results|
    ensures Discovered(results[n..]) == (if results[n].Success? then results[n].value else []) + Discovered(results[n + 1..])
  {
    assert results[n..][1..] == results[n + 1..];
  }

  lemma DedupStep(xs: seq<DeviceInfo>, i: nat, seen: set<string>)
    requires i < |xs|
    ensures Dedup(xs[i..], seen) == if xs[i].uri in seen then Dedup(xs[i + 1..], seen)
                                    else [xs[i]] + Dedup(xs[i + 1..], seen + {xs[i].uri})
  {
    assert xs[i..][1..] == xs[i + 1..];
  }

  /** The first loop of discover_devices: the devices of every discoverer that returned. */
  method CollectDiscovered(results: seq<Result<seq<DeviceInfo>, string>>) returns (all: seq<DeviceInfo>)
    ensures all == Discovered(results)
  {
    all := [];
    var n := 0;
    while n < |results|
      invariant 0 <= n <= |results|
      invariant all + Discovered(results[n..]) == Discovered(results)
    {
      DiscoveredStep(results, n);
      all := all + (if results[n].Success? then results[n].value else []);
      n := n + 1;
    }
    assert results[n..] == [];
  }

  /** The second loop of discover_devices: the first device of each URI, in order. */
  method UniqueByUri(all: seq<DeviceInfo>) returns (unique: seq<DeviceInfo>)
    ensures unique == Dedup(all, {})
  {
    unique := [];
    var seen: set<string> := {};
    var i := 0;
    while i < |all|
      invariant 0 <= i <= |all|
      invariant unique + Dedup(all[i..], seen) == Dedup(all, {})
    {
      DedupStep(all, i, seen);
      if all[i].uri !in seen {
        unique := unique + [all[i]];
        seen := seen + {all[i].uri};
      }
      i := i + 1;
    }
    assert all[i..] == [];
  }

  /**
   * discover_devices over what each discovery method returned: the devices
   * of the methods that did not raise, then the first device of each URI.
   */
  method DiscoverDevices(results: seq<Result<seq<DeviceInfo>, string>>) returns (unique: seq<DeviceInfo>)
    ensures unique == Dedup(Discovered(results), {})
    ensures forall i, j :: 0 <= i < j < |unique| ==> unique[i].uri != unique[j].uri
    ensures forall d :: d in Discovered(results) ==> HasUri(unique, d.uri)
    ensures forall k :: 0 <= k < |unique| ==> unique[k] in Discovered(results)
  {
    var all := CollectDiscovered(results);
    unique := UniqueByUri(all);
    DedupUnique(all, {});
    DedupCovers(all, {});
    DedupFromInput(all, {});
  }

  // ---- the manager ----------------------------------------------------------

  /** PlutoSDRManager: at most one device, connected or not. */
  class PlutoSDRManager {
    var device: PlutoSDRDevice?

    /** is_connected. */
    predicate IsConnected()
      reads this, device
    {
      device != null && device.IsConnected()
    }

    /** The uri property. */
    function Uri(): (r: Option<string>)
      reads this, device
      ensures r.Some? <==> device != null
      ensures device != null ==> r.value == device.info.uri
    {
      if device != null then Some(device.info.uri) else None
    }

    /**
     * The constructor: a given URI is connected to directly, otherwise the
     * discovered devices are tried in turn when `autoDiscover` is set.
     * `probe` says what opening each URI does.
     */
    constructor (uri: Option<string>, autoDiscover: bool, results: seq<Result<seq<DeviceInfo>, string>>,
                 adiAvailable: bool, iioAvailable: bool, probe: string -> Option<string>,
                 context: string -> seq<(string, string)>)
      ensures Given(uri) ==> (IsConnected() <==> adiAvailable && probe(uri.value).None?)
      ensures Given(uri) && IsConnected() ==> device.info == UpdatedInfo(AutoInfo(uri.value), context(uri.value))
      ensures !Given(uri) && !autoDiscover ==> device == null
      ensures !Given(uri) && autoDiscover ==>
                (IsConnected() <==> adiAvailable && exists d :: d in Discovered(results) && probe(d.uri).None?)
      ensures device != null ==> IsConnected()
    {
      device := null;
      new;
      if Given(uri) {
        var d := new PlutoSDRDevice(AutoInfo(uri.value));
        device := d;
        var r := d.Connect(adiAvailable, iioAvailable, probe(uri.value), context(uri.value));
        if r.Failure? {
          device := null;
        }
      } else if autoDiscover {
        var devices := DiscoverDevices(results);
        AutoConnect(devices, adiAvailable, iioAvailable, probe, context);
        if device != null {
          var k :| 0 <= k < |devices| && device.info == UpdatedInfo(devices[k], context(devices[k].uri))
                   && probe(devices[k].uri).None?;
          assert devices[k] in Discovered(results);
        } else if adiAvailable {
          forall d | d in Discovered(results)
            ensures probe(d.uri).Some?
          {
            var k :| 0 <= k < |devices| && devices[k].uri == d.uri;
          }
        }
      }
    }

    /**
     * _auto_connect: tries each device in turn and keeps the first that
     * connects; a device that fails is dropped. The device is left as it
     * was only when there is nothing to try.
     */
    method AutoConnect(devices: seq<DeviceInfo>, adiAvailable: bool, iioAvailable: bool, probe: string -> Option<string>,
                       context: string -> seq<(string, string)>)
      modifies this
      ensures devices == [] ==> device == old(device)
      ensures devices != [] ==> (device != null <==> adiAvailable && exists k :: 0 <= k < |devices| && probe(devices[k].uri).None?)
      ensures devices != [] && device != null ==>
                fresh(device) && device.IsConnected()
                && exists k :: 0 <= k < |devices| && device.info == UpdatedInfo(devices[k], context(devices[k].uri))
                               && probe(devices[k].uri).None?
                               && forall j :: 0 <= j < k ==> probe(devices[j].uri).Some?
    {
      if devices == [] {
        return;
      }
      var i := 0;
      while i < |devices|
        invariant 0 <= i <= |devices|
        invariant device == null || i == 0
        invariant forall j :: 0 <= j < i ==> adiAvailable ==> probe(devices[j].uri).Some?
        invariant i > 0 ==> device == null
      {
        var d := new PlutoSDRDevice(devices[i]);
        device := d;
        var r := d.Connect(adiAvailable, iioAvailable, probe(devices[i].uri), context(devices[i].uri));
        if r.Success? {
          assert forall j :: 0 <= j < i ==> probe(devices[j].uri).Some?;
          return;
        }
        device := null;
        i := i + 1;
      }
    }

    /** connect(uri): drops the current device, then connects to `uri` or ends with none. */
    method Connect(uri: string, adiAvailable: bool, iioAvailable: bool, probe: Option<string>,
                   contextAttrs: seq<(string, string)>) returns (ok: bool)
      modifies this, device
      ensures ok <==> adiAvailable && probe.None?
      ensures ok ==> device != null && fresh(device) && device.info == UpdatedInfo(AutoInfo(uri), contextAttrs)
                     && device.IsConnected()
      ensures !ok ==> device == null
      ensures old(device) != null ==> !old(device).IsConnected()
    {
      Disconnect();
      var d := new PlutoSDRDevice(AutoInfo(uri));
      device := d;
      var r := d.Connect(adiAvailable, iioAvailable, probe, contextAttrs);
      if r.Failure? {
        device := null;
        return false;
      }
      ok := r.value;
    }

    /** disconnect: disconnects and drops the current device. */
    method Disconnect()
      modifies this, device
      ensures device == null
      ensures old(device) != null ==> !old(device).IsConnected() && old(device).info == old(device.info)
    {
      if device != null {
        device.Disconnect();
        device := null;
      }
    }

    /** configure_basic_settings: the guard, then the device's own method. */
    method ConfigureBasicSettings(s: Settings, refused: set<string>) returns (r: Result<bool, Exceptions.Error>)
      modifies device
      ensures !old(IsConnected()) ==> r == Failure(Exceptions.DeviceNotConnected(Some("configure_basic_settings")))
      ensures !old(IsConnected()) && device != null ==> device.attributes == old(device.attributes)
      ensures old(IsConnected()) ==>
                r == Success(Completes(Steps(s), refused))
                && device.attributes == Written(old(device.attributes), Steps(s), refused)
    {
      if !IsConnected() {
        return Failure(Exceptions.DeviceNotConnected(Some("configure_basic_settings")));
      }
      r := device.ConfigureBasicSettings(s, refused);
    }

    /** get_temperatures: the guard, then the reading as a dictionary. */
    method GetTemperatures(reading: TemperatureReading) returns (r: Result<map<string, real>, Exceptions.Error>)
      modifies device
      ensures !old(IsConnected()) ==> r == Failure(Exceptions.DeviceNotConnected(Some("get_temperatures")))
      ensures old(IsConnected()) && OvertemperatureCheck(reading).Some? ==> r == Failure(OvertemperatureCheck(reading).value)
      ensures old(IsConnected()) && OvertemperatureCheck(reading).None? ==> r == Success(ToDict(reading))
    {
      if !IsConnected() {
        return Failure(Exceptions.DeviceNotConnected(Some("get_temperatures")));
      }
      var t := device.GetTemperatures(reading);
      if t.Failure? {
        return Failure(t.error);
      }
      r := Success(ToDict(t.value));
    }

    /** set_loopback_mode: the guard, then the device's own method. */
    method SetLoopbackMode(enable: bool, attributeFound: bool) returns (r: Result<bool, Exceptions.Error>)
      ensures !IsConnected() ==> r == Failure(Exceptions.DeviceNotConnected(Some("set_loopback_mode")))
      ensures IsConnected() ==> r == Success(attributeFound)
    {
      if !IsConnected() {
        return Failure(Exceptions.DeviceNotConnected(Some("set_loopback_mode")));
      }
      r := device.SetLoopbackMode(enable, attributeFound);
    }
  }
}

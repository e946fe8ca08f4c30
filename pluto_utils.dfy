// The device-independent parts of pluto_utils.py: the token-based frequency
// parser and the frequency formatter, the SNR window of estimate_snr, the
// triangle test signal, the I/Q interleave of transmit_signal and the
// configuration-profile table of ConfigurationManager.
//
// Python's float() of a token is a parameter (`toFloat`, None where float()
// raises ValueError); the spectrum estimate_snr starts from is an input.
module PlutoUtils {
  import opened Wrappers
  import Text
  import Utils
  import Stats
  import SignalProcessing
  import opened Keys

  // ---------------------------------------------------------------- parsing

  /**
   * parse_frequency: strip, upper-case and split on whitespace; one token is
   * a value in Hz, two tokens a value and a unit (GHZ/G, MHZ/M, KHZ/K scale
   * it, any other unit leaves it as it is), and anything else goes to
   * float() whole.
   */
  function ParseFrequency(s: string, toFloat: string -> Option<real>): (r: Option<real>)
    ensures (forall t :: toFloat(t).Some? ==> toFloat(t).value >= 0.0) ==> (r.Some? ==> r.value >= 0.0)
  {
    var text := Text.Upper(Text.Strip(s));
    var parts := Text.Split(text);
    if |parts| == 1 then toFloat(parts[0])
    else if |parts| == 2 then
      match toFloat(parts[0])
      case None => None
      case Some(v) => Some(Utils.Scale(v, parts[1]))
    else toFloat(text)
  }

  predicate NoSpace(s: string)
  {
    forall i :: 0 <= i < |s| ==> !Text.IsSpace(s[i])
  }

  lemma {:induction false} TakeTokenOf(a: string, rest: string)
    requires NoSpace(a)
    requires rest == [] || Text.IsSpace(rest[0])
    ensures Text.TakeToken(a + rest) == a
    decreases |a|
  {
    if a == [] {
      assert a + rest == rest;
    } else {
      assert (a + rest)[1..] == a[1..] + rest;
      TakeTokenOf(a[1..], rest);
    }
  }

  /** A single token splits into itself. */
  lemma SplitOne(a: string)
    requires |a| > 0 && NoSpace(a)
    ensures Text.Split(a) == [a]
  {
    assert Text.StripLeft(a) == a;
    TakeTokenOf(a, []);
    assert a + [] == a;
    assert a[|a|..] == [];
  }

  /** Split takes the first token off a string that starts with one. */
  lemma SplitStep(s: string, a: string, rest: string)
    requires |a| > 0 && NoSpace(a) && s == a + rest
    requires rest == [] || Text.IsSpace(rest[0])
    ensures Text.Split(s) == [a] + Text.Split(rest)
  {
    assert s[0] == a[0];
    assert Text.StripLeft(s) == s;
    TakeTokenOf(a, rest);
    assert s[|a|..] == rest;
  }

  /** Two tokens separated by whitespace split into the two tokens. */
  lemma SplitTwo(a: string, gap: string, b: string)
    requires |a| > 0 && NoSpace(a) && |b| > 0 && NoSpace(b)
    requires |gap| > 0 && Text.AllSpace(gap)
    ensures Text.Split(a + gap + b) == [a, b]
  {
    var tail := gap + b;
    assert Text.Split(tail) == [b] by {
      SplitAfterSpace(gap, b);
      SplitOne(b);
    }
    assert Text.Split(a + tail) == [a] + Text.Split(tail) by {
      assert Text.IsSpace(tail[0]) by {
        assert tail[0] == gap[0];
      }
      SplitStep(a + tail, a, tail);
    }
    assert a + gap + b == a + tail;
  }

  /** Leading whitespace does not change the split. */
  lemma SplitAfterSpace(gap: string, b: string)
    requires Text.AllSpace(gap) && |b| > 0 && !Text.IsSpace(b[0])
    ensures Text.Split(gap + b) == Text.Split(b)
  {
    Text.StripLeftSpaces(gap, b);
    assert Text.StripLeft(b) == b;
  }

  lemma UpperKeepsSpaces(s: string)
    ensures NoSpace(s) ==> NoSpace(Text.Upper(s))
    ensures Text.AllSpace(s) ==> Text.AllSpace(Text.Upper(s))
  {
  }

  lemma UpperConcat(a: string, b: string)
    ensures Text.Upper(a + b) == Text.Upper(a) + Text.Upper(b)
  {
  }

  /** A bare number is read as Hz. */
  lemma ParseFrequencyBare(number: string, toFloat: string -> Option<real>)
    requires |number| > 0 && NoSpace(number)
    ensures ParseFrequency(number, toFloat) == toFloat(Text.Upper(number))
  {
    Text.StripUnchanged(number);
    UpperKeepsSpaces(number);
    SplitOne(Text.Upper(number));
  }

  /** "<number> <unit>", in any letter case, is the number scaled by the unit. */
  lemma ParseFrequencyWithUnit(number: string, gap: string, unit: string, toFloat: string -> Option<real>)
    requires |number| > 0 && NoSpace(number) && |unit| > 0 && NoSpace(unit)
    requires |gap| > 0 && Text.AllSpace(gap)
    ensures ParseFrequency(number + gap + unit, toFloat)
            == match toFloat(Text.Upper(number))
               case None => None
               case Some(v) => Some(Utils.Scale(v, Text.Upper(unit)))
  {
    var s := number + gap + unit;
    Text.StripUnchanged(s);
    UpperConcat(number + gap, unit);
    UpperConcat(number, gap);
    UpperKeepsSpaces(number);
    UpperKeepsSpaces(gap);
    UpperKeepsSpaces(unit);
    SplitTwo(Text.Upper(number), Text.Upper(gap), Text.Upper(unit));
  }

  // ------------------------------------------------------------- formatting

  /** The display unit: its divisor, its name and the number of decimals shown. */
  datatype FrequencyUnit = FrequencyUnit(divisor: real, name: string, decimals: nat)

  /** The largest unit not above the frequency; Hz below 1 kHz and for negative values. */
  function UnitFor(f: real): (u: FrequencyUnit)
    ensures u.divisor >= 1.0
    ensures u.divisor == 1.0 <==> f < 1000.0
    ensures f >= 1000.0 ==> u.divisor <= f < 1000.0 * u.divisor || (u.divisor == 1000000000.0 && f >= 1000000000.0)
  {
    if f >= 1000000000.0 then FrequencyUnit(1000000000.0, "GHz", 3)
    else if f >= 1000000.0 then FrequencyUnit(1000000.0, "MHz", 3)
    else if f >= 1000.0 then FrequencyUnit(1000.0, "kHz", 3)
    else FrequencyUnit(1.0, "Hz", 1)
  }

  /** format_frequency: the scaled value with the unit's decimals, a space and the unit. */
  function FormatFrequency(f: real): (r: string)
    ensures |r| >= 4
  {
    var u := UnitFor(f);
    Text.FormatFixed(f / u.divisor, u.decimals) + " " + u.name
  }

  lemma UnitSuffix(head: string, name: string)
    requires |head| > 0
    ensures var r := head + " " + name;
            r[|r| - |name| - 1..] == " " + name
  {
  }

  /** The unit the text ends in is determined by, and determines, the frequency's range. */
  lemma FormatFrequencySuffix(f: real)
    ensures var r := FormatFrequency(f);
            && (r[|r| - 4..] == " GHz" <==> f >= 1000000000.0)
            && (r[|r| - 4..] == " MHz" <==> 1000000.0 <= f < 1000000000.0)
            && (r[|r| - 4..] == " kHz" <==> 1000.0 <= f < 1000000.0)
            && (r[|r| - 3..] == " Hz" <==> f < 1000.0)
  {
    var u := UnitFor(f);
    SuffixOfName(Text.FormatFixed(f / u.divisor, u.decimals), u.name);
  }

  /** Which of the four unit names a text ending in " " + name ends in. */
  lemma SuffixOfName(head: string, name: string)
    requires |head| > 0 && (name == "GHz" || name == "MHz" || name == "kHz" || name == "Hz")
    ensures var r := head + " " + name;
            && (r[|r| - 4..] == " GHz" <==> name == "GHz")
            && (r[|r| - 4..] == " MHz" <==> name == "MHz")
            && (r[|r| - 4..] == " kHz" <==> name == "kHz")
            && (r[|r| - 3..] == " Hz" <==> name == "Hz")
  {
    var r := head + " " + name;
    UnitSuffix(head, name);
    if name == "Hz" {
      assert r[|r| - 4..][1] == ' ';
      assert r[|r| - 3..] == " Hz";
    } else {
      assert r[|r| - 4..] == " " + name;
      assert r[|r| - 3..][0] == name[0];
    }
  }

  /** Above 1 kHz the number shown before rounding lies in [1, 1000), except beyond 1000 GHz. */
  lemma FormatFrequencyMagnitude(f: real)
    requires 1000.0 <= f < 1000000000000.0
    ensures 1.0 <= f / UnitFor(f).divisor < 1000.0
  {
    var d := UnitFor(f).divisor;
    assert d > 0.0;
    Utils.QuotientBounds(f, d, 1000.0);
  }

  // -------------------------------------------------------------------- SNR

  /** Python's reading of a slice bound: a negative one counts from the end, then both are clipped. */
  function SliceIndex(i: int, n: nat): (k: nat)
    ensures k <= n
    ensures 0 <= i <= n ==> k == i
  {
    if i < 0 then (if i + n < 0 then 0 else i + n)
    else if i > n then n
    else i
  }

  /** `s[lo:hi]` with Python's slice semantics. */
  function PySlice<T>(s: seq<T>, lo: int, hi: int): (r: seq<T>)
    ensures 0 <= lo <= hi <= |s| ==> r == s[lo..hi]
  {
    var a := SliceIndex(lo, |s|);
    var b := SliceIndex(hi, |s|);
    if a < b then s[a..b] else []
  }

  /** What estimate_snr comes to: a value, an exception, or NaN (the mean of nothing). */
  datatype SnrOutcome = Snr(db: real) | Raises | NotANumber

  /** The half-open window of estimate_snr around the centre bin. */
  function SignalBins(n: nat, signalBw: real, sampleRate: real): (bins: int)
    requires sampleRate != 0.0
  {
    Text.Trunc(signalBw / sampleRate * n as real)
  }

  // Dafny's division by a positive divisor floors, as Python's // does.
  function SignalStart(n: nat, bins: int): int
  {
    n / 2 - bins / 2
  }

  function SignalEnd(n: nat, bins: int): int
  {
    n / 2 + bins / 2
  }

  /**
   * estimate_snr on a dB spectrum: the peak of the window minus the mean of
   * the rest.  A zero sample rate divides by zero and an empty window has no
   * maximum, both exceptions; an empty rest gives NaN.
   */
  function EstimateSnr(spectrum: seq<real>, signalBw: real, sampleRate: real): (r: SnrOutcome)
    ensures sampleRate == 0.0 || spectrum == [] ==> r == Raises
  {
    if sampleRate == 0.0 then Raises
    else
      var n := |spectrum|;
      var bins := SignalBins(n, signalBw, sampleRate);
      var start, end := SignalStart(n, bins), SignalEnd(n, bins);
      var window := PySlice(spectrum, start, end);
      var noise := PySlice(spectrum, 0, start) + PySlice(spectrum, end, n);
      if window == [] then Raises
      else if noise == [] then NotANumber
      else Snr(Stats.Max(window) - Stats.Mean(noise))
  }

  /** Fewer than two signal bins leave the window empty, whatever the spectrum, so max raises. */
  lemma NarrowWindowRaises(spectrum: seq<real>, signalBw: real, sampleRate: real)
    requires sampleRate != 0.0 && SignalBins(|spectrum|, signalBw, sampleRate) < 2
    ensures EstimateSnr(spectrum, signalBw, sampleRate) == Raises
  {
    var n := |spectrum|;
    var bins := SignalBins(n, signalBw, sampleRate);
    var h := bins / 2;
    assert h <= 0;
    var start, end := n / 2 - h, n / 2 + h;
    if end < 0 {
      assert -h > n / 2;
      assert end + n <= start;
    }
    assert SliceIndex(end, n) <= SliceIndex(start, n);
  }

  /**
   * Between 2 and n signal bins the window is the centred run of bins and the
   * noise is everything outside it.
   */
  lemma CentredWindow(spectrum: seq<real>, signalBw: real, sampleRate: real)
    requires sampleRate != 0.0
    requires 2 <= SignalBins(|spectrum|, signalBw, sampleRate) <= |spectrum|
    ensures var n := |spectrum|;
            var bins := SignalBins(n, signalBw, sampleRate);
            var start, end := SignalStart(n, bins), SignalEnd(n, bins);
            && 0 <= start < end <= n
            && end - start == 2 * (bins / 2)
            && start <= n / 2 < end
            && EstimateSnr(spectrum, signalBw, sampleRate)
               == if start == 0 && end == n then NotANumber
                  else Snr(Stats.Max(spectrum[start..end]) - Stats.Mean(spectrum[..start] + spectrum[end..]))
  {
    var n := |spectrum|;
    var bins := SignalBins(n, signalBw, sampleRate);
    var start, end := SignalStart(n, bins), SignalEnd(n, bins);
    assert PySlice(spectrum, 0, start) == spectrum[..start];
    assert PySlice(spectrum, end, n) == spectrum[end..];
  }

  /** A bandwidth wider than the sample rate moves the start below zero and Python wraps it. */
  lemma WideWindowWraps()
    ensures SignalBins(8, 3000000.0, 2000000.0) == 12
    ensures EstimateSnr([0.0, 0.0, 0.0, 0.0, 0.0, 0.0, 9.0, 3.0], 3000000.0, 2000000.0) == Snr(9.0)
  {
    var s := [0.0, 0.0, 0.0, 0.0, 0.0, 0.0, 9.0, 3.0];
    assert 3000000.0 / 2000000.0 * 8.0 == 12.0;
    assert Text.Trunc(12.0) == 12;
    assert SignalStart(8, 12) == -2 && SignalEnd(8, 12) == 10;
    var window := PySlice(s, -2, 10);
    assert window == s[6..8] == [9.0, 3.0];
    assert Stats.Max([3.0]) == 3.0;
    assert Stats.Max(window) == 9.0;
    var noise := PySlice(s, 0, -2) + PySlice(s, 10, 8);
    var zeros := [0.0, 0.0, 0.0, 0.0, 0.0, 0.0];
    assert noise == zeros;
    assert Stats.Sum(zeros[5..]) == 0.0;
    assert Stats.Sum(zeros[4..]) == 0.0;
    assert Stats.Sum(zeros[3..]) == 0.0;
    assert Stats.Sum(zeros[2..]) == 0.0;
    assert Stats.Sum(zeros[1..]) == 0.0;
    assert Stats.Sum(zeros) == 0.0;
    assert Stats.Mean(noise) == 0.0;
  }

  // --------------------------------------------------------- test signals

  /** A value reduced into the int16 range by two's-complement wrap-around. */
  function Wrap16(x: int): (r: int)
    ensures -32768 <= r < 32768
    ensures -32768 <= x < 32768 ==> r == x
  {
    (x + 32768) % 65536 - 32768
  }

  /**
   * generate_triangle_wave: an int16 ramp 0, 1, …, h − 1 with h = n // 2,
   * followed by its reverse, shifted left by 4 in int16, with I equal to Q.
   */
  function TriangleWave(numSamples: int): (w: seq<SignalProcessing.Complex>)
    ensures |w| == if numSamples <= 0 then 0 else 2 * (numSamples / 2)
  {
    var h := if numSamples <= 0 then 0 else numSamples / 2;
    seq(2 * h, i requires 0 <= i < 2 * h =>
      var k := if i < h then i else 2 * h - 1 - i;
      var v := Wrap16(16 * k) as real;
      SignalProcessing.Complex(v, v))
  }

  /** I equals Q, and the wave reads the same backwards. */
  lemma TriangleWaveSymmetric(numSamples: int)
    ensures var w := TriangleWave(numSamples);
            && (forall i :: 0 <= i < |w| ==> w[i].re == w[i].im)
            && (forall i :: 0 <= i < |w| ==> w[i] == w[|w| - 1 - i])
  {
  }

  /** An odd sample count loses its last sample. */
  lemma TriangleWaveOddLength(numSamples: int)
    requires numSamples > 0 && numSamples % 2 == 1
    ensures |TriangleWave(numSamples)| == numSamples - 1
  {
  }

  /** For at most 4096 samples the first half is the ramp 0, 16, 32, … without wrapping. */
  lemma TriangleWaveRamp(numSamples: int)
    requires numSamples <= 4096
    ensures var w := TriangleWave(numSamples);
            forall k :: 0 <= k < |w| / 2 ==> w[k].re == (16 * k) as real
  {
    var w := TriangleWave(numSamples);
    forall k | 0 <= k < |w| / 2
      ensures w[k].re == (16 * k) as real
    {
      assert 16 * k < 32768;
    }
  }

  /** With more than 4096 samples the ramp wraps into negative values. */
  lemma TriangleWaveWraps()
    ensures TriangleWave(4098)[2048].re == -32768.0
  {
    assert Wrap16(16 * 2048) == -32768;
  }

  /**
   * The interleave of transmit_signal: a pre-allocated buffer of 2N slots,
   * I values in the even slots and Q values in the odd ones.
   */
  method Interleave(iScaled: seq<int>, qScaled: seq<int>) returns (out: array<int>)
    requires |iScaled| == |qScaled|
    ensures fresh(out) && out.Length == 2 * |iScaled|
    ensures forall k :: 0 <= k < |iScaled| ==> out[2 * k] == iScaled[k] && out[2 * k + 1] == qScaled[k]
  {
    out := new int[2 * |iScaled|];
    var k := 0;
    while k < |iScaled|
      invariant 0 <= k <= |iScaled|
      invariant forall j :: 0 <= j < k ==> out[2 * j] == iScaled[j]
    {
      out[2 * k] := iScaled[k];
      k := k + 1;
    }
    k := 0;
    while k < |qScaled|
      invariant 0 <= k <= |qScaled|
      invariant forall j :: 0 <= j < |iScaled| ==> out[2 * j] == iScaled[j]
      invariant forall j :: 0 <= j < k ==> out[2 * j + 1] == qScaled[j]
    {
      out[2 * k + 1] := qScaled[k];
      k := k + 1;
    }
  }

  /**
   * transmit_signal's scaling by 2^14 before the int16 cast: None where the
   * product leaves the int16 range, where numpy's cast result is not defined.
   */
  function ScaledSample(x: real): (r: Option<int>)
    ensures r.Some? ==> -32768 <= r.value < 32768
    ensures -2.0 < x < 2.0 ==> r.Some?
  {
    var v := Text.Trunc(x * 16384.0);
    if -32768 <= v < 32768 then Some(v) else None
  }

  /** Every non-zero triangle sample is already beyond what the 2^14 scaling can carry. */
  lemma TriangleSamplesOverflowScaling(numSamples: int, i: nat)
    requires numSamples <= 4096
    requires i < |TriangleWave(numSamples)| && TriangleWave(numSamples)[i].re != 0.0
    ensures ScaledSample(TriangleWave(numSamples)[i].re).None?
  {
    var w := TriangleWave(numSamples);
    TriangleWaveSymmetric(numSamples);
    TriangleWaveRamp(numSamples);
    var h := |w| / 2;
    var k := if i < h then i else |w| - 1 - i;
    assert w[i] == w[k] by {
      if i >= h {
        assert w[i] == w[|w| - 1 - i];
      }
    }
    assert w[k].re == (16 * k) as real;
    assert k >= 1;
    assert w[i].re >= 16.0;
  }

  // ------------------------------------------------------ profile table

  /** One saved configuration, as save_current_config reads it off the device. */
  datatype ConfigProfile = ConfigProfile(
    timestamp: real, rxLo: int, txLo: int, sampleRate: int, rxRfBandwidth: int,
    txRfBandwidth: int, rxGain: real, txGain: real, rxBufferSize: int, gainControlMode: Option<string>)

  /** ConfigurationManager's dictionary of named profiles, in insertion order. */
  class ConfigurationManager {
    var profiles: map<string, ConfigProfile>
    /** The dictionary's key order. */
    var names: seq<string>

    predicate Valid()
      reads this
    {
      && Distinct(names)
      && (forall n :: n in profiles ==> n in names)
      && (forall n :: n in names ==> n in profiles)
    }

    constructor ()
      ensures Valid() && profiles == map[] && names == []
    {
      profiles := map[];
      names := [];
    }

    /**
     * save_current_config: nothing without a connected device or when reading
     * it fails (`snapshot` None); otherwise the profile is stored under the
     * name, a new name going last and an existing one keeping its place.
     */
    method SaveCurrentConfig(name: string, connected: bool, snapshot: Option<ConfigProfile>) returns (ok: bool)
      requires Valid()
      modifies this
      ensures Valid()
      ensures ok <==> connected && snapshot.Some?
      ensures ok ==> profiles == old(profiles)[name := snapshot.value]
      ensures ok ==> names == if name in old(profiles) then old(names) else old(names) + [name]
      ensures !ok ==> profiles == old(profiles) && names == old(names)
    {
      if !connected || snapshot.None? {
        return false;
      }
      if name !in profiles {
        AppendDistinct(names, name);
        names := names + [name];
      }
      profiles := profiles[name := snapshot.value];
      return true;
    }

    /**
     * load_config_profile: False for an unknown name or a missing device;
     * otherwise the stored profile is written to the device, which may fail.
     */
    method LoadConfigProfile(name: string, connected: bool, deviceAccepts: bool)
      returns (ok: bool, applied: Option<ConfigProfile>)
      requires Valid()
      ensures ok <==> name in profiles && connected && deviceAccepts
      ensures applied == if name in profiles && connected then Some(profiles[name]) else None
    {
      if name !in profiles {
        return false, None;
      }
      if !connected {
        return false, None;
      }
      return deviceAccepts, Some(profiles[name]);
    }

    /** get_profile_list: the names, once each, in the order they were first saved. */
    method GetProfileList() returns (list: seq<string>)
      requires Valid()
      ensures forall n :: n in list <==> n in profiles
      ensures forall i, j :: 0 <= i < j < |list| ==> list[i] != list[j]
      ensures list == names
    {
      list := names;
    }

    /** delete_profile: True, and the name gone, exactly when it was there. */
    method DeleteProfile(name: string) returns (ok: bool)
      requires Valid()
      modifies this
      ensures Valid()
      ensures ok <==> name in old(profiles)
      ensures profiles == old(profiles) - {name}
      ensures name !in names
      ensures ok ==> names == Without(old(names), name)
      ensures !ok ==> names == old(names)
    {
      if name !in profiles {
        return false;
      }
      WithoutDistinct(names, name);
      profiles := profiles - {name};
      names := Without(names, name);
      return true;
    }
  }
}

// The waterfall display of waterfall_display.py: a fixed-depth history grid
// scrolled in place with the newest spectrum on row 0, an elementwise peak
// hold, averaging of successive spectra, the clip-normalised image, the
// simple local-maximum peak detector, and the handlers for keys, pause and
// FFT-size changes.
//
// The radio is outside the model: each acquisition tick receives the samples
// it read and whether the device is connected, and each reconfiguration
// receives whether the device accepted it.
module Waterfall {
  import opened Wrappers
  import SignalProcessing
  import Utils

  const FrequencyMin: real := 70000000.0
  const FrequencyMax: real := 6000000000.0
  const SampleRateMin: real := 1000000.0
  const SampleRateMax: real := 61000000.0
  /** The level peak hold restarts from. */
  const PeakHoldFloor: real := -120.0

  datatype WaterfallConfig = WaterfallConfig(
    fftSize: nat, historySize: nat, centerFrequency: real, sampleRate: real,
    intensityMin: real, intensityMax: real, averagingFactor: real, windowFunction: string)

  /** The WaterfallConfig defaults. */
  const DefaultConfig := WaterfallConfig(1024, 800, 100000000.0, 20000000.0, -80.0, -20.0, 0.1, "hann")

  /** The window compute_fft_spectrum applies: unlike get_window, an unknown name means no window. */
  function WindowByName(name: string): (w: SignalProcessing.WindowShape)
    ensures w == SignalProcessing.HannCoefficients <==> name == "hann"
    ensures w == SignalProcessing.HammingCoefficients <==> name == "hamming"
    ensures w == SignalProcessing.BlackmanCoefficients <==> name == "blackman"
    ensures w == SignalProcessing.Ones <==> name != "hann" && name != "hamming" && name != "blackman"
  {
    if name == "hann" then SignalProcessing.HannCoefficients
    else if name == "hamming" then SignalProcessing.HammingCoefficients
    else if name == "blackman" then SignalProcessing.BlackmanCoefficients
    else SignalProcessing.Ones
  }

  /** numpy's broadcast of a one-bin spectrum to width w; a spectrum of width w is left as it is. */
  function Stretch(s: seq<real>, w: nat): (t: seq<real>)
    requires |s| == w || |s| == 1
    ensures |t| == w
    ensures forall i :: 0 <= i < w ==> t[i] == if |s| == w then s[i] else s[0]
  {
    if |s| == w then s else seq(w, _ => s[0])
  }

  /**
   * The averaging step of compute_fft_spectrum: the new spectrum when there is
   * no previous one, otherwise alpha·new + (1 − alpha)·previous under numpy's
   * broadcasting, where a one-bin operand stands for every bin of the other.
   * None is the ValueError numpy raises when the two lengths differ and
   * neither is 1.
   */
  function Averaged(previous: Option<seq<real>>, raw: seq<real>, alpha: real): (r: Option<seq<real>>)
    ensures r.None? <==> previous.Some? && |previous.value| != |raw| && |previous.value| != 1 && |raw| != 1
    ensures previous.None? ==> r == Some(raw)
    ensures r.Some? && previous.Some? ==>
              var p := previous.value;
              && |r.value| == (if |raw| == 1 then |p| else |raw|)
              && forall i :: 0 <= i < |r.value| ==>
                   r.value[i] == SignalProcessing.Mix(alpha, if |raw| == 1 then raw[0] else raw[i],
                                                             if |p| == 1 then p[0] else p[i])
  {
    match previous
    case None => Some(raw)
    case Some(p) =>
      if |p| == |raw| || |p| == 1 || |raw| == 1 then
        var w := if |raw| == 1 then |p| else |raw|;
        Some(SignalProcessing.Blend(alpha, Stretch(raw, w), Stretch(p, w)))
      else None
  }

  /** A first spectrum passes through; later ones lie between the new and the previous values. */
  lemma AveragedBetween(previous: Option<seq<real>>, raw: seq<real>, alpha: real)
    requires 0.0 <= alpha <= 1.0
    requires previous.Some? ==> |previous.value| == |raw|
    ensures previous.None? ==> Averaged(previous, raw, alpha) == Some(raw)
    ensures previous.Some? ==> forall i :: 0 <= i < |raw| ==>
              var v := Averaged(previous, raw, alpha).value[i];
              (raw[i] <= previous.value[i] ==> raw[i] <= v <= previous.value[i])
              && (previous.value[i] <= raw[i] ==> previous.value[i] <= v <= raw[i])
  {
    if previous.Some? {
      SignalProcessing.BlendBetween(alpha, raw, previous.value);
    }
  }

  /** The parts of the display an FFT-size change and an acquisition tick touch. */
  datatype Display = Display(fftSize: nat, history: seq<seq<real>>, previous: Option<seq<real>>)

  /** `np.zeros((depth, width))` as rows. */
  function ZeroRows(depth: nat, width: nat): (h: seq<seq<real>>)
    ensures |h| == depth && forall r :: 0 <= r < depth ==> |h[r]| == width
    ensures forall r, c :: 0 <= r < depth && 0 <= c < width ==> h[r][c] == 0.0
  {
    seq(depth, _ => seq(width, _ => 0.0))
  }

  /**
   * on_fft_size_changed as written: a new size replaces the size and the
   * history, and `_previous_spectrum` is left as it was.
   */
  function SizeChangedAsWritten(d: Display, newSize: nat): (r: Display)
    ensures r.fftSize == newSize && r.previous == d.previous && |r.history| == |d.history|
    ensures newSize == d.fftSize ==> r == d
    ensures newSize != d.fftSize ==> forall i :: 0 <= i < |r.history| ==> |r.history[i]| == newSize
  {
    if newSize == d.fftSize then d else Display(newSize, ZeroRows(|d.history|, newSize), d.previous)
  }

  /**
   * One acquisition tick on a new spectrum: the averaged spectrum becomes the
   * previous one and scrolls in as the top row.  When averaging raises,
   * update_display's handler catches the error before anything is replaced,
   * so the tick changes nothing.  When the averaged spectrum neither has the
   * row's width nor a single bin, the rows have already moved down and the
   * previous spectrum is already replaced when the write of the top row
   * raises, so the top row keeps its old value.
   */
  function Tick(d: Display, raw: seq<real>, alpha: real): (r: Display)
    requires |d.history| >= 1
    ensures r.fftSize == d.fftSize && |r.history| == |d.history|
    ensures Averaged(d.previous, raw, alpha).None? ==> r == d
    ensures Averaged(d.previous, raw, alpha).Some? ==>
              var s := Averaged(d.previous, raw, alpha).value;
              var w := |d.history[0]|;
              && r.previous == Some(s)
              && (forall i :: 1 <= i < |r.history| ==> r.history[i] == d.history[i - 1])
              && (|s| == w ==> r.history[0] == s)
              && (|s| == 1 ==> |r.history[0]| == w && forall c :: 0 <= c < w ==> r.history[0][c] == s[0])
              && (|s| != w && |s| != 1 ==> r.history[0] == d.history[0])
  {
    match Averaged(d.previous, raw, alpha)
    case None => d
    case Some(s) =>
      var w := |d.history[0]|;
      var top := if |s| == w || |s| == 1 then Stretch(s, w) else d.history[0];
      d.(history := ScrollIn(d.history, top), previous := Some(s))
  }

  /** Ticks on the spectra `raws`, one after another. */
  function Ticks(d: Display, raws: seq<seq<real>>, alpha: real): (r: Display)
    requires |d.history| >= 1
    ensures r.fftSize == d.fftSize && |r.history| == |d.history|
    decreases |raws|
  {
    if raws == [] then d else Ticks(Tick(d, raws[0], alpha), raws[1..], alpha)
  }

  /**
   * As written, once a size change leaves behind a previous spectrum of the
   * old size, and neither size is 1, every later averaging step fails, and since a failing tick
   * keeps that spectrum, the history never changes again, however many
   * spectra arrive.
   */
  lemma {:induction false} SizeChangeFreezesAsWritten(d: Display, newSize: nat, raws: seq<seq<real>>, alpha: real)
    requires |d.history| >= 1 && d.previous.Some? && |d.previous.value| == d.fftSize && newSize != d.fftSize
    requires d.fftSize != 1 && newSize != 1
    requires forall k :: 0 <= k < |raws| ==> |raws[k]| == newSize
    ensures var s := SizeChangedAsWritten(d, newSize);
            Ticks(s, raws, alpha) == s
            && (forall k :: 0 <= k < |raws| ==> Averaged(Ticks(s, raws[..k], alpha).previous, raws[k], alpha).None?)
    decreases |raws|
  {
    var s := SizeChangedAsWritten(d, newSize);
    if raws != [] {
      assert Tick(s, raws[0], alpha) == s;
      SizeChangeFreezesAsWritten(d, newSize, raws[1..], alpha);
      forall k | 0 <= k < |raws|
        ensures Averaged(Ticks(s, raws[..k], alpha).previous, raws[k], alpha).None?
      {
        if k > 0 {
          assert raws[..k][1..] == raws[1..][..k - 1];
          assert raws[k] == raws[1..][k - 1];
        } else {
          assert raws[..0] == [];
        }
      }
    }
  }

  /** A 1024-bin display switched to 2048 bins stays frozen through two spectra. */
  lemma SizeChangeFreezesExample()
    ensures var d := Display(1024, [seq(1024, _ => -80.0)], Some(seq(1024, _ => -80.0)));
            var s := SizeChangedAsWritten(d, 2048);
            Ticks(s, [seq(2048, _ => -80.0), seq(2048, _ => -60.0)], 0.1) == s
  {
    var d := Display(1024, [seq(1024, _ => -80.0)], Some(seq(1024, _ => -80.0)));
    SizeChangeFreezesAsWritten(d, 2048, [seq(2048, _ => -80.0), seq(2048, _ => -60.0)], 0.1);
  }

  /**
   * As written, a size change away from a one-bin display does not freeze it:
   * the one-bin previous spectrum broadcasts over the new bins, and the
   * average scrolls in at the new width.
   */
  lemma SizeChangeFromOneBroadcasts(d: Display, newSize: nat, raw: seq<real>, alpha: real)
    requires |d.history| >= 1 && d.fftSize == 1 && d.previous.Some? && |d.previous.value| == 1
    requires newSize != 1 && |raw| == newSize
    ensures var t := Tick(SizeChangedAsWritten(d, newSize), raw, alpha);
            && t.previous.Some? && |t.previous.value| == newSize && t.history[0] == t.previous.value
            && forall i :: 0 <= i < newSize ==>
                 t.previous.value[i] == SignalProcessing.Mix(alpha, raw[i], d.previous.value[0])
  {
    var s := SizeChangedAsWritten(d, newSize);
    assert |s.history[0]| == newSize;
  }

  /** clip((v − min)/(max − min), 0, 1). */
  function Normalize(v: real, intensityMin: real, intensityMax: real): (r: real)
    requires intensityMax != intensityMin
    ensures 0.0 <= r <= 1.0
  {
    Utils.Clamp((v - intensityMin) / (intensityMax - intensityMin), 0.0, 1.0)
  }

  /** The intensity range maps onto [0, 1]: its ends to 0 and 1, anything outside to an end. */
  lemma NormalizeEnds(v: real, intensityMin: real, intensityMax: real)
    requires intensityMin < intensityMax
    ensures Normalize(intensityMin, intensityMin, intensityMax) == 0.0
    ensures Normalize(intensityMax, intensityMin, intensityMax) == 1.0
    ensures v <= intensityMin ==> Normalize(v, intensityMin, intensityMax) == 0.0
    ensures v >= intensityMax ==> Normalize(v, intensityMin, intensityMax) == 1.0
  {
    var d := intensityMax - intensityMin;
    assert (intensityMax - intensityMin) / d == 1.0;
    if v <= intensityMin {
      assert v - intensityMin <= 0.0;
      NonPositiveQuotient(v - intensityMin, d);
    }
    if v >= intensityMax {
      assert v - intensityMin >= d;
      QuotientAtLeastOne(v - intensityMin, d);
    }
  }

  lemma NonPositiveQuotient(a: real, d: real)
    requires a <= 0.0 && d > 0.0
    ensures a / d <= 0.0
  {
  }

  lemma QuotientAtLeastOne(a: real, d: real)
    requires a >= d && d > 0.0
    ensures a / d >= 1.0
  {
    assert a / d * d == a;
  }

  /** One scroll of the history: the new row on top, the oldest row dropped. */
  function ScrollIn(history: seq<seq<real>>, row: seq<real>): (h: seq<seq<real>>)
    requires |history| >= 1
    ensures |h| == |history|
    ensures h[0] == row
    ensures forall i :: 1 <= i < |h| ==> h[i] == history[i - 1]
  {
    [row] + history[..|history| - 1]
  }

  /** A history whose top row is `row` and whose other rows are the old ones moved down is ScrollIn's. */
  lemma ScrolledRows(before: seq<seq<real>>, after: seq<seq<real>>, row: seq<real>)
    requires |before| >= 1 && |after| == |before| && after[0] == row
    requires forall i :: 1 <= i < |after| ==> after[i] == before[i - 1]
    ensures after == ScrollIn(before, row)
  {
  }

  /** The history after the rows are scrolled in one after another. */
  function ScrollAll(history: seq<seq<real>>, rows: seq<seq<real>>): (h: seq<seq<real>>)
    requires |history| >= 1
    ensures |h| == |history|
    decreases |rows|
  {
    if rows == [] then history
    else ScrollAll(ScrollIn(history, rows[0]), rows[1..])
  }

  /**
   * After any number n of ticks the history keeps the last spectra, newest
   * first: row i holds the spectrum of the (i + 1)-th latest tick when there
   * have been more than i ticks, and otherwise the old row i − n.
   */
  lemma {:induction false} ScrollAllNewestFirst(history: seq<seq<real>>, rows: seq<seq<real>>)
    requires 1 <= |history|
    ensures forall i :: 0 <= i < |history| && i < |rows| ==> ScrollAll(history, rows)[i] == rows[|rows| - 1 - i]
    ensures forall i :: |rows| <= i < |history| ==> ScrollAll(history, rows)[i] == history[i - |rows|]
    decreases |rows|
  {
    if rows != [] {
      var h1 := ScrollIn(history, rows[0]);
      ScrollAllNewestFirst(h1, rows[1..]);
      var h := ScrollAll(history, rows);
      assert h == ScrollAll(h1, rows[1..]);
      var n := |rows|;
      forall i | 0 <= i < |history| && i < n
        ensures h[i] == rows[n - 1 - i]
      {
        if i < n - 1 {
          assert h[i] == rows[1..][n - 2 - i];
        } else {
          assert h[i] == h1[i - (n - 1)];
        }
      }
      forall i | n <= i < |history|
        ensures h[i] == history[i - n]
      {
        assert h[i] == h1[i - (n - 1)];
      }
    }
  }

  /** The keys keyPressEvent handles. */
  datatype Key = Up | Down | Right | Left | Space | KeyC | KeyM | OtherKey

  /** Up raises the centre frequency and caps it at the top; Down lowers it and floors it at the bottom. */
  function SteppedFrequency(frequency: real, up: bool, shift: bool): (f: real)
    ensures FrequencyMin <= frequency <= FrequencyMax ==> FrequencyMin <= f <= FrequencyMax
    ensures up ==> f <= FrequencyMax
    ensures !up ==> f >= FrequencyMin
  {
    var step := if shift then 10000000.0 else 100000000.0;
    if up then (if frequency + step < FrequencyMax then frequency + step else FrequencyMax)
    else (if frequency - step > FrequencyMin then frequency - step else FrequencyMin)
  }

  function SteppedSampleRate(rate: real, up: bool, shift: bool): (r: real)
    ensures SampleRateMin <= rate <= SampleRateMax ==> SampleRateMin <= r <= SampleRateMax
    ensures up ==> r <= SampleRateMax
    ensures !up ==> r >= SampleRateMin
  {
    var step := if shift then 1000000.0 else 10000000.0;
    if up then (if rate + step < SampleRateMax then rate + step else SampleRateMax)
    else (if rate - step > SampleRateMin then rate - step else SampleRateMin)
  }

  /**
   * A frequency in range stays in range and moves by the whole step unless it
   * would leave it.  Each key clamps only on the side it moves towards, so a
   * value outside the range is not pulled back by the opposite key.
   */
  lemma SteppedFrequencyBounds(frequency: real, up: bool, shift: bool)
    ensures var f := SteppedFrequency(frequency, up, shift);
            var step := if shift then 10000000.0 else 100000000.0;
            && (FrequencyMin <= frequency <= FrequencyMax ==> FrequencyMin <= f <= FrequencyMax)
            && (up ==> f == (if frequency + step < FrequencyMax then frequency + step else FrequencyMax))
            && (!up ==> f == (if frequency - step > FrequencyMin then frequency - step else FrequencyMin))
            && (up && frequency < FrequencyMin - step ==> f < FrequencyMin)
  {
  }

  lemma SteppedSampleRateBounds(rate: real, up: bool, shift: bool)
    ensures var r := SteppedSampleRate(rate, up, shift);
            && (SampleRateMin <= rate <= SampleRateMax ==> SampleRateMin <= r <= SampleRateMax)
            && (up ==> r >= rate || r == SampleRateMax)
            && (!up ==> r <= rate || r == SampleRateMin)
  {
  }

  /** WaterfallDisplay. */
  class WaterfallDisplay {
    var config: WaterfallConfig
    var isRunning: bool
    var isPaused: bool
    /** The "Peak Hold" check box. */
    var peakHoldEnabled: bool
    /** history_size rows of fft_size bins, row 0 the newest. */
    var waterfallData: array2<real>
    var peakHoldData: array<real>
    /** `_previous_spectrum`; None until the first spectrum is computed. */
    var previous: Option<seq<real>>

    /** The history as rows of values, row 0 the newest. */
    ghost function Rows(): (rows: seq<seq<real>>)
      reads this, waterfallData
      ensures |rows| == waterfallData.Length0
      ensures forall r :: 0 <= r < |rows| ==> |rows[r]| == waterfallData.Length1
    {
      var a := waterfallData;
      seq(a.Length0, r reads a requires 0 <= r < a.Length0 =>
        seq(a.Length1, c reads a requires 0 <= c < a.Length1 => a[r, c]))
    }

    predicate Valid()
      reads this
    {
      && config.historySize >= 1 && config.fftSize >= 1
      && waterfallData.Length0 == config.historySize && waterfallData.Length1 == config.fftSize
      && peakHoldData.Length == config.fftSize
      && (previous.Some? ==> |previous.value| == config.fftSize)
    }

    /** The history all zero and the peak hold at the floor, as a reallocation leaves them. */
    ghost predicate IsReset()
      reads this, waterfallData, peakHoldData
    {
      && (forall r, c :: 0 <= r < waterfallData.Length0 && 0 <= c < waterfallData.Length1 ==> waterfallData[r, c] == 0.0)
      && (forall c :: 0 <= c < peakHoldData.Length ==> peakHoldData[c] == PeakHoldFloor)
    }

    /** The history filled with intensity_min and the peak hold at the floor, as clear_display leaves them. */
    ghost predicate IsCleared()
      reads this, waterfallData, peakHoldData
    {
      && (forall r, c :: 0 <= r < waterfallData.Length0 && 0 <= c < waterfallData.Length1 ==>
            waterfallData[r, c] == config.intensityMin)
      && (forall c :: 0 <= c < peakHoldData.Length ==> peakHoldData[c] == PeakHoldFloor)
    }

    constructor (config: WaterfallConfig)
      requires config.historySize >= 1 && config.fftSize >= 1
      ensures Valid() && this.config == config
      ensures !isRunning && !isPaused && peakHoldEnabled && previous == None
      ensures fresh(waterfallData) && fresh(peakHoldData) && IsReset()
    {
      this.config := config;
      isRunning := false;
      isPaused := false;
      peakHoldEnabled := true;
      waterfallData := new real[config.historySize, config.fftSize]((_, _) => 0.0);
      peakHoldData := new real[config.fftSize](_ => PeakHoldFloor);
      previous := None;
    }

    /**
     * apply_configuration: when the device accepts the settings the history
     * and the peak hold are reallocated, zero and the floor respectively.
     */
    method ApplyConfiguration(deviceAccepts: bool) returns (ok: bool)
      requires Valid()
      modifies this
      ensures Valid() && ok == deviceAccepts
      ensures config == old(config) && previous == old(previous)
      ensures isRunning == old(isRunning) && isPaused == old(isPaused) && peakHoldEnabled == old(peakHoldEnabled)
      ensures !deviceAccepts ==> waterfallData == old(waterfallData) && peakHoldData == old(peakHoldData)
      ensures deviceAccepts ==> fresh(waterfallData) && fresh(peakHoldData) && IsReset()
    {
      if !deviceAccepts {
        return false;
      }
      waterfallData := new real[config.historySize, config.fftSize]((_, _) => 0.0);
      peakHoldData := new real[config.fftSize](_ => PeakHoldFloor);
      return true;
    }

    /** toggle_pause: flips the pause flag, and only while acquiring. */
    method TogglePause()
      modifies this
      ensures isPaused == (if old(isRunning) then !old(isPaused) else old(isPaused))
      ensures isRunning == old(isRunning) && config == old(config) && previous == old(previous)
      ensures peakHoldEnabled == old(peakHoldEnabled)
      ensures waterfallData == old(waterfallData) && peakHoldData == old(peakHoldData)
    {
      if isRunning {
        isPaused := !isPaused;
      }
    }

    /** stop_acquisition. */
    method StopAcquisition()
      modifies this
      ensures !isRunning && isPaused == old(isPaused) && config == old(config) && previous == old(previous)
      ensures peakHoldEnabled == old(peakHoldEnabled)
      ensures waterfallData == old(waterfallData) && peakHoldData == old(peakHoldData)
    {
      isRunning := false;
    }

    /** start_acquisition: runs, unpaused, once the device accepts the configuration. */
    method StartAcquisition(connected: bool, deviceAccepts: bool)
      requires Valid()
      modifies this
      ensures Valid() && config == old(config) && previous == old(previous)
      ensures isRunning == (old(isRunning) || (connected && deviceAccepts))
      ensures isPaused == (if connected && deviceAccepts then false else old(isPaused))
      ensures peakHoldEnabled == old(peakHoldEnabled)
      ensures connected && deviceAccepts ==> fresh(waterfallData) && fresh(peakHoldData) && IsReset()
      ensures !(connected && deviceAccepts) ==> waterfallData == old(waterfallData) && peakHoldData == old(peakHoldData)
    {
      if !connected {
        return;
      }
      var ok := ApplyConfiguration(deviceAccepts);
      if ok {
        isRunning := true;
        isPaused := false;
      }
    }

    /** clear_display: the history is filled with intensity_min and the peak hold with the floor. */
    method ClearDisplay()
      requires Valid()
      modifies waterfallData, peakHoldData
      ensures IsCleared()
    {
      var r := 0;
      while r < waterfallData.Length0
        invariant 0 <= r <= waterfallData.Length0
        invariant forall i, c :: 0 <= i < r && 0 <= c < waterfallData.Length1 ==>
                    waterfallData[i, c] == config.intensityMin
      {
        var c := 0;
        while c < waterfallData.Length1
          invariant 0 <= c <= waterfallData.Length1
          invariant forall i, j :: 0 <= i < r && 0 <= j < waterfallData.Length1 ==>
                      waterfallData[i, j] == config.intensityMin
          invariant forall j :: 0 <= j < c ==> waterfallData[r, j] == config.intensityMin
        {
          waterfallData[r, c] := config.intensityMin;
          c := c + 1;
        }
        r := r + 1;
      }
      var k := 0;
      while k < peakHoldData.Length
        invariant 0 <= k <= peakHoldData.Length
        invariant forall c :: 0 <= c < k ==> peakHoldData[c] == PeakHoldFloor
        invariant forall r, c :: 0 <= r < waterfallData.Length0 && 0 <= c < waterfallData.Length1 ==>
                    waterfallData[r, c] == config.intensityMin
      {
        peakHoldData[k] := PeakHoldFloor;
        k := k + 1;
      }
    }

    /** `waterfall_data[1:] = waterfall_data[:-1]; waterfall_data[0] = spectrum`. */
    method Scroll(spectrum: seq<real>)
      requires Valid() && |spectrum| == config.fftSize
      modifies waterfallData
      ensures forall r, c :: 1 <= r < waterfallData.Length0 && 0 <= c < waterfallData.Length1 ==>
                waterfallData[r, c] == old(waterfallData[r - 1, c])
      ensures forall c :: 0 <= c < waterfallData.Length1 ==> waterfallData[0, c] == spectrum[c]
      ensures Rows() == ScrollIn(old(Rows()), spectrum)
    {
      ghost var before := Rows();
      ShiftRows();
      ghost var mid := Rows();
      WriteTopRow(spectrum);
      ScrolledRows(before, Rows(), spectrum);
    }

    /** `waterfall_data[1:] = waterfall_data[:-1]`: every row moves down one, the top row stays. */
    method ShiftRows()
      requires waterfallData.Length0 > 0
      modifies waterfallData
      ensures forall r, c :: 1 <= r < waterfallData.Length0 && 0 <= c < waterfallData.Length1 ==>
                waterfallData[r, c] == old(waterfallData[r - 1, c])
      ensures forall c :: 0 <= c < waterfallData.Length1 ==> waterfallData[0, c] == old(waterfallData[0, c])
      ensures forall i :: 1 <= i < |Rows()| ==> Rows()[i] == old(Rows())[i - 1]
    {
      ghost var before := Rows();
      var r := waterfallData.Length0 - 1;
      while r > 0
        invariant 0 <= r < waterfallData.Length0
        invariant forall i, c :: r < i < waterfallData.Length0 && 0 <= c < waterfallData.Length1 ==>
                    waterfallData[i, c] == old(waterfallData[i - 1, c])
        invariant forall i, c :: 0 <= i <= r && 0 <= c < waterfallData.Length1 ==>
                    waterfallData[i, c] == old(waterfallData[i, c])
      {
        CopyRow(r);
        r := r - 1;
      }
      ghost var after := Rows();
      forall i | 1 <= i < |after|
        ensures after[i] == before[i - 1]
      {
        assert forall c :: 0 <= c < |after[i]| ==> after[i][c] == before[i - 1][c];
      }
    }

    /** `waterfall_data[0] = spectrum`: the top row becomes the spectrum, the others stay. */
    method WriteTopRow(spectrum: seq<real>)
      requires waterfallData.Length0 > 0 && |spectrum| == waterfallData.Length1
      modifies waterfallData
      ensures forall c :: 0 <= c < waterfallData.Length1 ==> waterfallData[0, c] == spectrum[c]
      ensures forall r, c :: 1 <= r < waterfallData.Length0 && 0 <= c < waterfallData.Length1 ==>
                waterfallData[r, c] == old(waterfallData[r, c])
      ensures Rows() == old(Rows())[0 := spectrum]
    {
      ghost var before := Rows();
      var c := 0;
      while c < waterfallData.Length1
        invariant 0 <= c <= waterfallData.Length1
        invariant forall i, j :: 1 <= i < waterfallData.Length0 && 0 <= j < waterfallData.Length1 ==>
                    waterfallData[i, j] == old(waterfallData[i, j])
        invariant forall j :: 0 <= j < c ==> waterfallData[0, j] == spectrum[j]
      {
        waterfallData[0, c] := spectrum[c];
        c := c + 1;
      }
      ghost var after := Rows();
      assert after[0] == spectrum;
      forall i | 1 <= i < |after|
        ensures after[i] == before[i]
      {
        assert forall j :: 0 <= j < |after[i]| ==> after[i][j] == before[i][j];
      }
    }

    /** Row r takes the values of row r − 1; every other row is untouched. */
    method CopyRow(r: int)
      requires 0 < r < waterfallData.Length0
      modifies waterfallData
      ensures forall c :: 0 <= c < waterfallData.Length1 ==> waterfallData[r, c] == old(waterfallData[r - 1, c])
      ensures forall i, c :: 0 <= i < waterfallData.Length0 && i != r && 0 <= c < waterfallData.Length1 ==>
                waterfallData[i, c] == old(waterfallData[i, c])
    {
      var c := 0;
      while c < waterfallData.Length1
        invariant 0 <= c <= waterfallData.Length1
        invariant forall j :: 0 <= j < c ==> waterfallData[r, j] == old(waterfallData[r - 1, j])
        invariant forall i, j :: 0 <= i < waterfallData.Length0 && 0 <= j < waterfallData.Length1 && (i != r || j >= c) ==>
                    waterfallData[i, j] == old(waterfallData[i, j])
      {
        waterfallData[r, c] := waterfallData[r - 1, c];
        c := c + 1;
      }
    }

    /** `peak_hold_data = np.maximum(peak_hold_data, spectrum)`. */
    method HoldPeaks(spectrum: seq<real>)
      requires Valid() && |spectrum| == config.fftSize
      modifies peakHoldData
      ensures peakHoldData[..] == SignalProcessing.ElementMax(old(peakHoldData[..]), spectrum)
    {
      var c := 0;
      while c < peakHoldData.Length
        invariant 0 <= c <= peakHoldData.Length
        invariant forall j :: 0 <= j < c ==>
                    peakHoldData[j] == SignalProcessing.ElementMax(old(peakHoldData[..]), spectrum)[j]
        invariant forall j :: c <= j < peakHoldData.Length ==> peakHoldData[j] == old(peakHoldData[j])
      {
        if spectrum[c] > peakHoldData[c] {
          peakHoldData[c] := spectrum[c];
        }
        c := c + 1;
      }
    }

    /**
     * compute_fft_spectrum: the block is zero-padded or cut to fft_size, the
     * abstract transform gives its dB bins, and the result is averaged with
     * the previous one, which it then replaces.
     */
    method ComputeSpectrum(samples: seq<SignalProcessing.Complex>,
                           bin: (seq<SignalProcessing.Complex>, SignalProcessing.WindowShape, nat) -> real)
      returns (r: Option<seq<real>>)
      requires Valid()
      modifies this
      ensures Valid()
      ensures var raw := SignalProcessing.SpectrumOf(SignalProcessing.Prepared(samples, config.fftSize),
                                                     WindowByName(config.windowFunction), config.fftSize, bin);
              r == Averaged(old(previous), raw, config.averagingFactor)
      ensures r.Some? && previous == r
      ensures config == old(config) && isRunning == old(isRunning) && isPaused == old(isPaused)
      ensures peakHoldEnabled == old(peakHoldEnabled)
      ensures waterfallData == old(waterfallData) && peakHoldData == old(peakHoldData)
    {
      var block := SignalProcessing.PrepareSamples(samples, config.fftSize);
      var raw := SignalProcessing.SpectrumOf(block, WindowByName(config.windowFunction), config.fftSize, bin);
      r := Averaged(previous, raw, config.averagingFactor);
      previous := r;
    }

    /**
     * update_display: nothing while stopped or paused; a lost device stops
     * acquisition; otherwise the new spectrum scrolls in as row 0 and, with
     * peak hold on, raises the held values.
     */
    method UpdateDisplay(connected: bool, samples: seq<SignalProcessing.Complex>,
                         bin: (seq<SignalProcessing.Complex>, SignalProcessing.WindowShape, nat) -> real)
      requires Valid()
      modifies this, waterfallData, peakHoldData
      ensures Valid() && config == old(config) && isPaused == old(isPaused)
      ensures waterfallData == old(waterfallData) && peakHoldData == old(peakHoldData)
      ensures !old(isRunning) || old(isPaused) ==>
                isRunning == old(isRunning) && previous == old(previous)
                && unchanged(waterfallData) && unchanged(peakHoldData)
      ensures old(isRunning) && !old(isPaused) && !connected ==>
                !isRunning && previous == old(previous) && unchanged(waterfallData) && unchanged(peakHoldData)
      ensures old(isRunning) && !old(isPaused) && connected ==>
                var raw := SignalProcessing.SpectrumOf(SignalProcessing.Prepared(samples, config.fftSize),
                                                       WindowByName(config.windowFunction), config.fftSize, bin);
                var spectrum := Averaged(old(previous), raw, config.averagingFactor).value;
                && isRunning && previous == Some(spectrum)
                && (forall r, c :: 1 <= r < waterfallData.Length0 && 0 <= c < waterfallData.Length1 ==>
                      waterfallData[r, c] == old(waterfallData[r - 1, c]))
                && (forall c :: 0 <= c < waterfallData.Length1 ==> waterfallData[0, c] == spectrum[c])
                && (peakHoldEnabled ==> peakHoldData[..] == SignalProcessing.ElementMax(old(peakHoldData[..]), spectrum))
                && (!peakHoldEnabled ==> unchanged(peakHoldData))
    {
      if !isRunning || isPaused {
        return;
      }
      if !connected {
        StopAcquisition();
        return;
      }
      var spectrum := ComputeSpectrum(samples, bin);
      Scroll(spectrum.value);
      if peakHoldEnabled {
        HoldPeaks(spectrum.value);
      }
    }

    /** update_waterfall_image: a normalised copy of the history; the history itself is not touched. */
    method NormalizedImage() returns (image: array2<real>)
      requires Valid() && config.intensityMax != config.intensityMin
      ensures fresh(image)
      ensures image.Length0 == waterfallData.Length0 && image.Length1 == waterfallData.Length1
      ensures forall r, c :: 0 <= r < image.Length0 && 0 <= c < image.Length1 ==>
                image[r, c] == Normalize(waterfallData[r, c], config.intensityMin, config.intensityMax)
                && 0.0 <= image[r, c] <= 1.0
    {
      var lo, hi := config.intensityMin, config.intensityMax;
      image := new real[waterfallData.Length0, waterfallData.Length1];
      var r := 0;
      while r < image.Length0
        invariant 0 <= r <= image.Length0
        invariant forall i, c :: 0 <= i < r && 0 <= c < image.Length1 ==>
                    image[i, c] == Normalize(waterfallData[i, c], lo, hi)
      {
        var c := 0;
        while c < image.Length1
          invariant 0 <= c <= image.Length1
          invariant forall i, j :: 0 <= i < r && 0 <= j < image.Length1 ==>
                      image[i, j] == Normalize(waterfallData[i, j], lo, hi)
          invariant forall j :: 0 <= j < c ==> image[r, j] == Normalize(waterfallData[r, j], lo, hi)
        {
          image[r, c] := Normalize(waterfallData[r, c], lo, hi);
          c := c + 1;
        }
        r := r + 1;
      }
    }

    /** detect_peaks: indices of strict local maxima above intensity_max − 20, in order. */
    method DetectPeaks(spectrum: seq<real>) returns (peaks: seq<nat>)
      ensures forall i :: i in peaks <==> Utils.IsSimplePeak(spectrum, config.intensityMax - 20.0, i)
      ensures forall k :: 0 < k < |peaks| ==> peaks[k - 1] < peaks[k]
    {
      var threshold := config.intensityMax - 20.0;
      peaks := [];
      var i := 1;
      while i < |spectrum| - 1
        invariant 1 <= i
        invariant forall j :: j in peaks <==> Utils.IsSimplePeak(spectrum, threshold, j) && j < i
        invariant forall k :: 0 <= k < |peaks| ==> peaks[k] < i
        invariant forall k :: 0 < k < |peaks| ==> peaks[k - 1] < peaks[k]
      {
        if spectrum[i] > threshold && spectrum[i] > spectrum[i - 1] && spectrum[i] > spectrum[i + 1] {
          peaks := peaks + [i];
        }
        i := i + 1;
      }
    }

    /** set_center_frequency: reconfigures the device while acquiring. */
    method SetCenterFrequency(frequency: real, deviceAccepts: bool)
      requires Valid()
      modifies this
      ensures Valid() && config == old(config).(centerFrequency := frequency)
      ensures isRunning == old(isRunning) && isPaused == old(isPaused) && previous == old(previous)
      ensures peakHoldEnabled == old(peakHoldEnabled)
      ensures !old(isRunning) || !deviceAccepts ==>
                waterfallData == old(waterfallData) && peakHoldData == old(peakHoldData)
      ensures old(isRunning) && deviceAccepts ==> fresh(waterfallData) && fresh(peakHoldData) && IsReset()
    {
      config := config.(centerFrequency := frequency);
      if isRunning {
        var _ := ApplyConfiguration(deviceAccepts);
      }
    }

    /** set_sample_rate. */
    method SetSampleRate(rate: real, deviceAccepts: bool)
      requires Valid()
      modifies this
      ensures Valid() && config == old(config).(sampleRate := rate)
      ensures isRunning == old(isRunning) && isPaused == old(isPaused) && previous == old(previous)
      ensures peakHoldEnabled == old(peakHoldEnabled)
      ensures !old(isRunning) || !deviceAccepts ==>
                waterfallData == old(waterfallData) && peakHoldData == old(peakHoldData)
      ensures old(isRunning) && deviceAccepts ==> fresh(waterfallData) && fresh(peakHoldData) && IsReset()
    {
      config := config.(sampleRate := rate);
      if isRunning {
        var _ := ApplyConfiguration(deviceAccepts);
      }
    }

    /** keyPressEvent for the frequency, sample-rate, pause and clear keys. */
    method KeyPress(key: Key, shift: bool, deviceAccepts: bool)
      requires Valid()
      modifies this, waterfallData, peakHoldData
      ensures Valid()
      ensures key == Up || key == Down ==>
                config == old(config).(centerFrequency := SteppedFrequency(old(config).centerFrequency, key == Up, shift))
      ensures key == Right || key == Left ==>
                config == old(config).(sampleRate := SteppedSampleRate(old(config).sampleRate, key == Right, shift))
      ensures key != Up && key != Down && key != Right && key != Left ==> config == old(config)
      ensures key == Space ==> isPaused == (if old(isRunning) then !old(isPaused) else old(isPaused))
      ensures key != Space ==> isPaused == old(isPaused)
      ensures isRunning == old(isRunning) && previous == old(previous) && peakHoldEnabled == old(peakHoldEnabled)
      ensures key == KeyC ==> waterfallData == old(waterfallData) && peakHoldData == old(peakHoldData) && IsCleared()
      ensures key == Space || key == KeyM || key == OtherKey ==>
                waterfallData == old(waterfallData) && peakHoldData == old(peakHoldData)
                && unchanged(waterfallData) && unchanged(peakHoldData)
      ensures key == Up || key == Down || key == Right || key == Left ==>
                if old(isRunning) && deviceAccepts then fresh(waterfallData) && fresh(peakHoldData) && IsReset()
                else waterfallData == old(waterfallData) && peakHoldData == old(peakHoldData)
                     && unchanged(waterfallData) && unchanged(peakHoldData)
    {
      match key
      case Up => SetCenterFrequency(SteppedFrequency(config.centerFrequency, true, shift), deviceAccepts);
      case Down => SetCenterFrequency(SteppedFrequency(config.centerFrequency, false, shift), deviceAccepts);
      case Right => SetSampleRate(SteppedSampleRate(config.sampleRate, true, shift), deviceAccepts);
      case Left => SetSampleRate(SteppedSampleRate(config.sampleRate, false, shift), deviceAccepts);
      case Space => TogglePause();
      case KeyC => ClearDisplay();
      case KeyM =>
      case OtherKey =>
    }

    /**
     * on_fft_size_changed, corrected: a new size reallocates the history and
     * the peak hold at that width and also forgets the previous spectrum, so
     * averaging restarts at the new size.
     */
    method OnFftSizeChanged(newSize: nat, deviceAccepts: bool)
      requires Valid() && newSize >= 1
      modifies this
      ensures Valid()
      ensures newSize == old(config).fftSize ==>
                config == old(config) && previous == old(previous)
                && waterfallData == old(waterfallData) && peakHoldData == old(peakHoldData)
      ensures newSize != old(config).fftSize ==>
                config == old(config).(fftSize := newSize) && previous == None
                && fresh(waterfallData) && fresh(peakHoldData)
                && waterfallData.Length0 == config.historySize && waterfallData.Length1 == newSize
                && peakHoldData.Length == newSize
                && IsReset()
      ensures isRunning == old(isRunning) && isPaused == old(isPaused) && peakHoldEnabled == old(peakHoldEnabled)
    {
      if newSize != config.fftSize {
        config := config.(fftSize := newSize);
        waterfallData := new real[config.historySize, config.fftSize]((_, _) => 0.0);
        peakHoldData := new real[config.fftSize](_ => PeakHoldFloor);
        previous := None;
        var _ := ApplyConfiguration(deviceAccepts);
      }
    }
  }
}

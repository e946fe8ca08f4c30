// The frequency sweep of spectrum_analyzer.py: a timer-driven state machine
// that steps the receiver through a list of frequencies, records one
// amplitude per step, keeps a per-frequency peak hold, marks loud points
// outside the known bands, pauses after each sweep and then starts over; the
// known bands drawn over the sweep range; and the reset that applying new
// settings performs.
//
// The radio and the plot are outside the model: each tick receives the
// amplitude it measured, the alert threshold as parsed from its text field
// (None when it does not parse) and the peak positions the scipy detector
// found; applying settings receives each field as parsed.
module SpectrumSweep {
  import opened Wrappers

  /** A named frequency band, in GHz. */
  datatype Band = Band(name: string, start: real, stop: real)

  /** The known bands of the main window, in their dictionary order. */
  const KnownBands: seq<Band> := [
    Band("LTE 700", 0.699, 0.76),
    Band("GSM 850", 0.869, 0.894),
    Band("GSM 1900", 1.93, 1.99),
    Band("AWS (LTE 1700/2100)", 1.71, 2.155),
    Band("Wi-Fi 2.4 GHz", 2.4, 2.5),
    Band("Bluetooth", 2.4, 2.4835),
    Band("Wi-Fi 5 GHz", 5.0, 5.9)
  ]

  /** The number of idle ticks between two sweeps. */
  const PauseTicks: nat := 50
  /** The alert threshold used when the threshold text does not parse. */
  const FallbackThreshold: real := -20.0

  // ---- known bands -----------------------------------------------------------

  /** A drawn band: the part of a band inside the sweep range, with its label slot. */
  datatype Region = Region(name: string, lo: real, hi: real, slot: nat)

  /** The band meets the closed range [lo, hi]. */
  predicate Overlaps(b: Band, lo: real, hi: real)
  {
    !(b.stop < lo || b.start > hi)
  }

  function Max(a: real, b: real): real { if a >= b then a else b }
  function Min(a: real, b: real): real { if a <= b then a else b }

  /** The region drawn for an overlapping band. */
  function Clip(b: Band, lo: real, hi: real, slot: nat): (r: Region)
    ensures r.name == b.name && r.slot == slot
    ensures lo <= r.lo && b.start <= r.lo && r.hi <= hi && r.hi <= b.stop
    ensures (r.lo == lo || r.lo == b.start) && (r.hi == hi || r.hi == b.stop)
  {
    Region(b.name, Max(b.start, lo), Min(b.stop, hi), slot)
  }

  /** The regions add_known_bands draws, numbering label slots from `slot`. */
  function Visible(bands: seq<Band>, lo: real, hi: real, slot: nat): seq<Region>
  {
    if bands == [] then []
    else if Overlaps(bands[0], lo, hi) then [Clip(bands[0], lo, hi, slot)] + Visible(bands[1..], lo, hi, slot + 1)
    else Visible(bands[1..], lo, hi, slot)
  }

  /** The bands that meet [lo, hi], in order. */
  function Overlapping(bands: seq<Band>, lo: real, hi: real): seq<Band>
  {
    if bands == [] then []
    else (if Overlaps(bands[0], lo, hi) then [bands[0]] else []) + Overlapping(bands[1..], lo, hi)
  }

  /** A band is drawn iff it meets the range. */
  lemma {:induction false} OverlappingExact(bands: seq<Band>, lo: real, hi: real)
    ensures forall b :: b in Overlapping(bands, lo, hi) <==> b in bands && Overlaps(b, lo, hi)
  {
    if bands != [] {
      OverlappingExact(bands[1..], lo, hi);
      assert bands == [bands[0]] + bands[1..];
    }
  }

  /**
   * The drawn regions are the overlapping bands in order, each clipped to the
   * range, with label slots numbered on from `slot`.
   */
  lemma {:induction false} VisibleIsClipped(bands: seq<Band>, lo: real, hi: real, slot: nat)
    ensures |Visible(bands, lo, hi, slot)| == |Overlapping(bands, lo, hi)| <= |bands|
    ensures forall k :: 0 <= k < |Visible(bands, lo, hi, slot)| ==>
              Visible(bands, lo, hi, slot)[k] == Clip(Overlapping(bands, lo, hi)[k], lo, hi, slot + k)
  {
    if bands != [] {
      if Overlaps(bands[0], lo, hi) {
        VisibleIsClipped(bands[1..], lo, hi, slot + 1);
        var v, o := Visible(bands[1..], lo, hi, slot + 1), Overlapping(bands[1..], lo, hi);
        var vs, os := Visible(bands, lo, hi, slot), Overlapping(bands, lo, hi);
        assert vs == [Clip(bands[0], lo, hi, slot)] + v;
        assert os == [bands[0]] + o;
        forall k | 1 <= k < |vs|
          ensures vs[k] == Clip(os[k], lo, hi, slot + k)
        {
          assert vs[k] == v[k - 1] && os[k] == o[k - 1];
        }
      } else {
        VisibleIsClipped(bands[1..], lo, hi, slot);
      }
    }
  }

  lemma VisibleStep(bands: seq<Band>, i: nat, lo: real, hi: real, slot: nat)
    requires i < |bands|
    ensures Visible(bands[i..], lo, hi, slot) ==
              if Overlaps(bands[i], lo, hi) then [Clip(bands[i], lo, hi, slot)] + Visible(bands[i + 1..], lo, hi, slot + 1)
              else Visible(bands[i + 1..], lo, hi, slot)
  {
    assert bands[i..][1..] == bands[i + 1..];
  }

  // ---- the alert rule ----------------------------------------------------------

  /** The threshold text as float() reads it, or the fallback. */
  function AlertThreshold(parsed: Option<real>): (t: real)
    ensures parsed.None? ==> t == FallbackThreshold
    ensures parsed.Some? ==> t == parsed.value
  {
    if parsed.Some? then parsed.value else FallbackThreshold
  }

  /** Some band contains the frequency (both ends included). */
  function InSomeBand(bands: seq<Band>, f: real): (r: bool)
    ensures r <==> exists j :: 0 <= j < |bands| && bands[j].start <= f <= bands[j].stop
  {
    if bands == [] then false
    else if bands[0].start <= f <= bands[0].stop then true
    else
      var r := InSomeBand(bands[1..], f);
      assert forall j :: 1 <= j < |bands| ==> bands[j] == bands[1..][j - 1];
      r
  }

  /** A point raises an alert iff it is louder than the threshold and in no known band. */
  predicate Alerts(bands: seq<Band>, f: real, amp: real, threshold: Option<real>)
  {
    amp > AlertThreshold(threshold) && !InSomeBand(bands, f)
  }

  /** Inside a known band nothing alerts, however loud; outside, exactly the loud points alert. */
  lemma AlertsOutsideBandsOnly(bands: seq<Band>, f: real, amp: real, threshold: Option<real>)
    ensures (exists j :: 0 <= j < |bands| && bands[j].start <= f <= bands[j].stop) ==> !Alerts(bands, f, amp, threshold)
    ensures !(exists j :: 0 <= j < |bands| && bands[j].start <= f <= bands[j].stop) ==>
              (Alerts(bands, f, amp, threshold) <==> amp > AlertThreshold(threshold))
  {
  }

  // ---- peak hold -----------------------------------------------------------------

  /** One measured point of the sweep: frequency in GHz and amplitude in dB. */
  datatype Point = Point(freq: real, amp: real)

  /** round(f, 5): the nearest multiple of 1e-5, halves rounded up. */
  function Round5(f: real): (k: real)
    ensures k - 0.000005 <= f < k + 0.000005
  {
    var n := (f * 100000.0 + 0.5).Floor;
    assert n as real <= f * 100000.0 + 0.5 < n as real + 1.0;
    (n as real) / 100000.0
  }

  /** The peak-hold dictionary after one point. */
  function Hold(hold: map<real, real>, key: real, amp: real): map<real, real>
  {
    if key in hold then hold[key := if hold[key] >= amp then hold[key] else amp] else hold[key := amp]
  }

  /** The peak-hold dictionary after the points `pts`, from empty. */
  function HoldOf(pts: seq<Point>): map<real, real>
  {
    if pts == [] then map[]
    else Hold(HoldOf(pts[..|pts| - 1]), Round5(pts[|pts| - 1].freq), pts[|pts| - 1].amp)
  }

  /** Some point of `pts` rounds to `key`. */
  predicate SeenAt(pts: seq<Point>, key: real)
  {
    exists i :: 0 <= i < |pts| && Round5(pts[i].freq) == key
  }

  /** Some point of `pts` that rounds to `key` has amplitude `v`. */
  predicate Attained(pts: seq<Point>, key: real, v: real)
  {
    exists i :: 0 <= i < |pts| && Round5(pts[i].freq) == key && pts[i].amp == v
  }

  /** The peak hold has a key exactly for each rounded frequency seen. */
  lemma {:induction false} HoldOfKeys(pts: seq<Point>)
    ensures forall key :: key in HoldOf(pts) <==> SeenAt(pts, key)
  {
    if pts != [] {
      var init := pts[..|pts| - 1];
      HoldOfKeys(init);
      forall key
        ensures key in HoldOf(pts) <==> SeenAt(pts, key)
      {
        if SeenAt(pts, key) && key != Round5(pts[|pts| - 1].freq) {
          var i :| 0 <= i < |pts| && Round5(pts[i].freq) == key;
          assert init[i] == pts[i];
        }
        if key in HoldOf(init) {
          var i :| 0 <= i < |init| && Round5(init[i].freq) == key;
          assert pts[i] == init[i];
        }
      }
    }
  }

  /** The value held at a point's rounded frequency is at least its amplitude. */
  lemma {:induction false} HoldOfBounds(pts: seq<Point>)
    ensures forall i :: 0 <= i < |pts| ==> Round5(pts[i].freq) in HoldOf(pts) && pts[i].amp <= HoldOf(pts)[Round5(pts[i].freq)]
  {
    if pts != [] {
      var init := pts[..|pts| - 1];
      HoldOfBounds(init);
      assert forall i :: 0 <= i < |init| ==> init[i] == pts[i];
    }
  }

  /** The value held at a key is the amplitude of some point at that key. */
  lemma {:induction false} HoldOfAttained(pts: seq<Point>)
    ensures forall key :: key in HoldOf(pts) ==> Attained(pts, key, HoldOf(pts)[key])
  {
    if pts != [] {
      var init := pts[..|pts| - 1];
      HoldOfAttained(init);
      forall key | key in HoldOf(pts)
        ensures Attained(pts, key, HoldOf(pts)[key])
      {
        if key in HoldOf(init) && HoldOf(pts)[key] == HoldOf(init)[key] {
          var i :| 0 <= i < |init| && Round5(init[i].freq) == key && init[i].amp == HoldOf(init)[key];
          assert pts[i] == init[i];
        } else {
          assert Round5(pts[|pts| - 1].freq) == key && pts[|pts| - 1].amp == HoldOf(pts)[key];
        }
      }
    }
  }

  /** Peak hold after one more point: a held value never drops. */
  lemma HoldNeverDrops(pts: seq<Point>, p: Point)
    ensures HoldOf(pts + [p]) == Hold(HoldOf(pts), Round5(p.freq), p.amp)
    ensures forall key :: key in HoldOf(pts) ==> key in HoldOf(pts + [p]) && HoldOf(pts)[key] <= HoldOf(pts + [p])[key]
  {
    assert (pts + [p])[..|pts|] == pts;
  }

  // ---- the sweep phases ------------------------------------------------------------

  /** The control part of the sweep state. */
  datatype Phase = Phase(index: nat, complete: bool, counter: nat)

  /** One unpaused tick of update_plot over `n` frequencies. */
  function NextPhase(p: Phase, n: nat): (q: Phase)
    ensures !p.complete && p.index < n ==> q == p.(index := p.index + 1)
    ensures !p.complete && p.index >= n ==> q == Phase(p.index, true, 0)
    ensures p.complete && p.counter + 1 < PauseTicks ==> q == p.(counter := p.counter + 1)
    ensures p.complete && p.counter + 1 >= PauseTicks ==> q == Phase(0, false, p.counter + 1)
  {
    if !p.complete && p.index < n then Phase(p.index + 1, false, p.counter)
    else if !p.complete then Phase(p.index, true, 0)
    else if p.counter + 1 >= PauseTicks then Phase(0, false, p.counter + 1)
    else Phase(p.index, true, p.counter + 1)
  }

  /** `k` unpaused ticks. */
  function Run(p: Phase, n: nat, k: nat): Phase
    decreases k
  {
    if k == 0 then p else Run(NextPhase(p, n), n, k - 1)
  }

  lemma {:induction false} RunAdd(p: Phase, n: nat, a: nat, b: nat)
    ensures Run(p, n, a + b) == Run(Run(p, n, a), n, b)
    decreases a
  {
    if a > 0 {
      RunAdd(NextPhase(p, n), n, a - 1, b);
    }
  }

  /** During a sweep each tick takes exactly one more frequency. */
  lemma {:induction false} RunSweeping(i: nat, c: nat, n: nat, k: nat)
    requires i + k <= n
    ensures Run(Phase(i, false, c), n, k) == Phase(i + k, false, c)
    decreases k
  {
    if k > 0 {
      RunSweeping(i + 1, c, n, k - 1);
    }
  }

  /** Between sweeps each tick counts one more idle tick. */
  lemma {:induction false} RunPausing(i: nat, m: nat, n: nat, k: nat)
    requires m + k < PauseTicks
    ensures Run(Phase(i, true, m), n, k) == Phase(i, true, m + k)
    decreases k
  {
    if k > 0 {
      RunPausing(i, m + 1, n, k - 1);
    }
  }

  /**
   * A whole cycle: from a fresh sweep over `n` frequencies, `n` ticks take the
   * points, one tick finishes, and the 50th idle tick starts a fresh sweep
   * again, so the cycle lasts n + 1 + 50 ticks.
   */
  lemma SweepCycle(n: nat, c: nat)
    ensures Run(Phase(0, false, c), n, n) == Phase(n, false, c)
    ensures Run(Phase(0, false, c), n, n + 1) == Phase(n, true, 0)
    ensures Run(Phase(0, false, c), n, n + 1 + (PauseTicks - 1)) == Phase(n, true, PauseTicks - 1)
    ensures Run(Phase(0, false, c), n, n + 1 + PauseTicks) == Phase(0, false, PauseTicks)
  {
    var p := Phase(0, false, c);
    RunSweeping(0, c, n, n);
    RunAdd(p, n, n, 1);
    RunAdd(p, n, n + 1, PauseTicks - 1);
    RunPausing(n, 0, n, PauseTicks - 1);
    RunAdd(p, n, n + 1 + (PauseTicks - 1), 1);
  }

  // ---- settings --------------------------------------------------------------------

  /** np.linspace(start, stop, num) for num >= 0, in exact arithmetic. */
  function Linspace(start: real, stop: real, num: nat): (r: seq<real>)
    ensures |r| == num
    ensures num >= 1 ==> r[0] == start
    ensures num >= 2 ==> r[num - 1] == stop
  {
    if num == 1 then [start]
    else seq(num, i requires 0 <= i < num => start + (i as real) * (stop - start) / ((num - 1) as real))
  }

  /** A marker on the amplitude plot. */
  datatype Marker = Alert(freq: real, amp: real) | AutoPeak(freq: real, amp: real)

  /** The markers of the peaks the detector found, in its order. */
  function PeakMarkers(freqs: seq<real>, amps: seq<real>, peaks: seq<nat>): (r: seq<Marker>)
    requires |freqs| == |amps| && forall k :: 0 <= k < |peaks| ==> peaks[k] < |amps|
    ensures |r| == |peaks|
    ensures forall k :: 0 <= k < |peaks| ==> r[k] == AutoPeak(freqs[peaks[k]], amps[peaks[k]])
  {
    seq(|peaks|, k requires 0 <= k < |peaks| => AutoPeak(freqs[peaks[k]], amps[peaks[k]]))
  }

  /** The loop of add_known_bands, with its running label counter. */
  method DrawBands(bands: seq<Band>, lo: real, hi: real) returns (drawn: seq<Region>)
    ensures drawn == Visible(bands, lo, hi, 0)
  {
    drawn := [];
    var i: nat := 0;
    var b := 0;
    while b < |bands|
      invariant 0 <= b <= |bands|
      invariant i == |drawn|
      invariant drawn + Visible(bands[b..], lo, hi, i) == Visible(bands, lo, hi, 0)
    {
      VisibleStep(bands, b, lo, hi, i);
      if Overlaps(bands[b], lo, hi) {
        drawn := drawn + [Clip(bands[b], lo, hi, i)];
        i := i + 1;
      }
      b := b + 1;
    }
    assert bands[b..] == [];
  }

  // ---- the main window ---------------------------------------------------------------

  class MainWindow {
    var sampleRate: real
    var rfBandwidth: real
    var cutoffHz: real
    var sweepStart: real
    var sweepStop: real
    var sweepSteps: int
    var frequencies: seq<real>
    var freqList: seq<real>
    var ampList: seq<real>
    var peakHold: map<real, real>
    /** Every point measured since the peak hold was last cleared. */
    ghost var seen: seq<Point>
    var sweepIndex: nat
    var sweepComplete: bool
    var pauseCounter: nat
    var isPaused: bool
    var allKnownBands: seq<Band>
    var regions: seq<Region>
    var markers: seq<Marker>

    /**
     * The lists hold one point per frequency taken so far, in sweep order;
     * a finished sweep has taken every frequency and is within its pause;
     * the peak hold is the maximum at each rounded frequency since it was
     * last cleared.
     */
    ghost predicate Valid()
      reads this`freqList, this`ampList, this`sweepIndex, this`frequencies, this`sweepComplete,
            this`pauseCounter, this`peakHold, this`seen
    {
      && |freqList| == sweepIndex && |ampList| == sweepIndex && sweepIndex <= |frequencies|
      && (forall k :: 0 <= k < sweepIndex ==> freqList[k] == frequencies[k] / 1000000000.0)
      && (sweepComplete ==> sweepIndex == |frequencies| && pauseCounter < PauseTicks)
      && peakHold == HoldOf(seen)
    }

    function CurrentPhase(): Phase
      reads this`sweepIndex, this`sweepComplete, this`pauseCounter
    {
      Phase(sweepIndex, sweepComplete, pauseCounter)
    }

    /** The window's initial state: defaults, the default sweep, bands over 0.1–6 GHz. */
    constructor ()
      ensures Valid() && CurrentPhase() == Phase(0, false, 0) && !isPaused
      ensures sampleRate == 1000000.0 && rfBandwidth == 1000000.0 && cutoffHz == 400000.0
      ensures sweepStart == 100000000.0 && sweepStop == 6000000000.0 && sweepSteps == 2000
      ensures frequencies == Linspace(100000000.0, 6000000000.0, 2000)
      ensures freqList == [] && ampList == [] && peakHold == map[] && markers == []
      ensures allKnownBands == KnownBands
      ensures regions == Visible(allKnownBands, sweepStart / 1000000000.0, sweepStop / 1000000000.0, 0)
    {
      sampleRate, rfBandwidth, cutoffHz := 1000000.0, 1000000.0, 400000.0;
      sweepStart, sweepStop, sweepSteps := 100000000.0, 6000000000.0, 2000;
      frequencies := Linspace(100000000.0, 6000000000.0, 2000);
      freqList, ampList, peakHold, seen := [], [], map[], [];
      sweepIndex, sweepComplete, pauseCounter, isPaused := 0, false, 0, false;
      allKnownBands := KnownBands;
      markers := [];
      regions := [];
      new;
      AddKnownBands();
    }

    /** add_known_bands: redraw the known bands that meet the sweep range, clipped to it. */
    method AddKnownBands()
      modifies this`regions
      ensures regions == Visible(allKnownBands, sweepStart / 1000000000.0, sweepStop / 1000000000.0, 0)
    {
      regions := DrawBands(allKnownBands, sweepStart / 1000000000.0, sweepStop / 1000000000.0);
    }

    /**
     * update_plot, one timer tick.  `amp` is the amplitude measured at the
     * current frequency, `threshold` the alert threshold as parsed, `peaks`
     * the positions find_peaks reports on the amplitude list.
     */
    method UpdatePlot(amp: real, threshold: Option<real>, peaks: seq<nat>)
      requires Valid()
      requires forall k :: 0 <= k < |peaks| ==> peaks[k] < |ampList|
      modifies this`freqList, this`ampList, this`peakHold, this`seen, this`markers,
               this`sweepIndex, this`sweepComplete, this`pauseCounter
      ensures Valid()
      ensures old(isPaused) ==>
                CurrentPhase() == old(CurrentPhase()) && freqList == old(freqList)
                && ampList == old(ampList) && peakHold == old(peakHold) && markers == old(markers)
      ensures !old(isPaused) ==> CurrentPhase() == NextPhase(old(CurrentPhase()), |frequencies|)
      // a sweeping tick takes one point
      ensures !old(isPaused) && !old(sweepComplete) && old(sweepIndex) < |frequencies| ==>
                var f := frequencies[old(sweepIndex)] / 1000000000.0;
                && freqList == old(freqList) + [f] && ampList == old(ampList) + [amp]
                && seen == old(seen) + [Point(f, amp)] && peakHold == Hold(old(peakHold), Round5(f), amp)
                && markers == old(markers) + (if Alerts(allKnownBands, f, amp, threshold) then [Alert(f, amp)] else [])
      // the finishing tick marks the detected peaks
      ensures !old(isPaused) && !old(sweepComplete) && old(sweepIndex) >= |frequencies| ==>
                freqList == old(freqList) && ampList == old(ampList) && peakHold == old(peakHold)
                && markers == old(markers) + (if |old(ampList)| > 0 then PeakMarkers(old(freqList), old(ampList), peaks) else [])
      // an idle tick waits, and the last one clears the lists for a new sweep
      ensures !old(isPaused) && old(sweepComplete) && old(pauseCounter) + 1 < PauseTicks ==>
                freqList == old(freqList) && ampList == old(ampList) && peakHold == old(peakHold) && markers == old(markers)
      ensures !old(isPaused) && old(sweepComplete) && old(pauseCounter) + 1 >= PauseTicks ==>
                freqList == [] && ampList == [] && peakHold == old(peakHold) && markers == []
    {
      if isPaused {
        return;
      }
      if !sweepComplete && sweepIndex < |frequencies| {
        TakePoint(amp, threshold);
      } else if !sweepComplete {
        sweepComplete := true;
        pauseCounter := 0;
        if |ampList| > 0 {
          markers := markers + PeakMarkers(freqList, ampList, peaks);
        }
      } else {
        pauseCounter := pauseCounter + 1;
        if pauseCounter >= PauseTicks {
          markers := [];
          freqList := [];
          ampList := [];
          sweepIndex := 0;
          sweepComplete := false;
        }
      }
    }

    /** The sweeping branch of update_plot: record the point, update the peak hold, maybe alert. */
    method TakePoint(amp: real, threshold: Option<real>)
      requires Valid() && !sweepComplete && sweepIndex < |frequencies|
      modifies this`freqList, this`ampList, this`peakHold, this`seen, this`markers, this`sweepIndex
      ensures Valid() && sweepIndex == old(sweepIndex) + 1
      ensures var f := frequencies[old(sweepIndex)] / 1000000000.0;
                && freqList == old(freqList) + [f] && ampList == old(ampList) + [amp]
                && seen == old(seen) + [Point(f, amp)] && peakHold == Hold(old(peakHold), Round5(f), amp)
                && markers == old(markers) + (if Alerts(allKnownBands, f, amp, threshold) then [Alert(f, amp)] else [])
    {
      var f := frequencies[sweepIndex] / 1000000000.0;
      freqList := freqList + [f];
      ampList := ampList + [amp];
      HoldNeverDrops(seen, Point(f, amp));
      peakHold := Hold(peakHold, Round5(f), amp);
      seen := seen + [Point(f, amp)];
      if amp > AlertThreshold(threshold) && !InSomeBand(allKnownBands, f) {
        markers := markers + [Alert(f, amp)];
      }
      sweepIndex := sweepIndex + 1;
    }

    /** toggle_pause. */
    method TogglePause()
      modifies this`isPaused
      ensures isPaused == !old(isPaused)
    {
      isPaused := !isPaused;
    }

    /** clear_all_markers. */
    method ClearAllMarkers()
      modifies this`markers
      ensures markers == []
    {
      markers := [];
    }

    /** reset_peak_hold: the dictionary starts again from empty. */
    method ResetPeakHold()
      requires Valid()
      modifies this`peakHold, this`seen
      ensures Valid() && peakHold == map[] && seen == []
    {
      peakHold := map[];
      seen := [];
    }

    /**
     * apply_sdr_settings with each text field as parsed (None when float()
     * or int() rejects it); `sdrAccepts` says whether the radio accepted the
     * writes of the new sample rate and RF bandwidth, and `filterDesigned`
     * whether the FIR design for the new rate and cutoff succeeded.  The fields are taken in order and
     * the first failure ends the method with the earlier fields already set;
     * only a complete success restarts the sweep.
     */
    method ApplySdrSettings(sr: Option<real>, sdrAccepts: bool, cutoff: Option<real>, filterDesigned: bool,
                            start: Option<real>, stop: Option<real>, steps: Option<int>) returns (ok: bool)
      requires Valid()
      modifies this`sampleRate, this`rfBandwidth, this`cutoffHz, this`sweepStart, this`sweepStop, this`sweepSteps,
               this`frequencies, this`markers, this`freqList, this`ampList, this`peakHold, this`seen,
               this`sweepIndex, this`sweepComplete, this`regions
      ensures Valid()
      ensures ok <==> sr.Some? && sdrAccepts && cutoff.Some? && filterDesigned && start.Some? && stop.Some? && steps.Some?
                      && steps.value >= 0
      ensures sampleRate == (if sr.Some? && sdrAccepts then sr.value else old(sampleRate))
      ensures rfBandwidth == (if sr.Some? && sdrAccepts then sr.value else old(rfBandwidth))
      ensures cutoffHz == (if sr.Some? && sdrAccepts && cutoff.Some? then cutoff.value else old(cutoffHz))
      ensures var parsed := sr.Some? && sdrAccepts && cutoff.Some? && filterDesigned && start.Some? && stop.Some? && steps.Some?;
              && sweepStart == (if parsed then start.value else old(sweepStart))
              && sweepStop == (if parsed then stop.value else old(sweepStop))
              && sweepSteps == (if parsed then steps.value else old(sweepSteps))
      ensures !ok ==>
                CurrentPhase() == old(CurrentPhase()) && frequencies == old(frequencies) && freqList == old(freqList)
                && ampList == old(ampList) && peakHold == old(peakHold) && markers == old(markers) && regions == old(regions)
      ensures ok ==>
                frequencies == Linspace(start.value, stop.value, steps.value as nat)
                && freqList == [] && ampList == [] && peakHold == map[] && markers == []
                && sweepIndex == 0 && !sweepComplete
                && regions == Visible(allKnownBands, start.value / 1000000000.0, stop.value / 1000000000.0, 0)
    {
      ok := ReadSettings(sr, sdrAccepts, cutoff, filterDesigned, start, stop, steps);
      if ok {
        RestartSweep(Linspace(sweepStart, sweepStop, sweepSteps as nat));
      }
    }

    /**
     * The parsing part of apply_sdr_settings: each field set in turn until one
     * fails; the radio's sample rate and RF bandwidth are written before the
     * window's own fields, so a refused write leaves every field as it was.
     */
    method ReadSettings(sr: Option<real>, sdrAccepts: bool, cutoff: Option<real>, filterDesigned: bool,
                        start: Option<real>, stop: Option<real>, steps: Option<int>) returns (ok: bool)
      modifies this`sampleRate, this`rfBandwidth, this`cutoffHz, this`sweepStart, this`sweepStop, this`sweepSteps
      ensures ok <==> sr.Some? && sdrAccepts && cutoff.Some? && filterDesigned && start.Some? && stop.Some? && steps.Some?
                      && steps.value >= 0
      ensures sampleRate == (if sr.Some? && sdrAccepts then sr.value else old(sampleRate))
      ensures rfBandwidth == (if sr.Some? && sdrAccepts then sr.value else old(rfBandwidth))
      ensures cutoffHz == (if sr.Some? && sdrAccepts && cutoff.Some? then cutoff.value else old(cutoffHz))
      ensures var parsed := sr.Some? && sdrAccepts && cutoff.Some? && filterDesigned && start.Some? && stop.Some? && steps.Some?;
              && sweepStart == (if parsed then start.value else old(sweepStart))
              && sweepStop == (if parsed then stop.value else old(sweepStop))
              && sweepSteps == (if parsed then steps.value else old(sweepSteps))
    {
      ok := false;
      if sr.Some? && sdrAccepts {
        sampleRate, rfBandwidth := sr.value, sr.value;
        if cutoff.Some? {
          cutoffHz := cutoff.value;
          if filterDesigned && start.Some? && stop.Some? && steps.Some? {
            sweepStart, sweepStop, sweepSteps := start.value, stop.value, steps.value;
            ok := steps.value >= 0;
          }
        }
      }
    }

    /** The tail of apply_sdr_settings: the new frequency list and a fresh sweep over it. */
    method RestartSweep(newFrequencies: seq<real>)
      modifies this`frequencies, this`markers, this`freqList, this`ampList, this`peakHold, this`seen,
               this`sweepIndex, this`sweepComplete, this`regions
      ensures Valid()
      ensures frequencies == newFrequencies && freqList == [] && ampList == [] && peakHold == map[] && markers == []
      ensures sweepIndex == 0 && !sweepComplete
      ensures regions == Visible(allKnownBands, sweepStart / 1000000000.0, sweepStop / 1000000000.0, 0)
    {
      frequencies := newFrequencies;
      markers := [];
      freqList, ampList := [], [];
      peakHold, seen := map[], [];
      sweepIndex, sweepComplete := 0, false;
      AddKnownBands();
    }
  }
}

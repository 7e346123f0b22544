/** The windowed detector (src/activity.rs): two accumulators per channel, fed one
    sample at a time, evaluate every overlapping window of the recording. */
module Activity {
  import opened Base
  import opened Audio
  import opened ChunkMath
  import opened WindowGate
  import D = ExportDecision

  // ---- geometry ----

  datatype WindowGeometry = WindowGeometry(window: nat, hop: nat, sustained: nat)
  {
    ghost predicate Valid() { 0 < window <= 2 * hop && hop < 0x1_0000_0000 && sustained > 0 }
  }

  function Geometry(rate: nat): WindowGeometry {
    WindowGeometry(Max(DivCeil(rate * 20, 1000), 1),
                   Max(DivCeil(rate * 10, 1000), 1),
                   Max(DivCeil(rate * 100, 1000), 1))
  }

  /** At every sample rate a window is at most two hops long, so two
      accumulators are enough. */
  lemma WindowWithinTwoHops(rate: nat)
    requires 0 < rate <= 0xFFFF_FFFF
    ensures Geometry(rate).Valid()
  {
  }

  // ---- levels ----

  /** The floating-point part of the detector, kept abstract: how a finite sample
      enters an accumulator and which levels (in dBFS) come out of it. */
  datatype Meter<!E> = Meter(silent: E, add: (E, real) -> E, rms: (E, nat) -> real, peak: E -> real)
  {
    function Add(e: E, s: Sample): E { if s.Finite? then add(e, s.v) else e }

    /** The samples from `a` to `b`, entered one after the other. */
    function Energy(samples: seq<Sample>, a: nat, b: nat): E
      requires a <= b <= |samples|
    {
      if a == b then silent else Add(Energy(samples, a, b - 1), samples[b - 1])
    }
  }

  datatype Detector = ExactZero | WindowedRmsPeak | FixedLevel | CalibratedNoiseFloor

  /** One channel's detector settings; a missing threshold is one that was not
      finite. */
  datatype Config = Config(detector: Detector, threshold: Option<real>, start: nat, geometry: WindowGeometry)
  {
    predicate Watching() { detector.WindowedRmsPeak? && threshold.Some? }

    function Setting(): Setting
      requires threshold.Some?
    {
      WindowGate.Setting(threshold.value, geometry.sustained)
    }
  }

  // ---- the reference: all windows of a recording ----

  /** Window `k` of a recording, cut short at its end. */
  function WindowAt<E>(m: Meter<E>, c: Config, samples: seq<Sample>, k: nat): Window
    requires Times(k, c.geometry.hop) <= |samples|
  {
    var a := Times(k, c.geometry.hop);
    var b := Min(a + c.geometry.window, |samples|);
    var e := m.Energy(samples, a, b);
    Window(c.start + a, c.start + b, m.rms(e, b - a), m.peak(e))
  }

  /** The first `count` windows. */
  function Windows<E>(m: Meter<E>, c: Config, samples: seq<Sample>, count: nat): seq<Window>
    requires count > 0 ==> Times(count - 1, c.geometry.hop) <= |samples|
  {
    if count == 0 then []
    else
      TimesMonotone(count - 1, count - 1, c.geometry.hop);
      WindowsBelow(c.geometry.hop, count);
      Windows(m, c, samples, count - 1) + [WindowAt(m, c, samples, count - 1)]
  }

  lemma WindowsBelow(hop: nat, count: nat)
    requires count > 0
    ensures count > 1 ==> Times(count - 2, hop) <= Times(count - 1, hop)
  {
    if count > 1 { TimesMonotone(count - 2, count - 1, hop); }
  }

  /** How many of the windows are complete within `n` frames. */
  function Complete(g: WindowGeometry, n: nat): nat
    requires g.hop > 0
  {
    if n < g.window then 0 else (n - g.window) / g.hop + 1
  }

  lemma CompleteBounds(g: WindowGeometry, n: nat)
    requires g.Valid()
    ensures var k := Complete(g, n);
            Times(k, g.hop) + g.window > n && (k > 0 ==> Times(k - 1, g.hop) + g.window <= n)
  {
    if n >= g.window {
      DivParts(n - g.window, g.hop);
      TimesStep((n - g.window) / g.hop, g.hop);
    }
  }

  lemma CompleteStep(g: WindowGeometry, n: nat)
    requires g.Valid()
    ensures var k := Complete(g, n);
            Complete(g, n + 1) == if Times(k, g.hop) + g.window == n + 1 then k + 1 else k
  {
    var k := Complete(g, n);
    CompleteBounds(g, n);
    TimesZero(0, g.hop);
    if n + 1 >= g.window {
      var rest := n + 1 - g.window;
      if Times(k, g.hop) + g.window == n + 1 {
        DivUnique(rest, k, 0, g.hop);
      } else if k > 0 {
        TimesStep(k - 1, g.hop);
        DivUnique(rest, k - 1, rest - Times(k - 1, g.hop), g.hop);
      }
    }
  }

  // ---- the streaming state ----

  datatype Accumulator<E> = Accumulator(start: nat, energy: E, count: nat)

  datatype DetectorState<E> = DetectorState(
    accumulators: seq<Accumulator<E>>,
    gate: Gate,
    nonFinite: bool,
    exactNonzero: bool)

  datatype Error = FrameOverflow | WindowOverflow | EvidenceOverflow | WindowEndOverflow

  /** `prepare_state` on a reset detector. */
  function Prepared<E>(m: Meter<E>, c: Config): DetectorState<E> {
    var s := DetectorState([Accumulator(0, m.silent, 0), Accumulator(0, m.silent, 0)], CLOSED, false, false);
    if !c.detector.WindowedRmsPeak? then s
    else
      s.(accumulators := [Accumulator(0, m.silent, 0), Accumulator(c.geometry.hop, m.silent, 0)],
         gate := if c.threshold.None? then Gate(None, Ambiguous, Some(c.start)) else CLOSED)
  }

  function NoteSample<E>(c: Config, s: DetectorState<E>, sample: Sample, frame: nat): DetectorState<E> {
    if sample.NonFinite? then s.(nonFinite := true)
    else if sample.v == 0.0 then s
    else if !c.detector.ExactZero? then s.(exactNonzero := true)
    else
      s.(exactNonzero := true,
         gate := s.gate.(activity := Active, evidence := Some(s.gate.evidence.GetOr(c.start + frame))))
  }

  /** `evaluate_window` on an accumulator. */
  function Evaluate<E>(m: Meter<E>, c: Config, gate: Gate, a: Accumulator<E>): Result<Gate, Error>
    requires c.threshold.Some?
  {
    if a.count == 0 then Ok(gate)
    else if c.start + a.start > U64_MAX then Err(EvidenceOverflow)
    else if c.start + a.start + a.count > U64_MAX then Err(WindowEndOverflow)
    else
      Ok(Judge(c.Setting(), gate,
               Window(c.start + a.start, c.start + a.start + a.count, m.rms(a.energy, a.count), m.peak(a.energy))))
  }

  /** One accumulator's share of a frame: a frame inside its window enters it, and
      a window that is full is evaluated and moved two hops on. */
  function FeedOne<E>(m: Meter<E>, c: Config, s: DetectorState<E>, index: nat, sample: Sample, frame: nat)
    : (r: Result<DetectorState<E>, Error>)
    requires |s.accumulators| == 2 && index < 2 && c.threshold.Some?
    ensures r.Ok? ==> |r.value.accumulators| == 2
  {
    var a := s.accumulators[index];
    if frame < a.start || frame >= a.start + c.geometry.window then Ok(s)
    else
      var fed := Accumulator(a.start, m.Add(a.energy, sample), a.count + 1);
      if fed.count != c.geometry.window then Ok(s.(accumulators := s.accumulators[index := fed]))
      else if a.start + 2 * c.geometry.hop > U64_MAX then Err(WindowOverflow)
      else
        var next := Accumulator(a.start + 2 * c.geometry.hop, m.silent, 0);
        match Evaluate(m, c, s.gate, fed)
        case Err(e) => Err(e)
        case Ok(gate) => Ok(s.(accumulators := s.accumulators[index := next], gate := gate))
  }

  /** `feed_sample`. */
  function Feed<E>(m: Meter<E>, c: Config, s: DetectorState<E>, sample: Sample, frame: nat)
    : (r: Result<DetectorState<E>, Error>)
    requires |s.accumulators| == 2
    ensures r.Ok? ==> |r.value.accumulators| == 2
  {
    if c.start + frame > U64_MAX then Err(FrameOverflow)
    else
      var noted := NoteSample(c, s, sample, frame);
      if !c.Watching() then Ok(noted)
      else
        match FeedOne(m, c, noted, 0, sample, frame)
        case Err(e) => Err(e)
        case Ok(t) => FeedOne(m, c, t, 1, sample, frame)
  }

  // ---- what the state holds ----

  /** The accumulator of window `k` after `samples`. */
  function Held<E>(m: Meter<E>, g: WindowGeometry, samples: seq<Sample>, k: nat): Accumulator<E> {
    var a := Times(k, g.hop);
    if |samples| <= a then Accumulator(a, m.silent, 0)
    else Accumulator(a, m.Energy(samples, a, |samples|), |samples| - a)
  }

  predicate Nonzero(s: Sample) { s.Finite? && s.v != 0.0 }

  function FirstNonzero(samples: seq<Sample>): Option<nat> {
    if samples == [] then None
    else
      var last := |samples| - 1;
      var f := FirstNonzero(samples[..last]);
      if f.Some? then f else if Nonzero(samples[last]) then Some(last) else None
  }

  predicate AnyNonFinite(samples: seq<Sample>) {
    exists i :: 0 <= i < |samples| && samples[i].NonFinite?
  }

  /** The gate of a detector that evaluates no windows. */
  function PlainGate(c: Config, samples: seq<Sample>): Gate {
    if c.detector.ExactZero? then
      match FirstNonzero(samples)
      case None => CLOSED
      case Some(i) => Gate(None, Active, Some(c.start + i))
    else if c.detector.WindowedRmsPeak? && c.threshold.None? then Gate(None, Ambiguous, Some(c.start))
    else CLOSED
  }

  /** Accumulator `p` has window `k`, the other one window `k + 1`. */
  ghost predicate Parked<E(!new)>(m: Meter<E>, g: WindowGeometry, samples: seq<Sample>, s: DetectorState<E>, k: nat,
                                  p: nat)
    requires |s.accumulators| == 2 && p < 2
  {
    s.accumulators[p] == Held(m, g, samples, k) && s.accumulators[1 - p] == Held(m, g, samples, k + 1)
  }

  /** The state after `samples`: the two windows not yet complete are in the two
      accumulators, and the gate has judged all complete ones in order. */
  ghost predicate Tracks<E(!new)>(m: Meter<E>, c: Config, samples: seq<Sample>, s: DetectorState<E>)
    requires c.geometry.Valid()
  {
    && |s.accumulators| == 2
    && s.nonFinite == AnyNonFinite(samples) && s.exactNonzero == FirstNonzero(samples).Some?
    && if !c.Watching() then s.gate == PlainGate(c, samples)
       else
         var g := c.geometry;
         var k := Complete(g, |samples|);
         CompleteBounds(g, |samples|);
         && Parked(m, g, samples, s, k, k % 2)
         && s.gate == Judged(c.Setting(), Windows(m, c, samples, k))
  }

  lemma {:induction false} EnergyPrefix<E>(m: Meter<E>, samples: seq<Sample>, x: Sample, a: nat, b: nat)
    requires a <= b <= |samples|
    ensures m.Energy(samples + [x], a, b) == m.Energy(samples, a, b)
    decreases b - a
  {
    if a < b { EnergyPrefix(m, samples, x, a, b - 1); }
  }

  lemma {:induction false} WindowsPrefix<E>(m: Meter<E>, c: Config, samples: seq<Sample>, x: Sample, k: nat)
    requires c.geometry.Valid() && (k > 0 ==> Times(k - 1, c.geometry.hop) + c.geometry.window <= |samples|)
    ensures Windows(m, c, samples + [x], k) == Windows(m, c, samples, k)
  {
    if k > 0 {
      WindowsBelow(c.geometry.hop, k);
      var a := Times(k - 1, c.geometry.hop);
      EnergyPrefix(m, samples, x, a, a + c.geometry.window);
      WindowsPrefix(m, c, samples, x, k - 1);
    }
  }

  lemma NotesStep(samples: seq<Sample>, x: Sample)
    ensures AnyNonFinite(samples + [x]) == (AnyNonFinite(samples) || x.NonFinite?)
    ensures FirstNonzero(samples + [x])
            == if FirstNonzero(samples).Some? then FirstNonzero(samples)
               else if Nonzero(x) then Some(|samples|) else None
  {
    var longer := samples + [x];
    assert longer[..|samples|] == samples;
    if AnyNonFinite(samples) {
      var i :| 0 <= i < |samples| && samples[i].NonFinite?;
      assert longer[i].NonFinite?;
    }
    if x.NonFinite? { assert longer[|samples|].NonFinite?; }
  }

  /** Feeding the accumulator of a window that is not complete. */
  lemma FeedHeld<E>(m: Meter<E>, c: Config, s: DetectorState<E>, index: nat, samples: seq<Sample>, x: Sample, k: nat)
    requires c.geometry.Valid() && c.threshold.Some? && |s.accumulators| == 2 && index < 2
    requires s.accumulators[index] == Held(m, c.geometry, samples, k)
    requires Times(k, c.geometry.hop) + c.geometry.window > |samples|
    requires c.start + |samples| + 1 <= U64_MAX && |samples| + 2 * c.geometry.hop <= U64_MAX
    ensures var longer := samples + [x];
            FeedOne(m, c, s, index, x, |samples|)
            == if Times(k, c.geometry.hop) + c.geometry.window == |longer| then
                 Ok(s.(accumulators := s.accumulators[index := Held(m, c.geometry, longer, k + 2)],
                       gate := Judge(c.Setting(), s.gate, WindowAt(m, c, longer, k))))
               else Ok(s.(accumulators := s.accumulators[index := Held(m, c.geometry, longer, k)]))
  {
    var a := Times(k, c.geometry.hop);
    TimesStep(k, c.geometry.hop);
    TimesStep(k + 1, c.geometry.hop);
    if a <= |samples| {
      EnergyPrefix(m, samples, x, a, |samples|);
    } else {
      assert s.accumulators[index := s.accumulators[index]] == s.accumulators;
    }
  }

  /** A frame completes at most the older of the two windows, whichever
      accumulator holds it. */
  lemma FeedBoth<E(!new)>(m: Meter<E>, c: Config, s: DetectorState<E>, samples: seq<Sample>, x: Sample, k: nat, p: nat)
    requires c.geometry.Valid() && c.Watching() && |s.accumulators| == 2 && p < 2
    requires Parked(m, c.geometry, samples, s, k, p)
    requires Times(k, c.geometry.hop) + c.geometry.window > |samples|
    requires c.start + |samples| + 1 <= U64_MAX && |samples| + 2 * c.geometry.hop <= U64_MAX
    ensures var g, longer := c.geometry, samples + [x];
      var noted, r := NoteSample(c, s, x, |samples|), Feed(m, c, s, x, |samples|);
      && r.Ok?
      && (if Times(k, g.hop) + g.window == |longer| then
            && Parked(m, g, longer, r.value, k + 1, 1 - p)
            && r.value.gate == Judge(c.Setting(), s.gate, WindowAt(m, c, longer, k))
          else Parked(m, g, longer, r.value, k, p) && r.value.gate == s.gate)
      && r.value.nonFinite == noted.nonFinite && r.value.exactNonzero == noted.exactNonzero
  {
    hide FeedOne, Held, WindowAt, Judge;
    var g := c.geometry;
    TimesStep(k, g.hop);
    var noted := NoteSample(c, s, x, |samples|);
    assert noted.gate == s.gate && noted.accumulators == s.accumulators;
    if p == 0 {
      FeedHeld(m, c, noted, 0, samples, x, k);
      FeedHeld(m, c, FeedOne(m, c, noted, 0, x, |samples|).value, 1, samples, x, k + 1);
    } else {
      FeedHeld(m, c, noted, 0, samples, x, k + 1);
      FeedHeld(m, c, FeedOne(m, c, noted, 0, x, |samples|).value, 1, samples, x, k);
    }
  }

  lemma FeedTracks<E(!new)>(m: Meter<E>, c: Config, s: DetectorState<E>, samples: seq<Sample>, x: Sample)
    requires c.geometry.Valid() && Tracks(m, c, samples, s)
    requires c.start + |samples| + 1 <= U64_MAX && |samples| + 2 * c.geometry.hop <= U64_MAX
    ensures var r := Feed(m, c, s, x, |samples|);
            r.Ok? && Tracks(m, c, samples + [x], r.value)
  {
    NotesStep(samples, x);
    if c.Watching() {
      FeedWatching(m, c, s, samples, x);
    } else {
      hide AnyNonFinite, FirstNonzero, Parked;
    }
  }

  lemma FeedWatching<E(!new)>(m: Meter<E>, c: Config, s: DetectorState<E>, samples: seq<Sample>, x: Sample)
    requires c.geometry.Valid() && c.Watching() && Tracks(m, c, samples, s)
    requires c.start + |samples| + 1 <= U64_MAX && |samples| + 2 * c.geometry.hop <= U64_MAX
    ensures var r := Feed(m, c, s, x, |samples|);
            r.Ok? && Tracks(m, c, samples + [x], r.value)
  {
    hide Feed, Held, WindowAt, Judge, Windows, Complete, Judged, AnyNonFinite, FirstNonzero, Parked;
    var g, k := c.geometry, Complete(c.geometry, |samples|);
    NotesStep(samples, x);
    CompleteBounds(g, |samples|);
    CompleteStep(g, |samples|);
    FeedBoth(m, c, s, samples, x, k, k % 2);
    assert (k + 1) % 2 == 1 - k % 2;
    WindowsPrefix(m, c, samples, x, k);
    if Times(k, g.hop) + g.window == |samples| + 1 {
      WindowsJudged(m, c, samples, x, k);
    }
  }

  lemma WindowsJudged<E>(m: Meter<E>, c: Config, samples: seq<Sample>, x: Sample, k: nat)
    requires c.geometry.Valid() && c.threshold.Some?
    requires Times(k, c.geometry.hop) + c.geometry.window == |samples| + 1
    requires k > 0 ==> Times(k - 1, c.geometry.hop) + c.geometry.window <= |samples|
    ensures var longer := samples + [x];
            Judged(c.Setting(), Windows(m, c, longer, k + 1))
            == Judge(c.Setting(), Judged(c.Setting(), Windows(m, c, samples, k)), WindowAt(m, c, longer, k))
  {
    var longer := samples + [x];
    WindowsPrefix(m, c, samples, x, k);
    var ws := Windows(m, c, longer, k + 1);
    assert ws == Windows(m, c, longer, k) + [WindowAt(m, c, longer, k)];
    assert ws[..|ws| - 1] == Windows(m, c, longer, k);
  }

  // ---- the end of a recording ----

  function EvaluateTwo<E>(m: Meter<E>, c: Config, gate: Gate, a: Accumulator<E>, b: Accumulator<E>): Result<Gate, Error>
    requires c.threshold.Some?
  {
    match Evaluate(m, c, gate, a)
    case Err(e) => Err(e)
    case Ok(next) => Evaluate(m, c, next, b)
  }

  function Close<E>(m: Meter<E>, c: Config, s: DetectorState<E>): Result<Gate, Error>
    requires |s.accumulators| == 2 && c.threshold.Some?
  {
    var first := if s.accumulators[0].start <= s.accumulators[1].start then 0 else 1;
    EvaluateTwo(m, c, s.gate, s.accumulators[first], s.accumulators[1 - first])
  }

  /** `finish_state`: the windows cut short by the end, earlier first. */
  function Finish<E>(m: Meter<E>, c: Config, s: DetectorState<E>): Result<DetectorState<E>, Error>
    requires |s.accumulators| == 2
  {
    match if c.Watching() then Close(m, c, s) else Ok(s.gate)
    case Err(e) => Err(e)
    case Ok(gate) => Ok(s.(gate := if s.nonFinite then gate.(activity := Ambiguous) else gate))
  }

  /** The number of windows of a recording, the last ones cut short. */
  function WindowCount(g: WindowGeometry, n: nat): nat
    requires g.hop > 0
  {
    DivCeil(n, g.hop)
  }

  lemma WindowCountIs(g: WindowGeometry, n: nat, k: nat)
    requires g.hop > 0 && n <= Times(k, g.hop) && (k > 0 ==> Times(k - 1, g.hop) < n)
    ensures WindowCount(g, n) == k
  {
    TimesZero(0, g.hop);
    if k > 0 { TimesStep(k - 1, g.hop); }
    DivUnique(n + g.hop - 1, k, n + g.hop - 1 - Times(k, g.hop), g.hop);
  }

  lemma WindowCountBounds(g: WindowGeometry, n: nat)
    requires g.hop > 0
    ensures var k := WindowCount(g, n);
            n <= Times(k, g.hop) && (k > 0 ==> Times(k - 1, g.hop) < n)
  {
    DivParts(n + g.hop - 1, g.hop);
    if WindowCount(g, n) > 0 { TimesStep(WindowCount(g, n) - 1, g.hop); }
  }

  /** The reference verdict: every window of the recording, in order, judged by
      the gate; a non-finite sample leaves the channel ambiguous. */
  function Verdict<E>(m: Meter<E>, c: Config, samples: seq<Sample>): Gate
    requires c.geometry.hop > 0
  {
    WindowCountBounds(c.geometry, |samples|);
    var gate := if c.Watching() then Judged(c.Setting(), Windows(m, c, samples, WindowCount(c.geometry, |samples|)))
                else PlainGate(c, samples);
    if AnyNonFinite(samples) then gate.(activity := Ambiguous) else gate
  }

  /** An accumulator with frames is judged as its window, one without is passed
      over. */
  lemma EvaluateHeld<E>(m: Meter<E>, c: Config, samples: seq<Sample>, k: nat, gate: Gate)
    requires c.threshold.Some? && c.geometry.Valid() && c.start + |samples| <= U64_MAX
    requires |samples| <= Times(k, c.geometry.hop) + c.geometry.window
    ensures Evaluate(m, c, gate, Held(m, c.geometry, samples, k))
            == Ok(if |samples| <= Times(k, c.geometry.hop) then gate
                  else Judge(c.Setting(), gate, WindowAt(m, c, samples, k)))
  {
    hide Judge;
  }

  lemma CloseInOrder<E(!new)>(m: Meter<E>, c: Config, s: DetectorState<E>, samples: seq<Sample>, k: nat)
    requires c.geometry.Valid() && c.threshold.Some? && |s.accumulators| == 2
    requires Parked(m, c.geometry, samples, s, k, k % 2)
    ensures Close(m, c, s)
            == EvaluateTwo(m, c, s.gate, Held(m, c.geometry, samples, k), Held(m, c.geometry, samples, k + 1))
  {
    hide EvaluateTwo, Times;
    TimesStep(k, c.geometry.hop);
  }

  /** The windows cut short by the end are the ones after the complete ones. */
  lemma WindowsLeft(g: WindowGeometry, n: nat, k: nat)
    requires g.Valid() && k == Complete(g, n)
    ensures n <= Times(k, g.hop) + g.window && n <= Times(k + 1, g.hop) + g.window
    ensures WindowCount(g, n) == if n <= Times(k, g.hop) then k else if n <= Times(k + 1, g.hop) then k + 1 else k + 2
  {
    hide Complete, WindowCount, Times;
    CompleteBounds(g, n);
    TimesStep(k, g.hop);
    TimesStep(k + 1, g.hop);
    if k > 0 { TimesStep(k - 1, g.hop); }
    WindowCountIs(g, n, if n <= Times(k, g.hop) then k else if n <= Times(k + 1, g.hop) then k + 1 else k + 2);
  }

  lemma CompleteStarts(g: WindowGeometry, n: nat, k: nat)
    requires g.Valid() && k == Complete(g, n)
    ensures k > 0 ==> Times(k - 1, g.hop) <= n
  {
    hide Complete, Times;
    CompleteBounds(g, n);
  }

  lemma CloseJudges<E>(m: Meter<E>, c: Config, samples: seq<Sample>, k: nat)
    requires c.geometry.Valid() && c.threshold.Some? && c.start + |samples| <= U64_MAX
    requires k == Complete(c.geometry, |samples|)
    ensures k > 0 ==> Times(k - 1, c.geometry.hop) <= |samples|
    ensures var n := WindowCount(c.geometry, |samples|); n > 0 ==> Times(n - 1, c.geometry.hop) <= |samples|
    ensures EvaluateTwo(m, c, Judged(c.Setting(), Windows(m, c, samples, k)),
                        Held(m, c.geometry, samples, k), Held(m, c.geometry, samples, k + 1))
            == Ok(Judged(c.Setting(), Windows(m, c, samples, WindowCount(c.geometry, |samples|))))
  {
    hide WindowAt, Judge, Judged, Windows, Complete, WindowCount, Evaluate, Times, Held;
    var g := c.geometry;
    CompleteStarts(g, |samples|, k);
    var gate := Judged(c.Setting(), Windows(m, c, samples, k));
    WindowsLeft(g, |samples|, k);
    TimesStep(k, g.hop);
    EvaluateHeld(m, c, samples, k, gate);
    if |samples| <= Times(k, g.hop) {
      EvaluateHeld(m, c, samples, k + 1, gate);
    } else {
      JudgedOneMore(m, c, samples, k);
      EvaluateHeld(m, c, samples, k + 1, Judge(c.Setting(), gate, WindowAt(m, c, samples, k)));
      if |samples| > Times(k + 1, g.hop) { JudgedOneMore(m, c, samples, k + 1); }
    }
  }

  lemma FinishTracks<E(!new)>(m: Meter<E>, c: Config, s: DetectorState<E>, samples: seq<Sample>)
    requires c.geometry.Valid() && Tracks(m, c, samples, s) && c.start + |samples| <= U64_MAX
    ensures Finish(m, c, s) == Ok(s.(gate := Verdict(m, c, samples)))
  {
    hide Judged, Windows, Complete, WindowCount, Times, AnyNonFinite, FirstNonzero, Close, EvaluateTwo, Held;
    if c.Watching() {
      var k := Complete(c.geometry, |samples|);
      CloseInOrder(m, c, s, samples, k);
      CloseJudges(m, c, samples, k);
    }
  }

  lemma JudgedOneMore<E>(m: Meter<E>, c: Config, samples: seq<Sample>, k: nat)
    requires c.geometry.Valid() && c.threshold.Some? && Times(k, c.geometry.hop) <= |samples|
    ensures k > 0 ==> Times(k - 1, c.geometry.hop) <= |samples|
    ensures Judged(c.Setting(), Windows(m, c, samples, k + 1))
            == Judge(c.Setting(), Judged(c.Setting(), Windows(m, c, samples, k)), WindowAt(m, c, samples, k))
  {
    WindowsBelow(c.geometry.hop, k + 1);
    var ws := Windows(m, c, samples, k + 1);
    assert ws == Windows(m, c, samples, k) + [WindowAt(m, c, samples, k)];
    assert ws[..|ws| - 1] == Windows(m, c, samples, k);
  }

  // ---- classifying a frozen epoch ----

  datatype ChannelPolicy = ChannelPolicy(mode: D.Mode, threshold: Option<real>)

  datatype Policy = Policy(detector: Detector, channels: seq<ChannelPolicy>, trim: bool, exactZeroGate: bool)
  {
    function ConfigOf(c: nat, start: nat, rate: nat): Config
      requires c < |channels|
    {
      Config(detector, channels[c].threshold, start, Geometry(rate))
    }
  }

  /** One channel's samples. */
  function Column(frames: seq<Frame>, c: nat): seq<Sample>
    requires forall i :: 0 <= i < |frames| ==> c < |frames[i]|
  {
    seq(|frames|, i requires 0 <= i < |frames| => frames[i][c])
  }

  ghost predicate Rectangular(frames: seq<Frame>, width: nat) {
    forall i :: 0 <= i < |frames| ==> |frames[i]| == width
  }

  /** No more 4-byte samples than this fit in one allocation. */
  const MAX_FRAMES: nat := 0x2000_0000_0000_0000

  datatype ClassifyError = BadScratch | BadPolicy | BadRate | Deciding(decision: D.Error)

  /** The preallocated detector states and copy buffer of a session. */
  class DetectorWorkspace<E(!new)> {
    const meter: Meter<E>
    const states: array<DetectorState<E>>
    const scratch: array<Frame>

    constructor (meter: Meter<E>, channels: nat, chunkFrames: nat)
      ensures this.meter == meter && states.Length == channels && scratch.Length == chunkFrames
      ensures fresh(states) && fresh(scratch)
    {
      this.meter := meter;
      var empty := Accumulator(0, meter.silent, 0);
      states := new DetectorState<E>[channels](_ => DetectorState([empty, empty], CLOSED, false, false));
      scratch := new Frame[chunkFrames](_ => []);
    }

    /** Takes one sample of channel `c` into its state. */
    method FeedSample(c: nat, config: Config, sample: Sample, frame: nat) returns (r: Outcome<Error>)
      requires c < states.Length && |states[c].accumulators| == 2
      modifies states
      ensures match Feed(meter, config, old(states[c]), sample, frame)
              case Ok(s) => r.Pass? && states[c] == s
              case Err(e) => r == Fail(e)
      ensures forall i :: 0 <= i < states.Length && i != c ==> states[i] == old(states[i])
    {
      if config.start + frame > U64_MAX {
        return Fail(FrameOverflow);
      }
      states[c] := NoteSample(config, states[c], sample, frame);
      if !config.Watching() {
        return Pass;
      }
      ghost var noted := states[c];
      var index := 0;
      while index < 2
        invariant 0 <= index <= 2 && |states[c].accumulators| == 2
        invariant index == 0 ==> states[c] == noted
        invariant index == 1 ==> FeedOne(meter, config, noted, 0, sample, frame) == Ok(states[c])
        invariant index == 2 ==> Feed(meter, config, old(states[c]), sample, frame) == Ok(states[c])
        invariant forall i :: 0 <= i < states.Length && i != c ==> states[i] == old(states[i])
      {
        match FeedOne(meter, config, states[c], index, sample, frame)
        case Err(e) => return Fail(e);
        case Ok(s) => states[c] := s;
        index := index + 1;
      }
      return Pass;
    }

    /** Every channel's state is right for the first `n` frames. */
    ghost predicate Following(policy: Policy, start: nat, rate: nat, frames: seq<Frame>, n: nat)
      requires Rectangular(frames, |policy.channels|) && n <= |frames| && 0 < rate <= 0xFFFF_FFFF
      reads states
    {
      && states.Length == |policy.channels|
      && forall c :: 0 <= c < states.Length ==> Channel(policy, start, rate, frames, n, c, states[c])
    }

    ghost predicate Channel(policy: Policy, start: nat, rate: nat, frames: seq<Frame>, n: nat, c: nat,
                            s: DetectorState<E>)
      requires Rectangular(frames, |policy.channels|) && n <= |frames| && 0 < rate <= 0xFFFF_FFFF
      requires c < |policy.channels|
    {
      WindowWithinTwoHops(rate);
      Tracks(meter, policy.ConfigOf(c, start, rate), Column(frames[..n], c), s)
    }

    method Prepare(policy: Policy, start: u64, rate: nat, ghost frames: seq<Frame>)
      requires states.Length == |policy.channels| && 0 < rate <= 0xFFFF_FFFF && Rectangular(frames, |policy.channels|)
      modifies states
      ensures Following(policy, start, rate, frames, 0)
    {
      for c := 0 to states.Length
        invariant forall i :: 0 <= i < c ==> Channel(policy, start, rate, frames, 0, i, states[i])
      {
        WindowWithinTwoHops(rate);
        PreparedTracks(meter, policy.ConfigOf(c, start, rate));
        states[c] := Prepared(meter, policy.ConfigOf(c, start, rate));
        assert Column(frames[..0], c) == [];
      }
    }

    lemma ChannelFed(policy: Policy, start: u64, rate: nat, frames: seq<Frame>, n: nat, c: nat, s: DetectorState<E>)
      requires 0 < rate <= 0xFFFF_FFFF && Rectangular(frames, |policy.channels|) && c < |policy.channels|
      requires n < |frames| <= MAX_FRAMES && start + |frames| <= U64_MAX
      requires Channel(policy, start, rate, frames, n, c, s)
      ensures |s.accumulators| == 2
      ensures var r := Feed(meter, policy.ConfigOf(c, start, rate), s, frames[n][c], n);
              r.Ok? && Channel(policy, start, rate, frames, n + 1, c, r.value)
    {
      WindowWithinTwoHops(rate);
      FeedTracks(meter, policy.ConfigOf(c, start, rate), s, Column(frames[..n], c), frames[n][c]);
      assert Column(frames[..n + 1], c) == Column(frames[..n], c) + [frames[n][c]];
    }

    method FeedFrame(policy: Policy, start: u64, rate: nat, ghost frames: seq<Frame>, n: nat, values: Frame)
      returns (r: Outcome<Error>)
      requires 0 < rate <= 0xFFFF_FFFF && Rectangular(frames, |policy.channels|)
      requires n < |frames| <= MAX_FRAMES && values == frames[n] && start + |frames| <= U64_MAX
      requires Following(policy, start, rate, frames, n)
      modifies states
      ensures r.Pass? && Following(policy, start, rate, frames, n + 1)
    {
      ghost var next := n + 1;
      hide Channel, Feed;
      for c := 0 to states.Length
        invariant forall i :: 0 <= i < c ==> Channel(policy, start, rate, frames, next, i, states[i])
        invariant forall i :: c <= i < states.Length ==> Channel(policy, start, rate, frames, n, i, states[i])
      {
        ChannelFed(policy, start, rate, frames, n, c, states[c]);
        r := FeedSample(c, policy.ConfigOf(c, start, rate), values[c], n);
      }
      return Pass;
    }

    /** One copy out of the frozen epoch: some frames from `cursor` on. */
    method CopyInto(frames: seq<Frame>, cursor: nat) returns (copied: nat)
      requires cursor < |frames| && scratch.Length > 0
      modifies scratch
      ensures 0 < copied <= scratch.Length && cursor + copied <= |frames|
      ensures scratch[..copied] == frames[cursor..cursor + copied]
    {
      var some: nat := *;
      copied := if 0 < some <= scratch.Length && cursor + some <= |frames| then some else 1;
      forall i | 0 <= i < copied {
        scratch[i] := frames[cursor + i];
      }
    }

    method FeedAll(policy: Policy, start: u64, rate: nat, frames: seq<Frame>)
      requires 0 < rate <= 0xFFFF_FFFF && Rectangular(frames, |policy.channels|) && scratch.Length > 0
      requires |frames| <= MAX_FRAMES && start + |frames| <= U64_MAX
      requires Following(policy, start, rate, frames, 0)
      modifies states, scratch
      ensures Following(policy, start, rate, frames, |frames|)
    {
      hide Channel;
      var cursor := 0;
      while cursor < |frames|
        invariant cursor <= |frames| && Following(policy, start, rate, frames, cursor)
      {
        var copied := CopyInto(frames, cursor);
        ghost var copy := scratch[..copied];
        for frame := 0 to copied
          invariant scratch[..copied] == copy && Following(policy, start, rate, frames, cursor + frame)
        {
          assert scratch[frame] == copy[frame];
          var r := FeedFrame(policy, start, rate, frames, cursor + frame, scratch[frame]);
        }
        cursor := cursor + copied;
      }
    }

    method FinishAll(policy: Policy, start: u64, rate: nat, frames: seq<Frame>)
      returns (decided: seq<D.ChannelDecision>)
      requires 0 < rate <= 0xFFFF_FFFF && Rectangular(frames, |policy.channels|)
      requires start + |frames| <= U64_MAX && Following(policy, start, rate, frames, |frames|)
      modifies states
      ensures decided == Decided(meter, policy, start, rate, frames)
      ensures forall c :: 0 <= c < states.Length ==> Notes(frames, c, states[c])
    {
      decided := [];
      hide Channel, Finish, ChannelVerdict, Notes;
      for c := 0 to states.Length
        invariant |decided| == c
        invariant forall i :: 0 <= i < c ==> decided[i] == ChannelVerdict(meter, policy, start, rate, frames, i)
        invariant forall i :: 0 <= i < c ==> Notes(frames, i, states[i])
        invariant forall i :: c <= i < states.Length ==> Channel(policy, start, rate, frames, |frames|, i, states[i])
      {
        ChannelFinished(policy, start, rate, frames, c, states[c]);
        states[c] := Finish(meter, policy.ConfigOf(c, start, rate), states[c]).value;
        decided := decided + [FromGate(policy.channels[c].mode, states[c].gate)];
      }
    }

    lemma ChannelFinished(policy: Policy, start: u64, rate: nat, frames: seq<Frame>, c: nat, s: DetectorState<E>)
      requires 0 < rate <= 0xFFFF_FFFF && Rectangular(frames, |policy.channels|) && c < |policy.channels|
      requires start + |frames| <= U64_MAX && Channel(policy, start, rate, frames, |frames|, c, s)
      ensures |s.accumulators| == 2
      ensures var r := Finish(meter, policy.ConfigOf(c, start, rate), s);
        && r.Ok? && Notes(frames, c, r.value)
        && FromGate(policy.channels[c].mode, r.value.gate) == ChannelVerdict(meter, policy, start, rate, frames, c)
    {
      WindowWithinTwoHops(rate);
      assert frames[..|frames|] == frames;
      FinishTracks(meter, policy.ConfigOf(c, start, rate), s, Column(frames, c));
      hide Finish, Verdict;
    }

    /** `classify_frozen_epoch`: each channel gets the verdict of the whole
        recording, however the epoch was copied out, and the export keeps all of
        the evidence.  A frozen epoch is never empty, so the last condition for
        success is about ranges that do not arise. */
    method Classify(frames: seq<Frame>, start: u64, rate: nat, policy: Policy, decision: D.FrozenExportDecision)
      returns (r: Outcome<ClassifyError>)
      requires rate <= 0xFFFF_FFFF && Rectangular(frames, states.Length)
      requires |frames| <= MAX_FRAMES && start + |frames| <= U64_MAX
      modifies states, scratch, decision
      ensures r.Pass? <==>
        && !old(decision.valid) && scratch.Length > 0
        && |policy.channels| == states.Length && old(|decision.channels|) == states.Length
        && rate == decision.sampleRate && rate > 0
        && (frames == [] ==> !MissingThreshold(policy))
      ensures r.Fail? ==>
        match r.error
        case Deciding(e) => if old(decision.valid) then e.AlreadyFinal? else e.EvidenceOutside?
        case BadScratch => scratch.Length == 0
        case BadPolicy => |policy.channels| != states.Length || old(|decision.channels|) != states.Length
        case BadRate => rate != decision.sampleRate || rate == 0
      ensures r.Pass? ==>
        && decision.valid && start <= decision.start <= decision.end == start + |frames|
        && decision.channels == D.Applied(Decided(meter, policy, start, rate, frames),
                                          D.AllNever(Decided(meter, policy, start, rate, frames))
                                          || (policy.exactZeroGate && Silent(frames, states.Length)))
        && (forall d :: d in decision.channels && d.disposition.Retain? && d.evidence.Some? ==>
              decision.start <= d.evidence.value < decision.end)
        && exists first :: D.Earliest(decision.channels, first)
                           && D.LeadIn(start, decision.start, first, policy.trim, rate)
    {
      if decision.valid {
        return Fail(Deciding(D.AlreadyFinal));
      }
      if scratch.Length == 0 {
        return Fail(BadScratch);
      }
      if |policy.channels| != states.Length || |decision.channels| != states.Length {
        return Fail(BadPolicy);
      }
      if rate != decision.sampleRate || rate == 0 {
        return Fail(BadRate);
      }
      hide Channel, Notes, Tracks;
      Prepare(policy, start, rate, frames);
      FeedAll(policy, start, rate, frames);
      var decided := FinishAll(policy, start, rate, frames);
      var silent := forall c :: 0 <= c < states.Length ==> !states[c].nonFinite && !states[c].exactNonzero;
      SilentNoted(frames, states[..]);
      DecidedIsFinal(meter, policy, start, rate, frames);
      var f := decision.Finalize(start, start + |frames|, decided, policy.trim, policy.exactZeroGate && silent);
      match f
      case Pass => return Pass;
      case Fail(e) => return Fail(Deciding(e));
    }
  }

  /** Every sample is a finite zero. */
  ghost predicate Silent(frames: seq<Frame>, width: nat)
    requires Rectangular(frames, width)
  {
    forall c :: 0 <= c < width ==> !AnyNonFinite(Column(frames, c)) && FirstNonzero(Column(frames, c)).None?
  }

  lemma SilentNoted<E(!new)>(frames: seq<Frame>, states: seq<DetectorState<E>>)
    requires Rectangular(frames, |states|) && forall c :: 0 <= c < |states| ==> Notes(frames, c, states[c])
    ensures (forall c :: 0 <= c < |states| ==> !states[c].nonFinite && !states[c].exactNonzero)
            <==> Silent(frames, |states|)
  {
    hide AnyNonFinite, FirstNonzero;
    var quiet := forall c :: 0 <= c < |states| ==> !states[c].nonFinite && !states[c].exactNonzero;
    forall c | quiet && 0 <= c < |states|
      ensures !AnyNonFinite(Column(frames, c)) && FirstNonzero(Column(frames, c)).None?
    {
      assert Notes(frames, c, states[c]);
    }
    forall c | Silent(frames, |states|) && 0 <= c < |states| ensures !states[c].nonFinite && !states[c].exactNonzero {
      assert Notes(frames, c, states[c]);
    }
  }

  /** Some channel of a windowed policy has no usable threshold. */
  predicate MissingThreshold(policy: Policy) {
    policy.detector.WindowedRmsPeak? && exists c :: 0 <= c < |policy.channels| && policy.channels[c].threshold.None?
  }

  // ---- what a verdict means ----

  lemma {:induction false} WindowsAre<E>(m: Meter<E>, c: Config, samples: seq<Sample>, count: nat)
    requires count > 0 ==> Times(count - 1, c.geometry.hop) <= |samples|
    ensures |Windows(m, c, samples, count)| == count
    ensures forall k :: 0 <= k < count ==>
      Times(k, c.geometry.hop) <= |samples| && Windows(m, c, samples, count)[k] == WindowAt(m, c, samples, k)
  {
    if count > 0 {
      WindowsBelow(c.geometry.hop, count);
      WindowsAre(m, c, samples, count - 1);
      hide WindowAt;
    }
  }

  lemma WindowsOrdered<E>(m: Meter<E>, c: Config, samples: seq<Sample>, count: nat)
    requires c.geometry.Valid() && (count > 0 ==> Times(count - 1, c.geometry.hop) <= |samples|)
    ensures Ordered(Windows(m, c, samples, count))
  {
    WindowsAre(m, c, samples, count);
    var ws := Windows(m, c, samples, count);
    forall i, j | 0 <= i < j < |ws| ensures ws[i].start < ws[j].start {
      TimesStep(i, c.geometry.hop);
      TimesMonotone(i + 1, j, c.geometry.hop);
    }
  }

  /** The verdict on a finite channel with a threshold, in terms of its windows
      `[k * hop, min(k * hop + window, n))`: Active exactly when one of them is
      transient or a run of them opens the gate, keeps it open and is long
      enough; the evidence is the start of the first one that qualifies. */
  lemma VerdictMeaning<E>(m: Meter<E>, c: Config, samples: seq<Sample>)
    requires c.geometry.Valid() && c.Watching() && !AnyNonFinite(samples)
    ensures var count := WindowCount(c.geometry, |samples|);
      && (count > 0 ==> Times(count - 1, c.geometry.hop) <= |samples|)
      && var g, ws := Verdict(m, c, samples), Windows(m, c, samples, count);
      && |ws| == count
      && (g.activity.Active? <==> AnyTransient(c.Setting(), ws) || AnySustained(c.Setting(), ws))
      && (g.activity.Inactive? <==> forall k :: 0 <= k < |ws| ==> !Qualifies(c.Setting(), ws[k]))
      && (g.evidence.None? <==> forall k :: 0 <= k < |ws| ==> !Qualifies(c.Setting(), ws[k]))
      && (g.evidence.Some? ==> exists k: nat :: FirstEvidence(c.Setting(), ws, k) && ws[k].start == g.evidence.value)
  {
    var count := WindowCount(c.geometry, |samples|);
    WindowCountBounds(c.geometry, |samples|);
    WindowsAre(m, c, samples, count);
    WindowsOrdered(m, c, samples, count);
    GateVerdict(c.Setting(), Windows(m, c, samples, count));
    hide Judged, AnyTransient, AnySustained, Windows, WindowCount;
  }

  lemma {:induction false} FirstNonzeroIs(samples: seq<Sample>)
    ensures match FirstNonzero(samples)
            case None => forall i :: 0 <= i < |samples| ==> !Nonzero(samples[i])
            case Some(f) => f < |samples| && Nonzero(samples[f]) && forall i :: 0 <= i < f ==> !Nonzero(samples[i])
  {
    if samples != [] { FirstNonzeroIs(samples[..|samples| - 1]); }
  }

  lemma WatchedEvidenceInside<E>(m: Meter<E>, c: Config, samples: seq<Sample>, count: nat)
    requires c.geometry.Valid() && c.threshold.Some?
    requires |samples| <= Times(count, c.geometry.hop) && (count > 0 ==> Times(count - 1, c.geometry.hop) < |samples|)
    ensures var g := Judged(c.Setting(), Windows(m, c, samples, count));
            g.evidence.Some? ==> c.start <= g.evidence.value < c.start + |samples|
  {
    hide Judged, AnyTransient, AnySustained, Windows, Times;
    WindowsAre(m, c, samples, count);
    WindowsOrdered(m, c, samples, count);
    var ws := Windows(m, c, samples, count);
    GateVerdict(c.Setting(), ws);
    var g := Judged(c.Setting(), ws);
    if g.evidence.Some? {
      var k: nat :| FirstEvidence(c.Setting(), ws, k) && ws[k].start == g.evidence.value;
      TimesMonotone(k, count - 1, c.geometry.hop);
    }
  }

  /** The evidence of a verdict lies in the recording; a channel without a
      threshold names its first frame, which an empty recording does not have. */
  lemma VerdictEvidenceInside<E>(m: Meter<E>, c: Config, samples: seq<Sample>)
    requires c.geometry.Valid()
    ensures var g := Verdict(m, c, samples);
      g.evidence.Some? ==>
        (c.start <= g.evidence.value < c.start + |samples|
         <==> !(samples == [] && c.detector.WindowedRmsPeak? && c.threshold.None?))
  {
    hide Judged, Windows, WindowCount, Times, FirstNonzero, AnyNonFinite;
    FirstNonzeroIs(samples);
    if c.Watching() {
      WindowCountBounds(c.geometry, |samples|);
      WatchedEvidenceInside(m, c, samples, WindowCount(c.geometry, |samples|));
    }
  }

  lemma DecidedIsFinal<E>(m: Meter<E>, policy: Policy, start: nat, rate: nat, frames: seq<Frame>)
    requires 0 < rate <= 0xFFFF_FFFF && Rectangular(frames, |policy.channels|)
    ensures var d := Decided(m, policy, start, rate, frames);
      && D.AllCanonical(d)
      && (D.EvidenceInside(d, start, start + |frames|) <==> (frames == [] ==> !MissingThreshold(policy)))
  {
    WindowWithinTwoHops(rate);
    var d := Decided(m, policy, start, rate, frames);
    forall c | 0 <= c < |d|
      ensures d[c].evidence.Some? ==>
        (start <= d[c].evidence.value < start + |frames|
         <==> !(frames == [] && policy.detector.WindowedRmsPeak? && policy.channels[c].threshold.None?))
      ensures policy.detector.WindowedRmsPeak? && policy.channels[c].threshold.None? ==> d[c].evidence.Some?
    {
      VerdictEvidenceInside(m, policy.ConfigOf(c, start, rate), Column(frames, c));
    }
    hide Verdict, Geometry;
  }

  /** The sample notes of a channel are right. */
  ghost predicate Notes<E(!new)>(frames: seq<Frame>, c: nat, s: DetectorState<E>)
    requires forall i :: 0 <= i < |frames| ==> c < |frames[i]|
  {
    s.nonFinite == AnyNonFinite(Column(frames, c)) && s.exactNonzero == FirstNonzero(Column(frames, c)).Some?
  }

  function FromGate(mode: D.Mode, g: Gate): D.ChannelDecision {
    D.ChannelDecision(mode, g.activity, D.Canonical(mode, g.activity), g.evidence)
  }

  /** What the whole recording, judged window by window, says of channel `c`. */
  ghost function ChannelVerdict<E>(m: Meter<E>, policy: Policy, start: nat, rate: nat, frames: seq<Frame>, c: nat)
    : D.ChannelDecision
    requires 0 < rate <= 0xFFFF_FFFF && Rectangular(frames, |policy.channels|) && c < |policy.channels|
  {
    WindowWithinTwoHops(rate);
    FromGate(policy.channels[c].mode, Verdict(m, policy.ConfigOf(c, start, rate), Column(frames, c)))
  }

  ghost function Decided<E>(m: Meter<E>, policy: Policy, start: nat, rate: nat, frames: seq<Frame>)
    : seq<D.ChannelDecision>
    requires 0 < rate <= 0xFFFF_FFFF && Rectangular(frames, |policy.channels|)
  {
    seq(|policy.channels|, c requires 0 <= c < |policy.channels| => ChannelVerdict(m, policy, start, rate, frames, c))
  }

  lemma PreparedTracks<E(!new)>(m: Meter<E>, c: Config)
    requires c.geometry.Valid()
    ensures Tracks(m, c, [], Prepared(m, c))
  {
    TimesZero(0, c.geometry.hop);
    TimesStep(0, c.geometry.hop);
  }
}

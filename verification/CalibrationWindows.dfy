/** The calibration copy (src/capture_arena.rs, `copy_calibration_samples` and
    `finish_calibration`): while the selected channel's samples are copied out, two
    accumulators measure its complete windows. */
module CalibrationWindows {
  import opened Base
  import opened Audio
  import opened ChunkMath
  import opened Activity

  /** The floating-point part, kept abstract.  Unlike the detector, calibration
      lets a non-finite sample enter its sums and then calls the capture invalid. */
  datatype Levels<!E> = Levels(silent: E, add: (E, Sample) -> E, rms: (E, nat) -> real, peak: E -> real)
  {
    function Energy(samples: seq<Sample>, a: nat, b: nat): E
      requires a <= b <= |samples|
    {
      if a == b then silent else add(Energy(samples, a, b - 1), samples[b - 1])
    }
  }

  lemma {:induction false} EnergyExtends<E>(m: Levels<E>, samples: seq<Sample>, more: seq<Sample>, a: nat, b: nat)
    requires a <= b <= |samples|
    ensures m.Energy(samples + more, a, b) == m.Energy(samples, a, b)
    decreases b - a
  {
    if a < b { EnergyExtends(m, samples, more, a, b - 1); }
  }

  datatype Slot<E> = Slot(energy: E, count: nat, start: nat, started: bool)

  /** The accumulator of window `k` when windows starting before `bound` have
      been started. */
  ghost predicate HoldsWindow<E(!new)>(m: Levels<E>, g: WindowGeometry, s: seq<Sample>, slot: Slot<E>, k: nat,
                                       bound: nat)
    requires bound <= |s| + 1
  {
    var a := Times(k, g.hop);
    if a < bound then slot == Slot(m.Energy(s, a, |s|), |s| - a, a, true) else !slot.started
  }

  /** The first `n` windows have been measured. */
  ghost predicate Measured<E(!new)>(m: Levels<E>, g: WindowGeometry, s: seq<Sample>, rms: seq<real>, peak: seq<real>,
                                    n: nat)
    requires n <= |rms| && n <= |peak| && (forall k: nat :: k < n ==> Times(k, g.hop) + g.window <= |s|)
  {
    forall k: nat :: k < n ==>
      var e := m.Energy(s, Times(k, g.hop), Times(k, g.hop) + g.window);
      rms[k] == m.rms(e, g.window) && peak[k] == m.peak(e)
  }

  lemma CompleteFit(g: WindowGeometry, n: nat)
    requires g.Valid()
    ensures forall k: nat :: k < Complete(g, n) ==> Times(k, g.hop) + g.window <= n
  {
    CompleteBounds(g, n);
    forall k: nat | k < Complete(g, n) ensures Times(k, g.hop) + g.window <= n {
      TimesMonotone(k, Complete(g, n) - 1, g.hop);
    }
  }

  lemma MeasuredGrows<E(!new)>(m: Levels<E>, g: WindowGeometry, s: seq<Sample>, x: Sample,
                               rms: seq<real>, peak: seq<real>, n: nat)
    requires n <= |rms| && n <= |peak| && (forall k: nat :: k < n ==> Times(k, g.hop) + g.window <= |s|)
    requires Measured(m, g, s, rms, peak, n)
    ensures Measured(m, g, s + [x], rms, peak, n)
  {
    forall k: nat | k < n
      ensures m.Energy(s + [x], Times(k, g.hop), Times(k, g.hop) + g.window)
              == m.Energy(s, Times(k, g.hop), Times(k, g.hop) + g.window)
    {
      EnergyExtends(m, s, [x], Times(k, g.hop), Times(k, g.hop) + g.window);
    }
  }

  lemma MeasuredNext<E(!new)>(m: Levels<E>, g: WindowGeometry, t: seq<Sample>, rms: seq<real>, peak: seq<real>, k: nat)
    requires k < |rms| && k < |peak| && (forall i: nat :: i < k ==> Times(i, g.hop) + g.window <= |t|)
    requires Times(k, g.hop) + g.window == |t| && Measured(m, g, t, rms, peak, k)
    ensures var e := m.Energy(t, Times(k, g.hop), |t|);
            Measured(m, g, t, rms[k := m.rms(e, g.window)], peak[k := m.peak(e)], k + 1)
  {
  }

  /** After `s` its complete windows have been measured in order, and the next two
      are in the accumulators. */
  ghost predicate Right<E(!new)>(m: Levels<E>, g: WindowGeometry, s: seq<Sample>, slots: seq<Slot<E>>,
                                 rms: seq<real>, peak: seq<real>, complete: nat)
    requires g.Valid()
  {
    && |slots| == 2 && complete == Complete(g, |s|) && complete <= |rms| == |peak|
    && (CompleteFit(g, |s|); Measured(m, g, s, rms, peak, complete))
    && HoldsWindow(m, g, s, slots[complete % 2], complete, |s|)
    && HoldsWindow(m, g, s, slots[1 - complete % 2], complete + 1, |s|)
  }

  /** A sample that completes window `k` measures it and frees its accumulator;
      any other sample only enters the accumulators. */
  lemma RightNext<E(!new)>(m: Levels<E>, g: WindowGeometry, s: seq<Sample>, x: Sample, slots: seq<Slot<E>>,
                           rms: seq<real>, peak: seq<real>)
    requires g.Valid() && |slots| == 2
    requires var k := Complete(g, |s|);
      && (k < |rms| == |peak| || (k == |rms| == |peak| && Times(k, g.hop) + g.window != |s| + 1))
      && (CompleteFit(g, |s|); Measured(m, g, s, rms, peak, k))
      && HoldsWindow(m, g, s + [x], slots[1 - k % 2], k + 1, |s| + 1)
    ensures var k, t := Complete(g, |s|), s + [x];
      if Times(k, g.hop) + g.window == |t| then
        var e := m.Energy(t, Times(k, g.hop), |t|);
        !slots[k % 2].started ==> Right(m, g, t, slots, rms[k := m.rms(e, g.window)], peak[k := m.peak(e)], k + 1)
      else HoldsWindow(m, g, t, slots[k % 2], k, |t|) ==> Right(m, g, t, slots, rms, peak, k)
  {
    hide Complete, Measured, Times, HoldsWindow;
    var k, t := Complete(g, |s|), s + [x];
    OtherSlot(k);
    CompleteBounds(g, |s|);
    CompleteStep(g, |s|);
    CompleteFit(g, |s|);
    CompleteFit(g, |t|);
    StartsAt(g, |s|, k);
    MeasuredGrows(m, g, s, x, rms, peak, k);
    if Times(k, g.hop) + g.window == |t| {
      MeasuredNext(m, g, t, rms, peak, k);
      if !slots[k % 2].started { NotStarted(m, g, t, slots[k % 2], k + 2); }
    }
  }

  lemma OtherSlot(k: nat)
    ensures (k + 1) % 2 == 1 - k % 2
  {
  }

  lemma NotStarted<E(!new)>(m: Levels<E>, g: WindowGeometry, t: seq<Sample>, slot: Slot<E>, k: nat)
    requires Times(k, g.hop) >= |t| && !slot.started
    ensures HoldsWindow(m, g, t, slot, k, |t|)
  {
    hide Times;
  }

  /** A capture never measures more windows than the session planned room for. */
  lemma PlannedCapacity(g: WindowGeometry, copied: nat, planned: nat)
    requires g.Valid() && copied <= planned
    ensures Complete(g, copied) <= Complete(g, planned)
  {
    CompleteBounds(g, copied);
    CompleteBounds(g, planned);
    if Complete(g, planned) < Complete(g, copied) {
      TimesMonotone(Complete(g, planned), Complete(g, copied) - 1, g.hop);
    }
  }

  /** A window that starts while `k` is the first incomplete one is `k` or the
      next, so its accumulator is free. */
  lemma StartsAt(g: WindowGeometry, index: nat, k: nat)
    requires g.Valid() && Times(k, g.hop) + g.window > index && (k > 0 ==> Times(k - 1, g.hop) + g.window <= index)
    ensures index % g.hop == 0 ==>
      && index == Times(index / g.hop, g.hop)
      && (index / g.hop == k || index / g.hop == k + 1)
    ensures index % g.hop != 0 ==> index != Times(k, g.hop) && index != Times(k + 1, g.hop)
    ensures Times(k + 2, g.hop) > index
  {
    var j := index / g.hop;
    DivParts(index, g.hop);
    TimesStep(k, g.hop);
    TimesStep(k + 1, g.hop);
    if index % g.hop == 0 {
      if j < k { TimesMonotone(j, k - 1, g.hop); }
      if j > k + 1 { TimesMonotone(k + 2, j, g.hop); }
    } else {
      if index == Times(k, g.hop) { DivUnique(index, k, 0, g.hop); }
      if index == Times(k + 1, g.hop) { DivUnique(index, k + 1, 0, g.hop); }
    }
  }

  /** The frames of the last window to start, when the capture ends inside it. */
  function Trailing(g: WindowGeometry, n: nat): nat
    requires g.hop > 0
  {
    if n == 0 then 0
    else
      var r := SatSub(n, Times((n - 1) / g.hop, g.hop));
      if r < g.window then r else 0
  }

  lemma TrailingIs(g: WindowGeometry, n: nat)
    requires g.Valid()
    ensures var k := Complete(g, n);
      Trailing(g, n) == if n <= Times(k, g.hop) then 0
                        else if n <= Times(k + 1, g.hop) then n - Times(k, g.hop)
                        else n - Times(k + 1, g.hop)
  {
    var k := Complete(g, n);
    CompleteBounds(g, n);
    TimesZero(0, g.hop);
    TimesStep(k, g.hop);
    TimesStep(k + 1, g.hop);
    if k > 0 { TimesStep(k - 1, g.hop); }
    if n > 0 {
      var j := if n <= Times(k, g.hop) then k - 1 else if n <= Times(k + 1, g.hop) then k else k + 1;
      DivUnique(n - 1, j, n - 1 - Times(j, g.hop), g.hop);
    }
  }

  datatype Metadata = Metadata(frames: nat, completeWindows: nat, partialFrames: nat, droppedFrames: nat, usable: bool)

  class CalibrationCapture<E(!new)> {
    const levels: Levels<E>
    const geometry: WindowGeometry
    const frames: nat
    const samples: array<Sample>
    const rms: array<real>
    const peak: array<real>
    var copied: nat
    var completeWindows: nat
    var slots: seq<Slot<E>>
    var invalid: bool

    ghost predicate Sized()
    {
      && geometry.Valid() && frames <= samples.Length && rms != peak
      && rms.Length == peak.Length == Complete(geometry, samples.Length)
    }

    ghost predicate Valid()
      reads this, samples, rms, peak
    {
      && Sized() && copied <= frames
      && Right(levels, geometry, samples[..copied], slots, rms[..], peak[..], completeWindows)
      && (invalid <==> AnyNonFinite(samples[..copied]))
    }

    constructor (levels: Levels<E>, geometry: WindowGeometry, frames: nat, samples: array<Sample>,
                 rms: array<real>, peak: array<real>)
      requires geometry.Valid() && frames <= samples.Length && rms != peak
      requires rms.Length == peak.Length == Complete(geometry, samples.Length)
      ensures Valid() && copied == 0
      ensures this.levels == levels && this.geometry == geometry && this.frames == frames
      ensures this.samples == samples && this.rms == rms && this.peak == peak
    {
      this.levels, this.geometry, this.frames := levels, geometry, frames;
      this.samples, this.rms, this.peak := samples, rms, peak;
      var empty := Slot(levels.silent, 0, 0, false);
      copied, completeWindows, slots, invalid := 0, 0, [empty, empty], false;
    }

    /** One accumulator's share of a sample; a full window is written out. */
    method FeedSlot(a: nat, sample: Sample, ghost s: seq<Sample>, ghost k: nat)
      requires Sized() && |slots| == 2 && a < 2
      requires HoldsWindow(levels, geometry, s, slots[a], k, |s| + 1)
      requires Times(k, geometry.hop) + geometry.window > |s|
      requires Times(k, geometry.hop) + geometry.window == |s| + 1 ==> completeWindows < rms.Length
      modifies this`slots, this`completeWindows, rms, peak
      ensures |slots| == 2 && slots[1 - a] == old(slots[1 - a])
      ensures var t := s + [sample];
        if Times(k, geometry.hop) + geometry.window == |t| then
          var e := levels.Energy(t, Times(k, geometry.hop), |t|);
          && !slots[a].started && completeWindows == old(completeWindows) + 1
          && rms[..] == old(rms[..])[old(completeWindows) := levels.rms(e, geometry.window)]
          && peak[..] == old(peak[..])[old(completeWindows) := levels.peak(e)]
        else
          && HoldsWindow(levels, geometry, t, slots[a], k, |t|) && completeWindows == old(completeWindows)
          && rms[..] == old(rms[..]) && peak[..] == old(peak[..])
    {
      var slot := slots[a];
      if slot.started && slot.count < geometry.window {
        EnergyExtends(levels, s, [sample], Times(k, geometry.hop), |s|);
        var fed := slot.(energy := levels.add(slot.energy, sample), count := slot.count + 1);
        if fed.count == geometry.window {
          rms[completeWindows] := levels.rms(fed.energy, fed.count);
          peak[completeWindows] := levels.peak(fed.energy);
          completeWindows := completeWindows + 1;
          fed := fed.(started := false);
        }
        slots := slots[a := fed];
      }
    }

    /** Restarts the accumulator of a window that starts at the next sample. */
    method StartWindow(ghost s: seq<Sample>, ghost k: nat)
      requires Sized() && |slots| == 2 && copied == |s|
      requires Times(k, geometry.hop) + geometry.window > |s|
      requires k > 0 ==> Times(k - 1, geometry.hop) + geometry.window <= |s|
      requires HoldsWindow(levels, geometry, s, slots[k % 2], k, |s|)
      requires HoldsWindow(levels, geometry, s, slots[1 - k % 2], k + 1, |s|)
      modifies this`slots
      ensures |slots| == 2
      ensures HoldsWindow(levels, geometry, s, slots[k % 2], k, |s| + 1)
      ensures HoldsWindow(levels, geometry, s, slots[1 - k % 2], k + 1, |s| + 1)
    {
      StartsAt(geometry, copied, k);
      TimesStep(k, geometry.hop);
      if copied % geometry.hop == 0 {
        var accumulator := (copied / geometry.hop) % 2;
        slots := slots[accumulator := Slot(levels.silent, 0, copied, true)];
      }
    }

    /** What feeding window `k`'s accumulator `a` leaves behind. */
    twostate predicate Fed(a: nat, s: seq<Sample>, sample: Sample, k: nat, cleared: bool)
      reads this, rms, peak
      requires |slots| == 2 && a < 2
    {
      var t := s + [sample];
      if cleared then
        Times(k, geometry.hop) <= |t| && k < |old(rms[..])| && k < |old(peak[..])|
        && var e := levels.Energy(t, Times(k, geometry.hop), |t|);
        && !slots[a].started && completeWindows == k + 1
        && rms[..] == old(rms[..])[k := levels.rms(e, geometry.window)]
        && peak[..] == old(peak[..])[k := levels.peak(e)]
      else
        && HoldsWindow(levels, geometry, t, slots[a], k, |t|) && completeWindows == k
        && rms[..] == old(rms[..]) && peak[..] == old(peak[..])
    }

    /** Both accumulators take the sample; only the older window can be full. */
    method FeedBoth(sample: Sample, ghost s: seq<Sample>, ghost k: nat, ghost p: nat)
      requires Sized() && |slots| == 2 && p < 2 && completeWindows == k
      requires HoldsWindow(levels, geometry, s, slots[p], k, |s| + 1)
      requires HoldsWindow(levels, geometry, s, slots[1 - p], k + 1, |s| + 1)
      requires Times(k, geometry.hop) + geometry.window > |s|
      requires Times(k, geometry.hop) + geometry.window == |s| + 1 ==> k < rms.Length
      modifies this`slots, this`completeWindows, rms, peak
      ensures |slots| == 2 && Fed(p, s, sample, k, Times(k, geometry.hop) + geometry.window == |s| + 1)
      ensures HoldsWindow(levels, geometry, s + [sample], slots[1 - p], k + 1, |s| + 1)
    {
      ghost var full := Times(k, geometry.hop) + geometry.window == |s| + 1;
      TimesStep(k, geometry.hop);
      hide HoldsWindow, Times;
      for a := 0 to 2
        invariant Sized() && |slots| == 2
        invariant a <= p ==>
          && completeWindows == k && rms[..] == old(rms[..]) && peak[..] == old(peak[..])
          && HoldsWindow(levels, geometry, s, slots[p], k, |s| + 1)
        invariant a > p ==> Fed(p, s, sample, k, full)
        invariant a <= 1 - p ==> HoldsWindow(levels, geometry, s, slots[1 - p], k + 1, |s| + 1)
        invariant a > 1 - p ==> HoldsWindow(levels, geometry, s + [sample], slots[1 - p], k + 1, |s| + 1)
      {
        FeedSlot(a, sample, s, if a == p then k else k + 1);
      }
    }

    /** Copies one sample of the selected channel. */
    method CopyOne(sample: Sample)
      requires Valid() && copied < frames
      modifies this, samples, rms, peak
      ensures Valid() && copied == old(copied) + 1
      ensures samples[..copied] == old(samples[..copied]) + [sample]
    {
      hide Complete, Measured, AnyNonFinite, FirstNonzero, Times, HoldsWindow;
      ghost var s, k := samples[..copied], completeWindows;
      ghost var rms0, peak0 := rms[..], peak[..];
      CompleteBounds(geometry, copied);
      CompleteStep(geometry, copied);
      PlannedCapacity(geometry, copied + 1, samples.Length);
      NotesStep(s, sample);
      samples[copied] := sample;
      if sample.NonFinite? { invalid := true; }
      StartWindow(s, k);
      FeedBoth(sample, s, k, k % 2);
      RightNext(levels, geometry, s, sample, slots, rms0, peak0);
      hide Right;
      copied := copied + 1;
      assert samples[..copied] == s + [sample];
    }

    /** Copies a chunk of the selected channel, up to the requested frames. */
    method CopyChunk(chunk: seq<Sample>)
      requires Valid()
      modifies this, samples, rms, peak
      ensures Valid() && copied == Min(frames, old(copied) + |chunk|)
      ensures samples[..copied] == old(samples[..copied]) + chunk[..copied - old(copied)]
    {
      hide Right;
      var frame := 0;
      while frame < |chunk| && copied < frames
        invariant frame <= |chunk| && Valid() && copied == old(copied) + frame
        invariant samples[..copied] == old(samples[..copied]) + chunk[..frame]
      {
        CopyOne(chunk[frame]);
        assert chunk[..frame + 1] == chunk[..frame] + [chunk[frame]];
        frame := frame + 1;
      }
    }

    /** A finished capture is usable exactly when every sample is finite, nothing
        was dropped and at least one window is complete. */
    method Finish(dropped: nat) returns (d: Metadata)
      requires Valid()
      ensures d.frames == copied && d.completeWindows == Complete(geometry, copied) && d.droppedFrames == dropped
      ensures d.partialFrames == Trailing(geometry, copied)
      ensures d.usable <==> !AnyNonFinite(samples[..copied]) && dropped == 0 && copied >= geometry.window
    {
      ghost var k := completeWindows;
      CompleteBounds(geometry, copied);
      TrailingIs(geometry, copied);
      TimesStep(k, geometry.hop);
      hide Times, AnyNonFinite;
      var partial, latest := 0, None;
      for a := 0 to 2
        invariant a == 0 ==> latest == None && partial == 0
        invariant a == 1 ==> latest == (if slots[0].started then Some(slots[0].start) else None)
        invariant a == 1 ==> partial == (if slots[0].started then slots[0].count else 0)
        invariant a == 2 ==> partial == Trailing(geometry, copied)
      {
        var slot := slots[a];
        if slot.started && 0 < slot.count < geometry.window && (latest.None? || slot.start >= latest.value) {
          partial, latest := slot.count, Some(slot.start);
        }
      }
      return Metadata(copied, completeWindows, partial, dropped, !invalid && dropped == 0 && completeWindows > 0);
    }
  }
}

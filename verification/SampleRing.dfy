/** Positions in a sequence cut into chunks of `m`, with the two nonlinear
    operations kept behind names. */
module ChunkMath {
  function Times(k: nat, m: nat): nat { k * m }

  function Slot(k: nat, m: nat): (r: nat)
    requires m > 0
    ensures r < m
  {
    k % m
  }

  /** `div_ceil`. */
  function DivCeil(a: nat, d: nat): nat
    requires d > 0
  {
    (a + d - 1) / d
  }

  lemma Multiple(d: int, m: nat)
    ensures d >= 1 ==> d * m >= m
    ensures d <= -1 ==> d * m <= -1 * m
  {
  }

  lemma DivUnique(a: nat, q: nat, r: nat, m: nat)
    requires m > 0 && a == Times(q, m) + r && r < m
    ensures a / m == q && a % m == r
  {
    var d := a / m - q;
    assert d * m == r - a % m;
    Multiple(d, m);
  }

  /** Two numbers less than `m` apart have different slots. */
  lemma SlotsDiffer(a: nat, b: nat, m: nat)
    requires m > 0 && a < b < a + m
    ensures Slot(a, m) != Slot(b, m)
  {
    var d := b / m - a / m;
    assert a % m == b % m ==> b - a == d * m;
    Multiple(d, m);
  }

  lemma TimesStep(k: nat, m: nat)
    ensures Times(k + 1, m) == Times(k, m) + m
  {
  }

  lemma TimesMonotone(a: nat, b: nat, m: nat)
    requires a <= b
    ensures Times(a, m) <= Times(b, m)
  {
  }

  lemma DivParts(a: nat, m: nat)
    requires m > 0
    ensures a == Times(a / m, m) + a % m && a % m < m
  {
  }

  lemma SlotIs(k: nat, m: nat)
    requires m > 0
    ensures Slot(k, m) == k % m
  {
  }

  lemma TimesZero(k: nat, m: nat)
    requires m > 0
    ensures Times(k, m) == 0 <==> k == 0
  {
    Multiple(k, m);
  }

  lemma NextSlot(k: nat, m: nat)
    requires m > 0
    ensures Slot(k + 1, m) == (Slot(k, m) + 1) % m
  {
    var q, r := k / m, k % m;
    if r + 1 < m {
      DivUnique(k + 1, q, r + 1, m);
      DivUnique(r + 1, 0, r + 1, m);
    } else {
      TimesStep(q, m);
      DivUnique(k + 1, q + 1, 0, m);
      DivUnique(m, 1, 0, m);
    }
  }
}

/** One retention ring (src/sample_ring.rs) over recycled chunks.  `written` is
    everything accepted since the last reset; the ring keeps its newest chunks. */
module SampleRing {
  import opened Base
  import opened Audio
  import opened ChunkMath
  import E = Epochs

  datatype CopyError = StartAfterEnd | OutsideRetained

  class SampleRing {
    const geometry: E.Geometry
    const data: array2<Frame>
    const published: array<bool>
    const validStart: array<nat>
    const validCount: array<nat>
    var writeChunk: nat
    var globalWriteFrame: nat
    var clearAfter: nat
    ghost var written: seq<Frame>
    ghost var chunk: nat
    ghost const Repr: set<object>

    /** The chunk being filled and the frames already in it. */
    ghost predicate Position()
      reads this
    {
      && geometry.Valid()
      && Times(chunk, geometry.chunkFrames) <= |written| < Times(chunk, geometry.chunkFrames) + geometry.chunkFrames
    }

    /** Slot `k % chunkCount` holds chunk `k`. */
    ghost predicate Holds(k: nat)
      requires geometry.Valid()
      requires data.Length0 == published.Length == validStart.Length == validCount.Length == geometry.chunkCount
      requires data.Length1 == geometry.chunkFrames
      reads this, data, published, validStart, validCount
    {
      var slot, start := Slot(k, geometry.chunkCount), Times(k, geometry.chunkFrames);
      && published[slot]
      && validStart[slot] == start
      && 0 < validCount[slot] <= geometry.chunkFrames
      && start + validCount[slot] == Min(|written|, start + geometry.chunkFrames)
      && forall o :: 0 <= o < validCount[slot] ==> data[slot, o] == written[start + o]
    }

    ghost predicate Valid()
      reads this, Repr
    {
      && this in Repr && data in Repr && published in Repr && validStart in Repr && validCount in Repr
      && validStart != validCount
      && geometry.Valid()
      && data.Length0 == published.Length == validStart.Length == validCount.Length == geometry.chunkCount
      && data.Length1 == geometry.chunkFrames
      && Position()
      && globalWriteFrame == |written| && clearAfter <= |written|
      && writeChunk == Slot(chunk, geometry.chunkCount)
      && (forall k: nat :: Kept(k) ==> Holds(k))
    }

    /** Chunks not yet recycled. */
    ghost predicate Kept(k: nat)
      reads this
    {
      Times(k, geometry.chunkFrames) < |written| && FirstUsed() <= k + geometry.chunkCount
    }

    /** One past the newest chunk holding a frame. */
    ghost function FirstUsed(): nat
      reads this
    {
      if Times(chunk, geometry.chunkFrames) < |written| then chunk + 1 else chunk
    }

    ghost function Model(base: u64): E.Epoch
      reads this
    {
      E.Epoch(base, written, clearAfter)
    }

    constructor (geometry: E.Geometry)
      requires geometry.Valid()
      ensures Valid() && fresh(Repr) && this.geometry == geometry
      ensures written == [] && clearAfter == 0
    {
      this.geometry := geometry;
      data := new Frame[geometry.chunkCount, geometry.chunkFrames];
      published := new bool[geometry.chunkCount](_ => false);
      validStart := new nat[geometry.chunkCount](_ => 0);
      validCount := new nat[geometry.chunkCount](_ => 0);
      writeChunk, globalWriteFrame, clearAfter := 0, 0, 0;
      written, chunk := [], 0;
      Repr := {this, data, published, validStart, validCount};
    }

    /** A full chunk whose slot was not touched is still held. */
    twostate lemma FullChunkHeld(k: nat)
      requires geometry.Valid() && data.Length1 == geometry.chunkFrames
      requires data.Length0 == published.Length == validStart.Length == validCount.Length == geometry.chunkCount
      requires old(Holds(k)) && old(written) <= written
      requires Times(k, geometry.chunkFrames) + geometry.chunkFrames <= |old(written)|
      requires var slot := Slot(k, geometry.chunkCount);
               && published[slot] == old(published[slot])
               && validStart[slot] == old(validStart[slot])
               && validCount[slot] == old(validCount[slot])
               && forall o :: 0 <= o < geometry.chunkFrames ==> data[slot, o] == old(data[slot, o])
      ensures Holds(k)
    {
      hide Times, Slot;
    }

    /** Writes `part` into slot `slot` from `offset` on, opening the chunk when it
        starts there. */
    method FillSlot(slot: nat, offset: nat, part: seq<Frame>)
      requires this in Repr && data in Repr && published in Repr && validStart in Repr && validCount in Repr
      requires validStart != validCount
      requires slot < data.Length0 == published.Length == validStart.Length == validCount.Length
      requires offset + |part| <= data.Length1
      modifies data, published, validStart, validCount
      ensures published[slot] && validCount[slot] == offset + |part|
      ensures validStart[slot] == if offset == 0 then globalWriteFrame else old(validStart[slot])
      ensures forall o :: offset <= o < offset + |part| ==> data[slot, o] == part[o - offset]
      ensures forall o :: 0 <= o < offset ==> data[slot, o] == old(data[slot, o])
      ensures forall j, o :: 0 <= j < data.Length0 && j != slot && 0 <= o < data.Length1 ==>
                data[j, o] == old(data[j, o])
      ensures forall j :: 0 <= j < data.Length0 && j != slot ==>
                && published[j] == old(published[j])
                && validStart[j] == old(validStart[j])
                && validCount[j] == old(validCount[j])
    {
      if offset == 0 {
        validStart[slot] := globalWriteFrame;
        validCount[slot] := 0;
      }
      forall o | offset <= o < offset + |part| {
        data[slot, o] := part[o - offset];
      }
      validCount[slot] := offset + |part|;
      published[slot] := true;
    }

    /** Copies as much as fits into the chunk being filled. */
    method WriteSegment(frames: seq<Frame>) returns (n: nat)
      requires Valid() && frames != []
      modifies Repr
      ensures Valid() && 0 < n <= |frames|
      ensures written == old(written) + frames[..n] && clearAfter == old(clearAfter)
    {
      hide Times, Slot;
      var cf, cc := geometry.chunkFrames, geometry.chunkCount;
      ghost var k0, start := chunk, Times(chunk, cf);
      DivUnique(globalWriteFrame, k0, globalWriteFrame - start, cf);
      var offset := globalWriteFrame % cf;
      n := Min(cf - offset, |frames|);
      FillSlot(writeChunk, offset, frames[..n]);
      globalWriteFrame := globalWriteFrame + n;
      if offset + n >= cf {
        writeChunk := (writeChunk + 1) % cc;
      }
      written := written + frames[..n];
      NextSlot(k0, cc);
      TimesStep(k0, cf);
      if offset + n >= cf {
        chunk := chunk + 1;
      }
      if offset > 0 { assert old(Kept(k0)); }
      assert Holds(k0);
      forall k: nat | Kept(k) ensures Holds(k) {
        if k > k0 { TimesMonotone(k0 + 1, k, cf); }
        if k < k0 {
          SlotsDiffer(k, k0, cc);
          TimesStep(k, cf);
          TimesMonotone(k + 1, k0, cf);
          assert old(Kept(k));
          FullChunkHeld(k);
        }
      }
    }

    /** Accepts every frame, recycling the oldest chunks. */
    method WriteInterleaved(frames: seq<Frame>)
      requires Valid()
      modifies Repr
      ensures Valid()
      ensures written == old(written) + frames && clearAfter == old(clearAfter)
    {
      var done := 0;
      while done < |frames|
        invariant Valid() && done <= |frames|
        invariant written == old(written) + frames[..done] && clearAfter == old(clearAfter)
        decreases |frames| - done
      {
        var n := WriteSegment(frames[done..]);
        assert frames[..done] + frames[done..][..n] == frames[..done + n];
        done := done + n;
      }
      assert frames[..done] == frames;
    }

    /** The newest chunk, from the write head. */
    lemma NewestChunk()
      requires Valid() && |written| > 0
      ensures FirstUsed() > 0
      ensures (|written| - 1) / geometry.chunkFrames == FirstUsed() - 1
      ensures Times(FirstUsed() - 1, geometry.chunkFrames) < |written| <= Times(FirstUsed(), geometry.chunkFrames)
    {
      var cf := geometry.chunkFrames;
      if chunk > 0 {
        TimesStep(chunk - 1, cf);
      }
      TimesStep(chunk, cf);
      DivUnique(|written| - 1, FirstUsed() - 1, |written| - 1 - Times(FirstUsed() - 1, cf), cf);
    }

    lemma RetainedIsBoundary()
      requires Valid()
      ensures E.RetainedStart(geometry, |written|) ==
              if FirstUsed() <= geometry.chunkCount then 0
              else Times(FirstUsed() - geometry.chunkCount, geometry.chunkFrames)
    {
      if |written| > 0 {
        NewestChunk();
      }
    }

    /** Walks back over contiguous published chunks. */
    method OldestFrame() returns (oldest: nat)
      requires Valid()
      ensures oldest == Model(0).Oldest(geometry)
    {
      ghost var f := FirstUsed();
      var cf, cc := geometry.chunkFrames, geometry.chunkCount;
      oldest := globalWriteFrame;
      RetainedIsBoundary();
      if |written| > 0 {
        NewestChunk();
      }
      hide Times, Slot, E.RetainedStart;
      var steps := 0;
      while steps < cc && oldest != 0
        invariant steps <= cc && steps <= f
        invariant oldest == if steps == 0 then |written| else Times(f - steps, cf)
        invariant |written| == 0 ==> f == 0
        invariant oldest == 0 <==> steps == f
        decreases cc - steps
      {
        ghost var k := f - steps - 1;
        TimesStep(k, cf);
        if steps > 0 {
          TimesMonotone(k + 1, f - 1, cf);
          DivUnique(oldest - 1, k, cf - 1, cf);
        }
        assert Kept(k) && Holds(k);
        var slot := ((oldest - 1) / cf) % cc;
        assert slot == Slot(k, cc) by { SlotIs(k, cc); }
        if !published[slot] {
          break;
        }
        if validStart[slot] >= oldest || validStart[slot] + validCount[slot] < oldest {
          break;
        }
        oldest := validStart[slot];
        steps := steps + 1;
        TimesZero(k, cf);
      }
      oldest := Max(oldest, clearAfter);
    }

    /** A retained frame lies in a chunk that is still held. */
    lemma RetainedFrameHeld(cursor: nat)
      requires Valid() && E.RetainedStart(geometry, |written|) <= cursor < |written|
      ensures var k := cursor / geometry.chunkFrames;
              && Kept(k) && Holds(k)
              && Times(k, geometry.chunkFrames) <= cursor
              && cursor < validStart[Slot(k, geometry.chunkCount)] + validCount[Slot(k, geometry.chunkCount)]
    {
      var cf, cc := geometry.chunkFrames, geometry.chunkCount;
      var k := cursor / cf;
      DivParts(cursor, cf);
      RetainedIsBoundary();
      hide Times, Slot, E.RetainedStart;
      if FirstUsed() > cc && k < FirstUsed() - cc {
        TimesStep(k, cf);
        TimesMonotone(k + 1, FirstUsed() - cc, cf);
      }
      assert Kept(k);
    }

    /** Copies frames `start..end`, or as many as the destination takes. */
    method CopyRangeInto(start: nat, end: nat, destination: array<Frame>) returns (r: Result<nat, CopyError>)
      requires Valid()
      modifies destination
      ensures r == Err(StartAfterEnd) <==> start > end
      ensures r == Err(OutsideRetained) <==>
                start <= end && (start < Model(0).Oldest(geometry) || end > |written|)
      ensures r.Ok? <==> Model(0).Oldest(geometry) <= start <= end <= |written|
      ensures r.Ok? ==>
                && start <= end <= |written| && r.value == Min(end - start, destination.Length)
                && destination[..r.value] == written[start..start + r.value]
                && destination[r.value..] == old(destination[r.value..])
      ensures r.Err? ==> destination[..] == old(destination[..])
    {
      if start > end {
        return Err(StartAfterEnd);
      }
      var oldest := OldestFrame();
      if start < oldest || end > globalWriteFrame {
        return Err(OutsideRetained);
      }
      var copyEnd := Min(end, start + destination.Length);
      var cursor := start;
      ghost var untouched := destination[..];
      while cursor < copyEnd
        invariant start <= cursor <= copyEnd
        invariant destination[..cursor - start] == written[start..cursor]
        invariant destination[cursor - start..] == untouched[cursor - start..]
        decreases copyEnd - cursor
      {
        RetainedFrameHeld(cursor);
        cursor := CopySegment(start, cursor, copyEnd, destination);
      }
      assert copyEnd - start == Min(end - start, destination.Length);
      return Ok(cursor - start);
    }

    method CopySegment(start: nat, cursor: nat, copyEnd: nat, destination: array<Frame>) returns (next: nat)
      requires Valid() && start <= cursor < copyEnd <= |written| && copyEnd - start <= destination.Length
      requires var k := cursor / geometry.chunkFrames;
               && Holds(k) && Times(k, geometry.chunkFrames) <= cursor
               && cursor < validStart[Slot(k, geometry.chunkCount)] + validCount[Slot(k, geometry.chunkCount)]
      requires destination[..cursor - start] == written[start..cursor]
      modifies destination
      ensures cursor < next <= copyEnd
      ensures destination[..next - start] == written[start..next]
      ensures destination[next - start..] == old(destination[next - start..])
    {
      var k := cursor / geometry.chunkFrames;
      var slot := k % geometry.chunkCount;
      SlotIs(k, geometry.chunkCount);
      hide Times, Slot;
      next := Min(copyEnd, validStart[slot] + validCount[slot]);
      var from := cursor - validStart[slot];
      var at := cursor - start;
      forall i | at <= i < next - start {
        destination[i] := data[slot, from + (i - at)];
      }
      forall i | 0 <= i < next - start ensures destination[i] == written[start + i] {
        if i < at {
          assert old(destination[..at])[i] == written[start..cursor][i];
        }
      }
    }

    method Clear()
      requires Valid()
      modifies this`clearAfter
      ensures Valid()
      ensures written == old(written) && clearAfter == |written|
    {
      hide Times, Slot;
      clearAfter := globalWriteFrame;
      forall k: nat | Kept(k) ensures Holds(k) {
        assert old(Kept(k)) && old(Holds(k));
      }
    }

    method Reset()
      requires Valid()
      modifies Repr
      ensures Valid() && written == [] && clearAfter == 0
    {
      forall i | 0 <= i < published.Length {
        published[i] := false;
      }
      forall i | 0 <= i < validStart.Length {
        validStart[i] := 0;
      }
      forall i | 0 <= i < validCount.Length {
        validCount[i] := 0;
      }
      writeChunk, globalWriteFrame, clearAfter := 0, 0, 0;
      written, chunk := [], 0;
    }
  }
}

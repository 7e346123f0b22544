/** The worker's state in place (src/capture_arena.rs, `WorkerState`): two
    rings, one active, at most one frozen.  Each method is proved to act on
    `Model()` exactly as the corresponding function of Epochs.dfy. */
module WorkerState {
  import opened Base
  import opened Audio
  import E = Epochs
  import R = SampleRing

  lemma PairUpdated<T>(a: seq<T>, b: seq<T>, i: nat)
    requires |a| == |b| == 2 && i < 2 && b[1 - i] == a[1 - i]
    ensures b == a[i := b[i]]
  {
  }

  /** Writing continues in the standby epoch, emptied and based at the head. */
  ghost function Swapped(w: E.Worker): E.Worker
    requires |w.epochs| == 2 && w.active < 2 && |w.log| <= U64_MAX
  {
    w.(active := 1 - w.active, epochs := w.epochs[1 - w.active := E.Epoch(|w.log|, [], 0)])
  }

  ghost function Recorded(w: E.Worker): E.Worker
    requires |w.epochs| == 2 && w.active < 2 && |w.log| <= U64_MAX && w.nextGeneration < U64_MAX
  {
    Swapped(w).(nextGeneration := w.nextGeneration + 1, frozen := Some(E.FrozenRecord(w.active, w.nextGeneration + 1)))
  }

  /** Freeze spelled out over the epoch that is active before it. */
  lemma FreezeUnfolds(w: E.Worker, committed: Option<u64>)
    requires w.Valid() && w.frozen.None?
    ensures var e := w.epochs[w.active];
            var oldest := e.base + e.Oldest(w.geometry);
            var start, end := Max(committed.GetOr(oldest), oldest), e.base + |e.written|;
            && end == |w.log|
            && (start < end && w.nextGeneration == U64_MAX ==>
                  E.Freeze(w, committed) == (w, E.FreezeFailed(E.GenerationExhausted)))
            && (start >= end ==> E.Freeze(w, committed) == (Swapped(w), E.Frozen(None)))
            && (start < end && w.nextGeneration < U64_MAX ==>
                  && Recorded(w).Valid()
                  && E.Freeze(w, committed)
                     == (Recorded(w), E.Frozen(Some(E.Descriptor(w.active, w.nextGeneration + 1, e.base, start, end)))))
  {
    assert E.Freeze(w, committed).0.Valid();
  }

  /** A frozen range as a stretch of its ring. */
  lemma FrozenSlice(w: E.Worker, d: E.Descriptor, a: nat, b: nat)
    requires E.Describes(w, d) && d.start <= a <= b <= d.end
    ensures d.index < 2 && |w.epochs| == 2 && d.base <= a && w.geometry.Valid()
    ensures var e := w.epochs[d.index];
            && e.Oldest(w.geometry) <= a - d.base <= b - d.base <= |e.written|
            && b <= |w.log| && e.written[a - d.base..b - d.base] == w.log[a..b]
  {
    hide E.RetainedStart;
    E.ReadIsLog(w, d, a, b);
  }

  lemma OldestIgnoresBase(e: E.Epoch, base: u64, g: E.Geometry)
    requires g.Valid()
    ensures e.(base := base).Oldest(g) == e.Oldest(g)
  {
  }

  class WorkerState {
    const geometry: E.Geometry
    const epochs: seq<R.SampleRing>
    var active: nat
    var bases: seq<u64>
    var absoluteHead: u64
    var nextGeneration: u64
    var frozen: Option<E.FrozenRecord>
    ghost var log: seq<Frame>

    ghost function Repr(): set<object>
      reads this
    {
      {this} + (if |epochs| == 2 then epochs[0].Repr + epochs[1].Repr else {})
    }

    ghost predicate Valid()
      reads this, Repr()
    {
      && geometry.Valid() && |epochs| == 2 && |bases| == 2 && active < 2
      && epochs[0].geometry == geometry && epochs[1].geometry == geometry
      && epochs[0] in epochs[0].Repr && epochs[1] in epochs[1].Repr
      && epochs[0].Repr !! epochs[1].Repr
      && this !in epochs[0].Repr && this !in epochs[1].Repr
      && epochs[0].Valid() && epochs[1].Valid()
      && absoluteHead == |log|
      && Model().Valid()
    }

    ghost function Model(): E.Worker
      requires |epochs| == 2 && |bases| == 2
      reads this, epochs[0], epochs[1]
    {
      E.Worker(geometry, log, active, [epochs[0].Model(bases[0]), epochs[1].Model(bases[1])],
               nextGeneration, frozen)
    }

    constructor (geometry: E.Geometry)
      requires geometry.Valid()
      ensures Valid() && Model() == E.Start(geometry)
    {
      var first := new R.SampleRing(geometry);
      var second := new R.SampleRing(geometry);
      this.geometry := geometry;
      epochs := [first, second];
      active, bases, absoluteHead, nextGeneration, frozen := 0, [0, 0], 0, 1, None;
      log := [];
    }

    /** Consumes one queue slot; false when the frames were dropped instead. */
    method ConsumeSamples(frames: seq<Frame>) returns (accepted: bool)
      requires Valid()
      modifies Repr()
      ensures Valid()
      ensures Model() == E.Push(old(Model()), frames)
      ensures accepted <==> |old(log)| + |frames| <= U64_MAX
    {
      if absoluteHead + |frames| > U64_MAX {
        return false;
      }
      ghost var w := Model();
      assert E.Push(w, frames).Valid();
      hide E.Worker.Valid, E.Epoch.Slice;
      epochs[active].WriteInterleaved(frames);
      absoluteHead := absoluteHead + |frames|;
      log := log + frames;
      PairUpdated(w.epochs, Model().epochs, active);
      return true;
    }

    /** Retires the active epoch and continues in the standby. */
    method Freeze(committedStart: Option<u64>) returns (r: E.FreezeOutcome)
      requires Valid()
      modifies Repr()
      ensures Valid()
      ensures (Model(), r) == E.Freeze(old(Model()), committedStart)
    {
      if frozen.Some? {
        return E.FreezeFailed(E.AlreadyFrozen);
      }
      FreezeUnfolds(Model(), committedStart);
      hide E.Freeze, E.Worker.Valid, E.Epoch.Slice, E.Epoch.Oldest, R.SampleRing.Valid, R.SampleRing.Holds, Swapped,
           Recorded;
      var base, start, end := NewRange(committedStart);
      if start < end && nextGeneration == U64_MAX {
        return E.FreezeFailed(E.GenerationExhausted);
      }
      r := Retire(base, start, end);
    }

    /** Swaps the epochs and, when there is anything new, records the old one as
        frozen. */
    method Retire(base: u64, start: u64, end: u64) returns (r: E.FreezeOutcome)
      requires Valid() && frozen.None?
      requires start < end ==> nextGeneration < U64_MAX
      requires start < end ==> Recorded(Model()).Valid()
      modifies Repr()
      ensures Valid()
      ensures Model() == if start < end then Recorded(old(Model())) else Swapped(old(Model()))
      ensures r == E.Frozen(if start < end
                            then Some(E.Descriptor(old(active), old(nextGeneration) + 1, base, start, end))
                            else None)
    {
      var was := active;
      assert |epochs| == |bases| == 2 && active < 2;
      hide E.Worker.Valid, E.Epoch.Slice, R.SampleRing.Valid, R.SampleRing.Holds;
      Swap();
      if start >= end {
        return E.Frozen(None);
      }
      RecordFrozen(was);
      return E.Frozen(Some(E.Descriptor(was, nextGeneration, base, start, end)));
    }

    method RecordFrozen(was: nat)
      requires Valid() && nextGeneration < U64_MAX
      requires Model().(nextGeneration := nextGeneration + 1,
                        frozen := Some(E.FrozenRecord(was, nextGeneration + 1))).Valid()
      modifies this`nextGeneration, this`frozen
      ensures Valid()
      ensures Model() == old(Model()).(nextGeneration := nextGeneration,
                                       frozen := Some(E.FrozenRecord(was, nextGeneration)))
      ensures nextGeneration == old(nextGeneration) + 1
    {
      nextGeneration := nextGeneration + 1;
      frozen := Some(E.FrozenRecord(was, nextGeneration));
    }

    /** What a freeze would hand out of the active epoch. */
    method NewRange(committedStart: Option<u64>) returns (base: u64, start: u64, end: u64)
      requires Valid()
      ensures var e := Model().epochs[active];
              && base == e.base && end == base + |e.written|
              && start == Max(committedStart.GetOr(base + e.Oldest(geometry)), base + e.Oldest(geometry))
    {
      base := bases[active];
      end := base + epochs[active].globalWriteFrame;
      var localOldest := epochs[active].OldestFrame();
      var oldest := base + localOldest;
      start := Max(committedStart.GetOr(oldest), oldest);
    }

    /** Writing continues in the standby ring, emptied and based at the head. */
    method Swap()
      requires Valid() && frozen.None?
      modifies Repr()
      ensures Valid()
      ensures Model() == Swapped(old(Model()))
    {
      ghost var w := Model();
      var standby := 1 - active;
      assert w.(active := standby, epochs := w.epochs[standby := E.Epoch(absoluteHead, [], 0)]).Valid();
      hide E.Worker.Valid, E.Epoch.Slice;
      epochs[standby].Reset();
      bases := bases[standby := absoluteHead];
      active := standby;
      PairUpdated(w.epochs, Model().epochs, standby);
    }

    method Release(index: nat, generation: u64) returns (r: E.ReleaseOutcome)
      requires Valid()
      modifies Repr()
      ensures Valid()
      ensures (Model(), r) == E.Release(old(Model()), index, generation)
    {
      if frozen.None? {
        return E.NothingFrozen;
      }
      if frozen.value != E.FrozenRecord(index, generation) {
        return E.WrongCapability;
      }
      ghost var w := Model();
      assert E.Release(w, index, generation).0.Valid();
      hide E.Worker.Valid, E.Epoch.Slice;
      epochs[index].Reset();
      frozen := None;
      PairUpdated(w.epochs, Model().epochs, index);
      return E.Released;
    }

    method ClearActive() returns (start: nat, end: nat)
      requires Valid()
      modifies Repr()
      ensures Valid()
      ensures Model() == E.Clear(old(Model()))
      ensures start == old(Model().ActiveStart()) && end == old(Model().ActiveEnd())
    {
      start, end := ActiveRange();
      ghost var w := Model();
      assert E.Clear(w).Valid();
      hide E.Worker.Valid, E.Epoch.Slice;
      epochs[active].Clear();
      PairUpdated(w.epochs, Model().epochs, active);
    }

    method ActiveRange() returns (start: nat, end: nat)
      requires Valid()
      ensures start == Model().ActiveStart() && end == Model().ActiveEnd()
    {
      start := epochs[active].OldestFrame();
      start := bases[active] + start;
      end := bases[active] + epochs[active].globalWriteFrame;
    }

    static lemma PrefixOfSlice(s: seq<Frame>, a: nat, b: nat, n: nat)
      requires a + n <= b <= |s|
      ensures s[a..b][..n] == s[a..a + n]
    {
    }

    method CopyEpoch(index: nat, start: nat, end: nat, destination: array<Frame>) returns (copied: nat)
      requires Valid() && index < 2 && destination !in Repr()
      requires epochs[index].Model(0).Oldest(geometry) <= start <= end <= |epochs[index].written|
      modifies destination
      ensures Valid() && Model() == old(Model())
      ensures copied == Min(end - start, destination.Length)
      ensures destination[..copied] == epochs[index].written[start..end][..copied]
      ensures destination[copied..] == old(destination[copied..])
    {
      hide E.Worker.Valid, E.Epoch.Slice, E.Epoch.Oldest;
      assert index == 0 || index == 1;
      assert epochs[index].geometry == geometry && epochs[index].Valid();
      var r := epochs[index].CopyRangeInto(start, end, destination);
      copied := r.value;
      PrefixOfSlice(epochs[index].written, start, end, copied);
    }

    /** Reading through a frozen capability copies exactly the log frames. */
    method CopyFrozen(d: E.Descriptor, a: nat, b: nat, destination: array<Frame>) returns (copied: nat)
      requires Valid() && E.Describes(Model(), d) && d.start <= a <= b <= d.end
      requires destination !in Repr()
      modifies destination
      ensures Valid() && Model() == old(Model())
      ensures copied == Min(b - a, destination.Length)
      ensures a + copied <= |log| && destination[..copied] == log[a..a + copied]
      ensures destination[copied..] == old(destination[copied..])
    {
      hide E.Describes, E.Worker.Valid, E.Epoch.Slice, E.Epoch.Oldest, E.RetainedStart, R.SampleRing.Valid,
           R.SampleRing.Holds;
      FrozenSlice(Model(), d, a, b);
      var from, to := a - d.base, b - d.base;
      assert epochs[d.index].Model(bases[d.index]) == Model().epochs[d.index];
      OldestIgnoresBase(epochs[d.index].Model(0), bases[d.index], geometry);
      ghost var was, kept := log, epochs[d.index].written[from..to];
      assert kept == was[a..b];
      copied := CopyEpoch(d.index, from, to, destination);
      assert log == was && destination[..copied] == kept[..copied];
      PrefixOfSlice(was, a, b, copied);
    }
  }
}

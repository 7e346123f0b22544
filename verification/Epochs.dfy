/** The capture worker's two retention epochs as values (src/capture_arena.rs,
    `WorkerState`).  `log` is every frame the worker has accepted since start;
    its length is the worker's `absolute_head`.  The class in WorkerState.dfy
    refines these functions. */
module Epochs {
  import opened Base
  import opened Audio

  /** A retention ring of `chunkCount` chunks of `chunkFrames` frames. */
  datatype Geometry = Geometry(chunkFrames: nat, chunkCount: nat)
  {
    predicate Valid() { chunkFrames > 0 && chunkCount > 0 }

    /** The most frames a ring holds. */
    function Capacity(): nat { chunkCount * chunkFrames }

    /** What a ring that recycled a chunk still holds at least. */
    function Guaranteed(): nat
      requires Valid()
    {
      (chunkCount - 1) * chunkFrames + 1
    }
  }

  /** The oldest local frame still held after `head` frames were written:
      whole chunks are recycled, so it is a chunk boundary. */
  function RetainedStart(g: Geometry, head: nat): (start: nat)
    requires g.Valid()
    ensures start <= head
  {
    if head == 0 then 0
    else
      var last := (head - 1) / g.chunkFrames;
      if last < g.chunkCount then 0
      else
        ChunkStartBelow(g, head);
        (last + 1 - g.chunkCount) * g.chunkFrames
  }

  lemma ChunkStartBelow(g: Geometry, head: nat)
    requires g.Valid() && head > 0
    ensures forall k: nat :: k <= (head - 1) / g.chunkFrames ==> k * g.chunkFrames <= head
  {
    var last := (head - 1) / g.chunkFrames;
    forall k: nat | k <= last ensures k * g.chunkFrames <= head {
      assert last * g.chunkFrames <= head - 1;
      assert k * g.chunkFrames <= last * g.chunkFrames;
    }
  }

  /** A ring holds no more than its capacity, and gives nothing up before it
      holds all chunks but a part of one. */
  lemma RetainedBounds(g: Geometry, head: nat)
    requires g.Valid()
    ensures head - RetainedStart(g, head) <= g.Capacity()
    ensures RetainedStart(g, head) > 0 ==> head - RetainedStart(g, head) >= g.Guaranteed()
  {
    if head > 0 {
      var size, count := g.chunkFrames, g.chunkCount;
      var last := (head - 1) / size;
      WithinChunk(head - 1, size);
      Distributes(last, 1 - count, size);
      Distributes(count, -1, size);
      Distributes(1, -count, size);
      if last < count {
        Distributes(count - 1 - last, last + 1, size);
      }
    }
  }

  lemma WithinChunk(n: nat, size: nat)
    requires size > 0
    ensures n / size * size <= n < n / size * size + size
  {
    assert n == size * (n / size) + n % size;
  }

  lemma Distributes(a: int, b: int, m: int)
    ensures (a + b) * m == a * m + b * m
    ensures (-a) * m == -(a * m)
    ensures a >= 0 && m >= 0 ==> a * m >= 0
  {
  }

  /** Retention alone never empties a ring. */
  lemma RetainedAtHead(g: Geometry, head: nat)
    requires g.Valid() && RetainedStart(g, head) == head
    ensures head == 0
  {
    RetainedBounds(g, head);
  }

  /** A command that takes the frames `start..end` of a ring although everything
      from `from` on was asked for: the frames left out are at least a ring's
      guaranteed content older than `end`, or were removed by a clear that ended
      at `mark` or before. */
  predicate Kept(g: Geometry, mark: nat, from: nat, start: nat, end: nat)
    requires g.Valid()
  {
    && from <= start <= end
    && end - start <= g.Capacity()
    && (start > from ==> start <= mark || end - start >= g.Guaranteed())
  }

  /** One ring: all frames written since its last reset, its absolute base, and
      the clear mark. */
  datatype Epoch = Epoch(base: u64, written: seq<Frame>, clearAfter: nat)
  {
    function Oldest(g: Geometry): nat
      requires g.Valid()
    {
      Max(RetainedStart(g, |written|), clearAfter)
    }

    /** An epoch holds a contiguous stretch of the log. */
    predicate Slice(log: seq<Frame>) {
      && clearAfter <= |written|
      && base + |written| <= |log|
      && written == log[base..base + |written|]
    }
  }

  lemma SliceKept(e: Epoch, log: seq<Frame>, log': seq<Frame>)
    requires e.Slice(log) && log <= log'
    ensures e.Slice(log')
  {
    assert log'[e.base..e.base + |e.written|] == log[e.base..e.base + |e.written|];
  }

  lemma SliceGrows(e: Epoch, log: seq<Frame>, frames: seq<Frame>)
    requires e.Slice(log) && e.base + |e.written| == |log|
    ensures e.(written := e.written + frames).Slice(log + frames)
  {
    assert (log + frames)[e.base..] == log[e.base..] + frames;
    assert log[e.base..] == log[e.base..e.base + |e.written|];
  }

  datatype FrozenRecord = FrozenRecord(index: nat, generation: u64)

  /** What a freeze hands out: absolute range `start..end` of epoch `index`. */
  datatype Descriptor = Descriptor(index: nat, generation: u64, base: u64, start: u64, end: u64)

  datatype Worker = Worker(
    geometry: Geometry,
    log: seq<Frame>,
    active: nat,
    epochs: seq<Epoch>,
    nextGeneration: u64,
    frozen: Option<FrozenRecord>)
  {
    function ActiveStart(): nat
      requires geometry.Valid() && active < |epochs|
    {
      epochs[active].base + epochs[active].Oldest(geometry)
    }

    function ActiveEnd(): nat
      requires active < |epochs|
    {
      epochs[active].base + |epochs[active].written|
    }

    /** From here on the active ring lost frames to retention only. */
    function Mark(): nat
      requires active < |epochs|
    {
      epochs[active].base + epochs[active].clearAfter
    }

    /** The oldest frame the active ring will hold when the log ends at `head`. */
    function OldestAt(head: nat): nat
      requires geometry.Valid() && active < |epochs| && epochs[active].base <= head
    {
      Max(epochs[active].base + RetainedStart(geometry, head - epochs[active].base), Mark())
    }

    /** The worker invariant. */
    predicate Valid() {
      && geometry.Valid()
      && |log| <= U64_MAX
      && active < 2 && |epochs| == 2
      && epochs[0].Slice(log) && epochs[1].Slice(log)
      && ActiveEnd() == |log|
      && (frozen.Some? ==>
            && frozen.value.index == 1 - active
            && frozen.value.generation <= nextGeneration
            && epochs[active].base == epochs[1 - active].base + |epochs[1 - active].written|)
    }
  }

  function Start(g: Geometry): (w: Worker)
    requires g.Valid()
    ensures w.Valid() && w.log == [] && w.frozen.None?
  {
    Worker(g, [], 0, [Epoch(0, [], 0), Epoch(0, [], 0)], 1, None)
  }

  /** Consuming one queue slot: appended to the active epoch, or dropped whole
      when the absolute counter would overflow. */
  function Push(w: Worker, frames: seq<Frame>): (w': Worker)
    requires w.Valid()
    ensures w'.Valid() && w.log <= w'.log
    ensures w'.frozen == w.frozen && w'.active == w.active && w'.geometry == w.geometry
    ensures w'.epochs[1 - w.active] == w.epochs[1 - w.active]
    ensures w'.log == if |w.log| + |frames| <= U64_MAX then w.log + frames else w.log
  {
    if |w.log| + |frames| > U64_MAX then w
    else
      var e := w.epochs[w.active];
      SliceGrows(e, w.log, frames);
      SliceKept(w.epochs[1 - w.active], w.log, w.log + frames);
      w.(log := w.log + frames, epochs := w.epochs[w.active := e.(written := e.written + frames)])
  }

  datatype FreezeError = AlreadyFrozen | GenerationExhausted
  datatype FreezeOutcome = Frozen(descriptor: Option<Descriptor>) | FreezeFailed(error: FreezeError)

  /** The descriptor a worker record answers for. */
  predicate Describes(w: Worker, d: Descriptor) {
    && w.Valid()
    && w.frozen == Some(FrozenRecord(d.index, d.generation))
    && d.base == w.epochs[d.index].base
    && d.end == d.base + |w.epochs[d.index].written|
    && d.base + w.epochs[d.index].Oldest(w.geometry) <= d.start < d.end
  }

  /** A descriptor that leaves out no frame asked for and still held by the ring
      it froze, which no clear had emptied beyond `mark`. */
  predicate Whole(w: Worker, d: Descriptor, committed: Option<u64>, mark: nat) {
    && Describes(w, d)
    && d.start == Max(committed.GetOr(0), d.base + w.epochs[d.index].Oldest(w.geometry))
    && d.base + w.epochs[d.index].clearAfter <= mark
    && w.Mark() <= d.end
  }

  /** The active ring was neither cleared nor replaced. */
  predicate RingKept(w: Worker, w': Worker)
    requires w.Valid() && w'.Valid()
  {
    && w'.active == w.active && w'.geometry == w.geometry
    && w'.epochs[w.active].base == w.epochs[w.active].base
    && w'.epochs[w.active].clearAfter == w.epochs[w.active].clearAfter
  }

  lemma WholeKept(w: Worker, d: Descriptor, committed: Option<u64>, mark: nat)
    requires Whole(w, d, committed, mark)
    ensures Kept(w.geometry, mark, committed.GetOr(0), d.start, d.end)
  {
    RetainedBounds(w.geometry, |w.epochs[d.index].written|);
  }

  lemma OldestKept(w: Worker, head: nat, from: nat, mark: nat)
    requires w.Valid() && |w.log| <= head && from <= head && w.Mark() <= mark
    ensures w.OldestAt(head) <= head
    ensures Kept(w.geometry, mark, from, Max(from, w.OldestAt(head)), head)
  {
    RetainedBounds(w.geometry, head - w.epochs[w.active].base);
  }

  /** Freeze swaps the epochs: writing continues in the reset standby ring,
      based at the absolute head, while the old ring keeps the range.  Resetting a
      ring, here and in `Release`, also adds its drop count to a running total.  A
      ring drops frames only under a pinned snapshot, at most those it was handed,
      and the arena takes none, so the source's refusal when that sum overflows is
      never met. */
  function Freeze(w: Worker, committed: Option<u64>): (r: (Worker, FreezeOutcome))
    requires w.Valid()
    ensures r.0.Valid() && r.0.log == w.log && r.0.geometry == w.geometry
    ensures r.1.FreezeFailed? ==> r.0 == w
    ensures r.1 == FreezeFailed(AlreadyFrozen) <==> w.frozen.Some?
    ensures r.1 == Frozen(None) ==> r.0.frozen.None?
    ensures r.1.Frozen? && r.1.descriptor.Some? ==>
              var d := r.1.descriptor.value;
              && w.frozen.None? && Describes(r.0, d)
              && d.start == Max(committed.GetOr(0), w.ActiveStart())
              && d.end == |w.log|
  {
    if w.frozen.Some? then (w, FreezeFailed(AlreadyFrozen))
    else
      var was := w.active;
      var standby := 1 - was;
      var e := w.epochs[was];
      var end := e.base + |e.written|;
      var oldest := e.base + e.Oldest(w.geometry);
      var start := Max(committed.GetOr(oldest), oldest);
      if start < end && w.nextGeneration + 1 > U64_MAX then (w, FreezeFailed(GenerationExhausted))
      else
        var swapped := w.(active := standby, epochs := w.epochs[standby := Epoch(|w.log|, [], 0)]);
        if start >= end then (swapped, Frozen(None))
        else
          var generation := w.nextGeneration + 1;
          (swapped.(nextGeneration := generation, frozen := Some(FrozenRecord(was, generation))),
           Frozen(Some(Descriptor(was, generation, e.base, start, end))))
  }

  /** A freeze leaves out nothing the ring still held, and one that hands out
      nothing had nothing to hand out. */
  lemma FreezeIsWhole(w: Worker, committed: Option<u64>)
    requires w.Valid() && Freeze(w, committed).1.Frozen?
    ensures var r := Freeze(w, committed);
            match r.1.descriptor
            case Some(d) => Whole(r.0, d, committed, w.Mark())
            case None =>
              && r.0.Mark() <= Max(committed.GetOr(0), w.Mark())
              && |w.log| <= Max(committed.GetOr(0), w.Mark())
  {
    hide RetainedStart;
    var e := w.epochs[w.active];
    if RetainedStart(w.geometry, |e.written|) == |e.written| {
      RetainedAtHead(w.geometry, |e.written|);
    }
  }

  datatype ReleaseOutcome = Released | NothingFrozen | WrongCapability

  function Release(w: Worker, index: nat, generation: u64): (r: (Worker, ReleaseOutcome))
    requires w.Valid()
    ensures r.0.Valid() && r.0.log == w.log && r.0.geometry == w.geometry
    ensures r.1 == Released <==> w.frozen == Some(FrozenRecord(index, generation))
    ensures r.1 == Released ==> r.0.frozen.None?
    ensures r.1 != Released ==> r.0 == w
  {
    if w.frozen.None? then (w, NothingFrozen)
    else if w.frozen.value != FrozenRecord(index, generation) then (w, WrongCapability)
    else (w.(epochs := w.epochs[index := Epoch(w.epochs[index].base, [], 0)], frozen := None), Released)
  }

  /** Clear marks the active ring empty without moving its head. */
  function Clear(w: Worker): (w': Worker)
    requires w.Valid()
    ensures w'.Valid() && w'.log == w.log && w'.geometry == w.geometry
    ensures w'.frozen == w.frozen && w'.active == w.active
    ensures w'.epochs[1 - w.active] == w.epochs[1 - w.active]
    ensures w'.ActiveStart() == w'.ActiveEnd() == w.ActiveEnd()
  {
    var e := w.epochs[w.active];
    w.(epochs := w.epochs[w.active := e.(clearAfter := |e.written|)])
  }

  /** Reading absolute `a..b` through a frozen capability. */
  function ReadFrozen(w: Worker, d: Descriptor, a: nat, b: nat): seq<Frame>
    requires Describes(w, d) && d.start <= a <= b <= d.end
  {
    w.epochs[d.index].written[a - d.base..b - d.base]
  }

  lemma SliceOfSlice(log: seq<Frame>, lo: nat, hi: nat, a: nat, b: nat)
    requires lo <= a <= b <= hi <= |log|
    ensures log[lo..hi][a - lo..b - lo] == log[a..b]
  {
    var inner := log[lo..hi][a - lo..b - lo];
    assert |inner| == b - a && forall k :: 0 <= k < b - a ==> inner[k] == log[a + k];
  }

  lemma ReadIsLog(w: Worker, d: Descriptor, a: nat, b: nat)
    requires Describes(w, d) && d.start <= a <= b <= d.end
    ensures b <= |w.log| && ReadFrozen(w, d, a, b) == w.log[a..b]
  {
    hide RetainedStart;
    var e := w.epochs[d.index];
    assert e.Slice(w.log) && e.written == w.log[e.base..e.base + |e.written|];
    SliceOfSlice(w.log, e.base, e.base + |e.written|, a, b);
  }

  /** Everything the worker may do between two commands of one client. */
  datatype Op =
    | PushOp(frames: seq<Frame>)
    | FreezeOp(committed: Option<u64>)
    | ReleaseOp(index: nat, generation: u64)
    | ClearOp
    | StatusOp

  function Apply(w: Worker, op: Op): (w': Worker)
    requires w.Valid()
    ensures w'.Valid() && w.log <= w'.log
  {
    match op
    case PushOp(frames) => Push(w, frames)
    case FreezeOp(committed) => Freeze(w, committed).0
    case ReleaseOp(index, generation) => Release(w, index, generation).0
    case ClearOp => Clear(w)
    case StatusOp => w
  }

  function Run(w: Worker, ops: seq<Op>): (w': Worker)
    requires w.Valid()
    ensures w'.Valid() && w.log <= w'.log
    decreases ops
  {
    if ops == [] then w else Run(Apply(w, ops[0]), ops[1..])
  }

  lemma FrozenStep(w: Worker, d: Descriptor, op: Op)
    requires Describes(w, d) && op != ReleaseOp(d.index, d.generation)
    ensures Describes(Apply(w, op), d)
    ensures Apply(w, op).epochs[d.index] == w.epochs[d.index]
  {
  }

  /** A frozen range stays readable, and reads exactly the log, whatever pushes,
      clears, status calls, further freezes and mismatched releases come before
      its own release. */
  lemma {:induction false} FrozenRangeSurvives(w: Worker, d: Descriptor, ops: seq<Op>, a: nat, b: nat)
    requires Describes(w, d) && d.start <= a <= b <= d.end
    requires ReleaseOp(d.index, d.generation) !in ops
    ensures Describes(Run(w, ops), d)
    ensures b <= |w.log| && ReadFrozen(Run(w, ops), d, a, b) == w.log[a..b]
    decreases ops
  {
    hide Apply, RetainedStart, Worker.Valid, ReadFrozen;
    ReadIsLog(w, d, a, b);
    if ops != [] {
      var w' := Apply(w, ops[0]);
      FrozenStep(w, d, ops[0]);
      FrozenRangeSurvives(w', d, ops[1..], a, b);
      assert w'.log[a..b] == w.log[a..b];
    }
  }

  /** Frames a freeze does not hand out are exactly those older than both the
      request and the ring, so nothing between is skipped or read twice. */
  lemma FreezeCoversNewFrames(w: Worker, committed: Option<u64>)
    requires w.Valid() && Freeze(w, committed).1.Frozen?
    ensures var r := Freeze(w, committed);
            match r.1.descriptor
            case None => w.ActiveStart() == |w.log| || committed.GetOr(0) >= |w.log|
            case Some(d) =>
              && ReadFrozen(r.0, d, d.start, d.end) == w.log[d.start..]
              && (d.start > committed.GetOr(0) ==> d.start == w.ActiveStart())
  {
    var r := Freeze(w, committed);
    if r.1.descriptor.Some? {
      var d := r.1.descriptor.value;
      ReadIsLog(r.0, d, d.start, d.end);
    }
  }
}

/** The bounded single-producer queue between the audio callback and the capture
    worker, with the worker's drop accounting and calibration capture on top
    (src/capture_arena.rs, `IngressQueue`, `ProducerAdmission`, `WorkerState`).

    A state holds the shared atomics, one program counter per thread, and a
    history log that no step reads to decide anything.  One label is one atomic
    access of one thread, so a run is a sequence of labels and every
    interleaving is a run.  Two loads are joined with another access where the
    other thread cannot tell: `WTry` reads the published head and the worker's
    own consumed count, and `WAccept` reads the slot again after taking the
    request, where a cancellation found there is the label `CancelCapture`. */
module IngressQueue {
  import opened Base
  import opened Audio
  import opened ChunkMath

  // ---- the history log ----

  /** What pushes did: the frames they accounted for (`stream`), the chunks they
      queued, the frames the queue refused before each chunk (`gapAt`) and in
      all (`gap`), and the stream lengths at which a push ended. */
  datatype Log = Log(chunks: seq<seq<Frame>>, gapAt: seq<nat>, stream: seq<Frame>, gap: nat, pushEnds: set<nat>)

  function Flat(chunks: seq<seq<Frame>>): seq<Frame> {
    if chunks == [] then [] else Flat(chunks[..|chunks| - 1]) + chunks[|chunks| - 1]
  }

  function Queue(l: Log, chunk: seq<Frame>): Log {
    l.(chunks := l.chunks + [chunk], gapAt := l.gapAt + [l.gap], stream := l.stream + chunk)
  }

  function Miss(l: Log, frames: seq<Frame>): Log {
    l.(stream := l.stream + frames, gap := l.gap + |frames|)
  }

  function EndPushAt(l: Log): Log { l.(pushEnds := l.pushEnds + {|l.stream|}) }

  /** Chunk `i` stands in the stream after the chunks and the refused frames
      before it. */
  ghost predicate Placed(l: Log, i: nat)
    requires i < |l.chunks| == |l.gapAt|
  {
    var at := |Flat(l.chunks[..i])| + l.gapAt[i];
    && l.chunks[i] != [] && l.gapAt[i] <= l.gap
    && at + |l.chunks[i]| <= |l.stream| && l.stream[at..at + |l.chunks[i]|] == l.chunks[i]
  }

  ghost predicate Flow(l: Log) {
    && |l.chunks| == |l.gapAt|
    && |l.stream| == |Flat(l.chunks)| + l.gap
    && forall i :: 0 <= i < |l.chunks| ==> Placed(l, i)
  }

  ghost predicate Extends(l: Log, m: Log) {
    && l.chunks <= m.chunks && l.gapAt <= m.gapAt && l.stream <= m.stream
    && l.gap <= m.gap && l.pushEnds <= m.pushEnds
    && forall i :: |l.gapAt| <= i < |m.gapAt| ==> m.gapAt[i] >= l.gap
  }

  lemma FlatAppend(chunks: seq<seq<Frame>>, c: seq<Frame>)
    ensures Flat(chunks + [c]) == Flat(chunks) + c
  {
    assert (chunks + [c])[..|chunks|] == chunks;
  }

  lemma FlatPrefix(chunks: seq<seq<Frame>>, i: nat)
    requires i < |chunks|
    ensures Flat(chunks[..i + 1]) == Flat(chunks[..i]) + chunks[i]
  {
    assert chunks[..i + 1] == chunks[..i] + [chunks[i]];
    FlatAppend(chunks[..i], chunks[i]);
  }

  lemma {:induction false} FlatTwo(a: seq<seq<Frame>>, b: seq<seq<Frame>>)
    ensures Flat(a + b) == Flat(a) + Flat(b)
  {
    if b == [] {
      assert a + b == a;
    } else {
      var init, last := b[..|b| - 1], b[|b| - 1];
      FlatTwo(a, init);
      assert a + b == (a + init) + [last] && b == init + [last];
      FlatAppend(a + init, last);
      FlatAppend(init, last);
      hide Flat;
      assert Flat(a) + Flat(b) == Flat(a) + Flat(init) + last;
    }
  }

  lemma QueueKeepsFlow(l: Log, chunk: seq<Frame>)
    requires Flow(l) && chunk != []
    ensures Flow(Queue(l, chunk)) && Extends(l, Queue(l, chunk))
  {
    var m := Queue(l, chunk);
    FlatAppend(l.chunks, chunk);
    hide Flat;
    forall i | 0 <= i < |m.chunks| ensures Placed(m, i) {
      assert m.chunks[..i] == l.chunks[..i];
      if i < |l.chunks| {
        assert Placed(l, i);
      } else {
        assert l.chunks[..i] == l.chunks;
      }
    }
  }

  lemma MissKeepsFlow(l: Log, frames: seq<Frame>)
    requires Flow(l)
    ensures Flow(Miss(l, frames)) && Extends(l, Miss(l, frames))
  {
    hide Flat;
    var m := Miss(l, frames);
    forall i | 0 <= i < |m.chunks| ensures Placed(m, i) {
      assert Placed(l, i);
    }
  }

  lemma EndPushKeepsFlow(l: Log)
    requires Flow(l)
    ensures Flow(EndPushAt(l)) && Extends(l, EndPushAt(l))
  {
    hide Flat;
    forall i | 0 <= i < |l.chunks| ensures Placed(EndPushAt(l), i) {
      assert Placed(l, i);
    }
  }

  // ---- states ----

  /** What `try_push` answered. */
  datatype Pushed = PushOk(enqueued: nat, dropped: nat) | PushErr

  /** One push: its frames and, as history, the stream and queue lengths when it
      began. */
  datatype Job = Job(frames: seq<Frame>, from: nat, queuedFrom: nat)

  /** Where the producer stands in its push. */
  datatype Point =
    | Idle
    | Entered
    | Loop(done: nat)
    | Full(done: nat)
    | FullCounted(done: nat)
    | Room(done: nat, take: nat)
    | Counted(done: nat, take: nat)
    | Written(done: nat, take: nat)
    | Return(result: Pushed)
    | Bumped(result: Pushed)

  /** Where a calibration starts: the next sequence, the cumulative drop count,
      and (history) the stream position and the two gap counts behind it. */
  datatype Boundary = Boundary(first: nat, droppedAt: nat, mark: nat, gapMark: nat, workerMark: nat)

  datatype Worker =
    | WIdle
    | WGeneration
    | WAdmitted(generation: nat)
    | WPublished(generation: nat)
    | WDropped(generation: nat, b: Boundary)
    | WStillAdmitted(generation: nat, b: Boundary)
    | WSameGeneration(generation: nat, b: Boundary)
    | WAccept(b: Boundary)
    | WTry
    | WReading
    | WFinish
    | WDrop(n: nat, faulted: bool)
    | WDropCounted(n: nat, faulted: bool)
    | WStore

  datatype Capture = Capture(b: Boundary, wanted: nat, copied: seq<Frame>)

  datatype Lease = Lease(b: Boundary, wanted: nat, frames: seq<Frame>, dropped: nat)

  /** What only the producer writes; `okPushed` and `log` are history. */
  datatype ProducerSide = ProducerSide(
    at: Point,
    job: Job,
    slots: seq<seq<Frame>>,
    published: u64,
    enqueued: u64,
    admitted: bool,
    generation: u64,
    generationExhausted: bool,
    okPushed: nat,
    log: Log)

  /** What only the worker writes; `gap` is history. */
  datatype WorkerSide = WorkerSide(
    pc: Worker,
    consumed: u64,
    fault: bool,
    written: u64,
    dropped: u64,
    capture: Option<Capture>,
    lease: Option<Lease>,
    gap: nat)

  /** Counters both threads add to; `failed` (history) says some counter was
      exhausted. */
  datatype Counters = Counters(dropped: u64, cumulative: u64, exhausted: bool, failed: bool)

  datatype State = State(slotFrames: nat, open: bool, p: ProducerSide, w: WorkerSide, n: Counters)

  function Start(capacity: nat, slotFrames: nat): State {
    State(slotFrames, true,
          ProducerSide(Idle, Job([], 0, 0), seq(capacity, _ => []), 0, 0, false, 0, false, 0, Log([], [], [], 0, {0})),
          WorkerSide(WIdle, 0, false, 0, 0, None, None, 0),
          Counters(0, 0, false, false))
  }

  predicate HasBoundary(pc: Worker) { pc.WDropped? || pc.WStillAdmitted? || pc.WSameGeneration? || pc.WAccept? }

  predicate HoldsSlot(w: Worker) {
    w.WReading? || w.WFinish? || w.WDrop? || w.WDropCounted? || w.WStore?
  }

  predicate PointSound(s: State) {
    var at, total := s.p.at, |s.p.job.frames|;
    if at.Loop? then at.done <= total
    else if at.Full? || at.FullCounted? then at.done < total
    else if at.Room? || at.Counted? || at.Written? then
      && at.done < total && at.take == Min(total - at.done, s.slotFrames)
      && s.p.published < s.w.consumed + |s.p.slots| && s.p.published < U64_MAX
    else true
  }

  /** Enough for every next access to make sense. */
  predicate WellFormed(s: State) {
    && s.p.slots != [] && s.slotFrames > 0
    && |s.p.log.chunks| == s.p.published
    && s.w.consumed <= s.p.published <= s.w.consumed + |s.p.slots|
    && (HoldsSlot(s.w.pc) ==> s.w.consumed < s.p.published)
    && PointSound(s)
  }

  // ---- shared counters ----

  /** `add_cumulative_dropped_frames`: the other thread may set the flag between
      the check and the update (`stale`). */
  function AddCumulative(n: Counters, frames: nat, stale: bool): (Counters, bool) {
    if (n.exhausted && !stale) || n.cumulative + frames > U64_MAX then (n.(exhausted := true, failed := true), false)
    else (n.(cumulative := n.cumulative + frames), true)
  }

  function AddDropped(n: Counters, frames: nat): (Counters, bool) {
    if n.dropped + frames > U64_MAX then (n.(exhausted := true, failed := true), false)
    else (n.(dropped := n.dropped + frames), true)
  }

  // ---- producer steps ----

  function Refuse(s: State): State {
    s.(n := s.n.(failed := true), p := s.p.(at := Return(PushErr)))
  }

  function Begin(s: State, input: seq<Frame>): State {
    if s.open then
      s.(p := s.p.(admitted := true, at := Entered, job := Job(input, |s.p.log.stream|, |Flat(s.p.log.chunks)|)))
    else s
  }

  function CheckExhausted(s: State): State {
    if s.n.exhausted then Refuse(s) else s.(p := s.p.(at := Loop(0)))
  }

  function CheckRoom(s: State): State
    requires WellFormed(s) && s.p.at.Loop?
  {
    var p, done := s.p, s.p.at.done;
    if done == |p.job.frames| then
      s.(p := p.(at := Return(PushOk(done, 0)), okPushed := p.okPushed + |p.job.frames|))
    else if p.published - s.w.consumed >= |p.slots| then s.(p := p.(at := Full(done)))
    else if p.published == U64_MAX then Refuse(s)
    else s.(p := p.(at := Room(done, Min(|p.job.frames| - done, s.slotFrames))))
  }

  function MissRest(s: State, stale: bool): State
    requires WellFormed(s) && s.p.at.Full?
  {
    var p, done := s.p, s.p.at.done;
    var r := AddCumulative(s.n, |p.job.frames| - done, stale);
    if r.1 then s.(n := r.0, p := p.(log := Miss(p.log, p.job.frames[done..]), at := FullCounted(done)))
    else Refuse(s.(n := r.0))
  }

  function CountMissed(s: State): State
    requires WellFormed(s) && s.p.at.FullCounted?
  {
    var p, done := s.p, s.p.at.done;
    var missed := |p.job.frames| - done;
    var r := AddDropped(s.n, missed);
    if r.1 then
      s.(n := r.0, p := p.(at := Return(PushOk(done, missed)), okPushed := p.okPushed + |p.job.frames|))
    else Refuse(s.(n := r.0))
  }

  function CountQueued(s: State): State
    requires s.p.at.Room?
  {
    var p := s.p;
    if p.enqueued + p.at.take > U64_MAX then Refuse(s)
    else s.(p := p.(enqueued := p.enqueued + p.at.take, at := Counted(p.at.done, p.at.take)))
  }

  function Chunk(s: State): seq<Frame>
    requires PointSound(s) && (s.p.at.Counted? || s.p.at.Written?)
  {
    s.p.job.frames[s.p.at.done..s.p.at.done + s.p.at.take]
  }

  function WriteSlot(s: State): State
    requires WellFormed(s) && s.p.at.Counted?
  {
    var p := s.p;
    s.(p := p.(slots := p.slots[Slot(p.published, |p.slots|) := Chunk(s)], at := Written(p.at.done, p.at.take)))
  }

  function Publish(s: State): State
    requires WellFormed(s) && s.p.at.Written?
  {
    var p := s.p;
    s.(p := p.(published := p.published + 1, log := Queue(p.log, Chunk(s)), at := Loop(p.at.done + p.at.take)))
  }

  function BumpGeneration(s: State): State
    requires s.p.at.Return?
  {
    var p := s.p.(at := Bumped(s.p.at.result));
    s.(p := if p.generation == U64_MAX then p.(generationExhausted := true) else p.(generation := p.generation + 1))
  }

  function EndPush(s: State): State {
    s.(p := s.p.(admitted := false, at := Idle, log := EndPushAt(s.p.log)))
  }

  /** A push of `input` begins, or the producer's next atomic access. */
  function ProducerStep(s: State, input: seq<Frame>, stale: bool): State
    requires WellFormed(s)
  {
    match s.p.at
    case Idle => Begin(s, input)
    case Entered => CheckExhausted(s)
    case Loop(_) => CheckRoom(s)
    case Full(_) => MissRest(s, stale)
    case FullCounted(_) => CountMissed(s)
    case Room(_, _) => CountQueued(s)
    case Counted(_, _) => WriteSlot(s)
    case Written(_, _) => Publish(s)
    case Return(_) => BumpGeneration(s)
    case Bumped(_) => EndPush(s)
  }

  // ---- worker steps ----

  function Take(f: seq<Frame>, n: nat): seq<Frame> { f[..Min(|f|, n)] }

  /** The worker's treatment of one chunk: written and copied to a capture that
      wants it, or on its way to being counted as dropped. */
  function Consume(w: WorkerSide, chunk: seq<Frame>, accepted: bool): WorkerSide {
    if w.fault then w.(capture := None, pc := WDrop(|chunk|, true))
    else if !accepted || w.written + |chunk| > U64_MAX then w.(pc := WDrop(|chunk|, false))
    else if w.capture.None? || w.consumed < w.capture.value.b.first then
      w.(written := w.written + |chunk|, pc := WStore)
    else
      var c := w.capture.value;
      var copied := Take(c.copied + chunk, c.wanted);
      w.(written := w.written + |chunk|, capture := Some(c.(copied := copied)),
         pc := if |copied| == c.wanted then WFinish else WStore)
  }

  function Finish(w: WorkerSide, cumulative: nat): WorkerSide {
    if w.capture.None? then w.(pc := WStore)
    else
      var c := w.capture.value;
      w.(lease := Some(Lease(c.b, c.wanted, c.copied, SatSub(cumulative, c.b.droppedAt))), capture := None,
         pc := WStore)
  }

  /** The accesses of `calibration_boundary` and of accepting a request.
      `request` is the length of the request found READY, 0 for none. */
  function BoundaryStep(w: WorkerSide, p: ProducerSide, cumulative: nat, request: nat): WorkerSide
    requires !HoldsSlot(w.pc)
  {
    match w.pc
    case WIdle =>
      if p.generationExhausted then w.(fault := true, capture := None, pc := WTry) else w.(pc := WGeneration)
    case WGeneration => w.(pc := WAdmitted(p.generation))
    case WAdmitted(g) => w.(pc := if p.admitted then WTry else WPublished(g))
    case WPublished(g) => w.(pc := WDropped(g, Boundary(p.published, 0, |p.log.stream|, p.log.gap, w.gap)))
    case WDropped(g, b) => w.(pc := WStillAdmitted(g, b.(droppedAt := cumulative)))
    case WStillAdmitted(g, b) => w.(pc := if p.admitted then WTry else WSameGeneration(g, b))
    case WSameGeneration(g, b) =>
      w.(pc := if p.generation != g then WTry else WAccept(b))
    case WAccept(b) =>
      if request == 0 || w.capture.Some? then w.(pc := WTry)
      else w.(pc := WTry, capture := Some(Capture(b, request, [])), lease := None)
    case WTry => w.(pc := if w.consumed < p.published then WReading else WIdle)
  }

  /** A chunk the worker could not keep enters the cumulative count. */
  function CountDrop(s: State, stale: bool): State
    requires s.w.pc.WDrop?
  {
    var w := s.w;
    var r := AddCumulative(s.n, w.pc.n, stale);
    if r.1 then s.(n := r.0, w := w.(gap := w.gap + w.pc.n, pc := WDropCounted(w.pc.n, w.pc.faulted)))
    else if w.pc.faulted then s.(n := r.0, w := w.(pc := WStore))
    else s.(n := r.0, w := w.(fault := true, capture := None, pc := WStore))
  }

  /** Then the worker's own count, or the queue's when the worker has failed. */
  function CountDropped(s: State): State
    requires s.w.pc.WDropCounted?
  {
    var w := s.w;
    if w.pc.faulted then s.(n := AddDropped(s.n, w.pc.n).0, w := w.(pc := WStore))
    else if w.dropped + w.pc.n > U64_MAX then
      s.(n := s.n.(failed := true), w := w.(fault := true, capture := None, pc := WStore))
    else s.(w := w.(dropped := w.dropped + w.pc.n, pc := WStore))
  }

  /** The worker's next atomic access; `accepted` says whether the ring took the
      frames. */
  function WorkerStep(s: State, request: nat, accepted: bool, stale: bool): State
    requires WellFormed(s)
  {
    if !HoldsSlot(s.w.pc) then s.(w := BoundaryStep(s.w, s.p, s.n.cumulative, request))
    else if s.w.pc.WReading? then
      s.(w := Consume(s.w, s.p.slots[Slot(s.w.consumed, |s.p.slots|)], accepted))
    else if s.w.pc.WFinish? then s.(w := Finish(s.w, s.n.cumulative))
    else if s.w.pc.WStore? then s.(w := s.w.(consumed := s.w.consumed + 1, pc := WIdle))
    else if s.w.pc.WDrop? then CountDrop(s, stale)
    else CountDropped(s)
  }

  datatype Label =
    | Produce(input: seq<Frame>, stale: bool)
    | Work(request: nat, accepted: bool, stale: bool)
    | CloseAdmission
    | WorkerFaults   // also starts the clean-up that counts what a stopped worker left queued
    | CancelCapture

  function Step(s: State, l: Label): State
    requires WellFormed(s)
  {
    match l
    case Produce(input, stale) => ProducerStep(s, input, stale)
    case Work(request, accepted, stale) => WorkerStep(s, request, accepted, stale)
    case CloseAdmission => s.(open := false)
    case WorkerFaults => s.(w := s.w.(fault := true, capture := None))
    case CancelCapture => s.(w := s.w.(capture := None))
  }

  // ---- the invariant of pushes and counters ----

  /** Queued slots hold the queued chunks, oldest first. */
  ghost predicate Intact(slots: seq<seq<Frame>>, chunks: seq<seq<Frame>>, consumed: nat)
    requires slots != []
  {
    forall i :: consumed <= i < |chunks| ==> slots[Slot(i, |slots|)] == chunks[i]
  }

  /** A push has accounted for `done` of its frames in the stream and has queued
      the first `queued` of them. */
  ghost predicate Handled(l: Log, job: Job, queued: nat, done: nat) {
    && job.from <= |l.stream| && job.queuedFrom <= |Flat(l.chunks)| && queued <= done <= |job.frames|
    && l.stream[job.from..] == job.frames[..done]
    && Flat(l.chunks)[job.queuedFrom..] == job.frames[..queued]
  }

  ghost predicate Answered(l: Log, job: Job, r: Pushed) {
    r.PushOk? ==> r.enqueued + r.dropped == |job.frames| && Handled(l, job, r.enqueued, |job.frames|)
  }

  ghost predicate PushSound(p: ProducerSide)
    requires p.slots != []
  {
    && (p.admitted <==> !p.at.Idle?)
    && match p.at
       case Idle => |p.log.stream| in p.log.pushEnds
       case Entered => Handled(p.log, p.job, 0, 0)
       case Loop(done) => Handled(p.log, p.job, done, done)
       case Full(done) => Handled(p.log, p.job, done, done)
       case FullCounted(done) => Handled(p.log, p.job, done, |p.job.frames|)
       case Room(done, take) => Handled(p.log, p.job, done, done)
       case Counted(done, take) => Handled(p.log, p.job, done, done)
       case Written(done, take) =>
         && Handled(p.log, p.job, done, done) && done + take <= |p.job.frames|
         && p.slots[Slot(p.published, |p.slots|)] == p.job.frames[done..done + take]
       case Return(result) => Answered(p.log, p.job, result)
       case Bumped(result) => Answered(p.log, p.job, result)
  }

  /** Frames counted as queued whose chunk is not published yet. */
  function Underway(at: Point): nat {
    if at.Counted? || at.Written? then at.take else 0
  }

  /** Frames whose refusal is in the cumulative count only. */
  function HalfMissed(p: ProducerSide): nat {
    if p.at.FullCounted? then SatSub(|p.job.frames|, p.at.done) else 0
  }

  function HalfDropped(pc: Worker): nat {
    if pc.WDropCounted? then pc.n else 0
  }

  /** Chunks the worker has settled, as written or as dropped. */
  function Settled(w: WorkerSide): nat {
    if w.pc.WFinish? || w.pc.WDropCounted? || w.pc.WStore? then w.consumed + 1 else w.consumed
  }

  /** Every frame is in exactly one counter, up to the frames a thread is in the
      middle of counting; the last three facts hold until a counter is exhausted. */
  ghost predicate Tallied(s: State)
    requires WellFormed(s)
  {
    var p, w, n := s.p, s.w, s.n;
    && n.cumulative == p.log.gap + w.gap
    && p.enqueued == |Flat(p.log.chunks)| + Underway(p.at)
    && (w.pc.WDrop? ==> w.pc.n == |p.log.chunks[w.consumed]|)
    && (!n.failed ==>
          && p.okPushed == (if p.at.Idle? || p.at.Return? || p.at.Bumped? then |p.log.stream| else p.job.from)
          && w.written + w.gap == |Flat(p.log.chunks[..Settled(w)])|
          && n.dropped + w.dropped + HalfMissed(p) + HalfDropped(w.pc) == p.log.gap + w.gap)
    && (p.at.Return? && p.at.result.PushErr? ==> n.failed)
    && (p.at.Bumped? && p.at.result.PushErr? ==> n.failed)
  }

  ghost predicate Inv(s: State) {
    && WellFormed(s) && Flow(s.p.log) && PushSound(s.p) && Tallied(s)
    && Intact(s.p.slots, s.p.log.chunks, s.w.consumed)
  }

  /** What a producer access never undoes: the log grows, the generation rises
      when a push ends, and the producer comes to rest only by ending a push. */
  ghost predicate Onward(p: ProducerSide, q: ProducerSide, consumed: nat) {
    && Extends(p.log, q.log) && p.generation <= q.generation && (p.generationExhausted ==> q.generationExhausted)
    && (q.at.Bumped? ==> q.generationExhausted || q.generation > p.generation)
    && (q.at.Idle? ==> p.at.Bumped? || (p.at.Idle? && q.log == p.log))
    && (|p.log.chunks| == consumed && !p.at.Full? ==> RefusesNothing(p, q))
  }

  /** An empty queue takes the next chunk before it refuses anything. */
  ghost predicate RefusesNothing(p: ProducerSide, q: ProducerSide) {
    if |q.log.chunks| <= |p.log.chunks| then !q.at.Full? && q.log.gap == p.log.gap && q.log.stream == p.log.stream
    else |p.log.chunks| < |q.log.gapAt| && q.log.gapAt[|p.log.chunks|] == p.log.gap
  }

  ghost predicate Moved(s: State, t: State) {
    Inv(t) && t.w == s.w && Onward(s.p, t.p, s.w.consumed)
  }

  // ---- producer accesses keep it ----

  lemma BeginKeeps(s: State, input: seq<Frame>)
    requires Inv(s) && s.p.at.Idle?
    ensures Moved(s, Begin(s, input))
  {
    hide Intact, Flow, Flat;
  }

  lemma CheckExhaustedKeeps(s: State)
    requires Inv(s) && s.p.at.Entered?
    ensures Moved(s, CheckExhausted(s))
  {
    hide Intact, Flow, Flat;
  }

  lemma HandledLength(l: Log, job: Job, done: nat)
    ensures Handled(l, job, done, done) ==> |l.stream| == job.from + done
  {
    hide Flat;
  }

  lemma CheckRoomKeeps(s: State)
    requires Inv(s) && s.p.at.Loop?
    ensures Moved(s, CheckRoom(s))
  {
    hide Intact, Flow, Flat, Handled, Slot;
    HandledLength(s.p.log, s.p.job, s.p.at.done);
  }

  lemma CountMissedKeeps(s: State)
    requires Inv(s) && s.p.at.FullCounted?
    ensures Moved(s, CountMissed(s))
  {
    hide Intact, Flow, Flat;
  }

  lemma CountQueuedKeeps(s: State)
    requires Inv(s) && s.p.at.Room?
    ensures Moved(s, CountQueued(s))
  {
    hide Intact, Flow, Flat;
  }

  lemma BumpGenerationKeeps(s: State)
    requires Inv(s) && s.p.at.Return?
    ensures Moved(s, BumpGeneration(s))
  {
    hide Intact, Flow, Flat, Handled;
  }

  lemma EndPushKeeps(s: State)
    requires Inv(s) && s.p.at.Bumped?
    ensures Moved(s, EndPush(s))
  {
    EndPushKeepsFlow(s.p.log);
    hide Intact, Flow, Flat, Handled;
  }

  lemma MissedRestHandled(l: Log, job: Job, done: nat)
    requires Handled(l, job, done, done)
    ensures Handled(Miss(l, job.frames[done..]), job, done, |job.frames|)
  {
    hide Flat;
    var rest := job.frames[done..];
    assert (l.stream + rest)[job.from..] == l.stream[job.from..] + rest;
    assert job.frames[..done] + rest == job.frames;
  }

  lemma MissRestKeeps(s: State, stale: bool)
    requires Inv(s) && s.p.at.Full?
    ensures Moved(s, MissRest(s, stale))
  {
    hide Intact, Flow, Flat, Handled, Slot;
    var done := s.p.at.done;
    MissedRestHandled(s.p.log, s.p.job, done);
    MissKeepsFlow(s.p.log, s.p.job.frames[done..]);
  }

  /** The slot being written belongs to no queued chunk. */
  lemma WriteMissesQueue(slots: seq<seq<Frame>>, chunks: seq<seq<Frame>>, consumed: nat, chunk: seq<Frame>)
    requires slots != [] && consumed <= |chunks| < consumed + |slots| && Intact(slots, chunks, consumed)
    ensures Intact(slots[Slot(|chunks|, |slots|) := chunk], chunks, consumed)
  {
    forall i | consumed <= i < |chunks|
      ensures slots[Slot(|chunks|, |slots|) := chunk][Slot(i, |slots|)] == chunks[i]
    {
      SlotsDiffer(i, |chunks|, |slots|);
    }
  }

  lemma WriteSlotKeeps(s: State)
    requires Inv(s) && s.p.at.Counted?
    ensures Moved(s, WriteSlot(s))
  {
    WriteMissesQueue(s.p.slots, s.p.log.chunks, s.w.consumed, Chunk(s));
    hide Intact, Flow, Flat, Handled, Slot;
  }

  lemma PublishedHandled(l: Log, job: Job, done: nat, take: nat)
    requires Handled(l, job, done, done) && done + take <= |job.frames|
    ensures Handled(Queue(l, job.frames[done..done + take]), job, done + take, done + take)
  {
    var chunk := job.frames[done..done + take];
    FlatAppend(l.chunks, chunk);
    hide Flat;
    assert (l.stream + chunk)[job.from..] == l.stream[job.from..] + chunk;
    assert (Flat(l.chunks) + chunk)[job.queuedFrom..] == Flat(l.chunks)[job.queuedFrom..] + chunk;
    assert job.frames[..done] + chunk == job.frames[..done + take];
  }

  lemma PublishedIntact(slots: seq<seq<Frame>>, chunks: seq<seq<Frame>>, consumed: nat, chunk: seq<Frame>)
    requires slots != [] && Intact(slots, chunks, consumed) && slots[Slot(|chunks|, |slots|)] == chunk
    ensures Intact(slots, chunks + [chunk], consumed)
  {
  }

  lemma PublishKeeps(s: State)
    requires Inv(s) && s.p.at.Written?
    ensures Moved(s, Publish(s))
  {
    assert |s.p.log.chunks| == |s.p.log.gapAt|;
    hide Flow, Flat, Handled, Slot, Intact;
    var t, chunk := Publish(s), Chunk(s);
    PublishedHandled(s.p.log, s.p.job, s.p.at.done, s.p.at.take);
    QueueKeepsFlow(s.p.log, chunk);
    FlatAppend(s.p.log.chunks, chunk);
    PublishedIntact(s.p.slots, s.p.log.chunks, s.w.consumed, chunk);
    assert t.p.log.chunks[..Settled(s.w)] == s.p.log.chunks[..Settled(s.w)];
  }

  lemma ProducerKeeps(s: State, input: seq<Frame>, stale: bool)
    requires Inv(s)
    ensures Moved(s, ProducerStep(s, input, stale))
  {
    hide Moved, Inv, Begin, CheckExhausted, CheckRoom, MissRest, CountMissed, CountQueued, WriteSlot, Publish,
         BumpGeneration, EndPush;
    match s.p.at
    case Idle => BeginKeeps(s, input);
    case Entered => CheckExhaustedKeeps(s);
    case Loop(_) => CheckRoomKeeps(s);
    case Full(_) => MissRestKeeps(s, stale);
    case FullCounted(_) => CountMissedKeeps(s);
    case Room(_, _) => CountQueuedKeeps(s);
    case Counted(_, _) => WriteSlotKeeps(s);
    case Written(_, _) => PublishKeeps(s);
    case Return(_) => BumpGenerationKeeps(s);
    case Bumped(_) => EndPushKeeps(s);
  }

  // ---- worker accesses keep it ----

  lemma BoundaryKeeps(s: State, request: nat)
    requires Inv(s) && !HoldsSlot(s.w.pc)
    ensures var w := BoundaryStep(s.w, s.p, s.n.cumulative, request);
            Inv(s.(w := w)) && w.consumed == s.w.consumed && w.gap == s.w.gap
  {
    hide Flow, Flat, Handled, Slot, PushSound, Intact;
  }

  lemma ConsumeKeeps(s: State, accepted: bool)
    requires Inv(s) && s.w.pc.WReading?
    ensures Inv(s.(w := Consume(s.w, s.p.log.chunks[s.w.consumed], accepted)))
    ensures s.p.slots[Slot(s.w.consumed, |s.p.slots|)] == s.p.log.chunks[s.w.consumed]
  {
    FlatPrefix(s.p.log.chunks, s.w.consumed);
    hide Flow, Flat, Handled, PushSound, Take;
  }

  lemma CountDropWellFormed(s: State, stale: bool)
    requires WellFormed(s) && s.w.pc.WDrop?
    ensures WellFormed(CountDrop(s, stale)) && CountDrop(s, stale).p == s.p
  {
    hide AddCumulative;
  }

  lemma CountDropKeeps(s: State, stale: bool)
    requires Inv(s) && s.w.pc.WDrop?
    ensures Inv(CountDrop(s, stale))
  {
    var t := CountDrop(s, stale);
    FlatPrefix(s.p.log.chunks, s.w.consumed);
    CountDropWellFormed(s, stale);
    assert s.w.consumed < |s.p.log.chunks|;
    hide Flow, Flat, Handled, Slot, PushSound, Intact, WellFormed, PointSound;
  }

  lemma CountDroppedKeeps(s: State)
    requires Inv(s) && s.w.pc.WDropCounted?
    ensures Inv(CountDropped(s))
  {
    hide Flow, Flat, Handled, Slot, PushSound, Intact;
  }

  lemma FinishKeeps(s: State)
    requires Inv(s) && s.w.pc.WFinish?
    ensures Inv(s.(w := Finish(s.w, s.n.cumulative)))
  {
    hide Flow, Flat, Handled, Slot, PushSound, Intact;
  }

  lemma StoreKeeps(s: State)
    requires Inv(s) && s.w.pc.WStore?
    ensures Inv(s.(w := s.w.(consumed := s.w.consumed + 1, pc := WIdle)))
  {
    hide Flow, Flat, Handled, Slot, PushSound;
  }

  lemma WorkerKeeps(s: State, request: nat, accepted: bool, stale: bool)
    requires Inv(s)
    ensures Inv(WorkerStep(s, request, accepted, stale)) && WorkerStep(s, request, accepted, stale).p == s.p
  {
    assert WellFormed(s);
    hide Inv, BoundaryStep, Consume, Finish, WellFormed, AddDropped, AddCumulative, PointSound;
    if !HoldsSlot(s.w.pc) { BoundaryKeeps(s, request); }
    else if s.w.pc.WReading? { ConsumeKeeps(s, accepted); }
    else if s.w.pc.WFinish? { FinishKeeps(s); }
    else if s.w.pc.WStore? { StoreKeeps(s); }
    else if s.w.pc.WDrop? { CountDropKeeps(s, stale); }
    else { CountDroppedKeeps(s); }
  }

  // ---- calibration captures ----

  /** Since the worker read generation `g`, a push has ended. */
  predicate PushEnded(p: ProducerSide, g: nat) { p.generationExhausted || p.generation > g }

  /** The boundary lies at a push end, and names the stream position behind it. */
  ghost predicate BoundarySound(l: Log, workerGap: nat, b: Boundary) {
    && b.first <= |l.chunks| == |l.gapAt|
    && b.mark == |Flat(l.chunks[..b.first])| + b.gapMark
    && b.droppedAt == b.gapMark + b.workerMark
    && b.gapMark <= l.gap && b.workerMark <= workerGap && b.mark in l.pushEnds
    && forall i :: b.first <= i < |l.gapAt| ==> l.gapAt[i] >= b.gapMark
  }

  /** The boundary read so far describes a producer at rest. */
  predicate AtRest(p: ProducerSide, workerGap: nat, b: Boundary) {
    p.at.Idle? && b.first == |p.log.chunks| && b.mark == |p.log.stream| && b.gapMark == p.log.gap
    && b.workerMark == workerGap
  }

  /** A boundary read with the queue empty: whatever was pushed since, the next
      chunk follows it directly. */
  ghost predicate Fresh(p: ProducerSide, consumed: nat, b: Boundary) {
    consumed == b.first ==>
      && b.first <= |p.log.chunks| == |p.log.gapAt| && b.mark in p.log.pushEnds
      && b.mark == |Flat(p.log.chunks[..b.first])| + b.gapMark
      && if b.first == |p.log.chunks| then p.log.gap == b.gapMark && !p.at.Full? else p.log.gapAt[b.first] == b.gapMark
  }

  ghost predicate ReadingSound(p: ProducerSide, w: WorkerSide) {
    match w.pc
    case WAdmitted(g) => g <= p.generation
    case WPublished(g) =>
      && g <= p.generation && (PushEnded(p, g) || !p.at.Bumped?)
      && (|p.log.chunks| == w.consumed ==> |p.log.stream| in p.log.pushEnds && !p.at.Full?)
    case WDropped(g, b) =>
      && g <= p.generation && w.consumed <= b.first && Fresh(p, w.consumed, b)
      && (PushEnded(p, g) || if p.at.Idle? then AtRest(p, w.gap, b) else !p.at.Bumped?)
    case WStillAdmitted(g, b) =>
      && g <= p.generation && w.consumed <= b.first && Fresh(p, w.consumed, b)
      && (PushEnded(p, g)
          || if p.at.Idle? then AtRest(p, w.gap, b) && b.droppedAt == b.gapMark + b.workerMark else !p.at.Bumped?)
    case WSameGeneration(g, b) =>
      && g <= p.generation && w.consumed <= b.first && Fresh(p, w.consumed, b)
      && (PushEnded(p, g) || BoundarySound(p.log, w.gap, b))
    case WAccept(b) =>
      && w.consumed <= b.first && Fresh(p, w.consumed, b)
      && (p.generationExhausted || BoundarySound(p.log, w.gap, b))
    case _ => true
  }

  /** Of the settled chunks, what a capture starting at chunk `first` holds. */
  function Copied(chunks: seq<seq<Frame>>, first: nat, settled: nat, wanted: nat): seq<Frame>
    requires settled <= |chunks|
  {
    if settled <= first then [] else Take(Flat(chunks[first..settled]), wanted)
  }

  /** Until the worker drops a chunk, the capture holds the next frames queued
      from its boundary. */
  ghost predicate Strong(p: ProducerSide, w: WorkerSide, c: Capture)
    requires Settled(w) <= |p.log.chunks|
  {
    && BoundarySound(p.log, w.gap, c.b)
    && (w.pc.WDropCounted? ==> c.b.workerMark < w.gap)
    && (w.gap == c.b.workerMark ==> c.copied == Copied(p.log.chunks, c.b.first, Settled(w), c.wanted))
  }

  /** A capture accepted after the generation counter ran out lives for one chunk
      only: the next look at the counter fails the worker. */
  ghost predicate Brief(p: ProducerSide, w: WorkerSide, c: Capture) {
    if w.pc.WTry? || w.pc.WReading? then
      c.copied == [] && w.consumed <= c.b.first && Fresh(p, w.consumed, c.b)
    else if w.pc.WFinish? then
      && w.consumed == c.b.first < |p.log.chunks| && Fresh(p, w.consumed, c.b)
      && c.copied == Take(p.log.chunks[c.b.first], c.wanted)
    else w.pc.WDrop? || w.pc.WDropCounted? || w.pc.WStore? || w.pc.WIdle?
  }

  ghost predicate CaptureSound(p: ProducerSide, w: WorkerSide)
    requires w.capture.Some? && Settled(w) <= |p.log.chunks|
  {
    var c := w.capture.value;
    && c.wanted > 0 && (w.pc.WFinish? ==> |c.copied| == c.wanted)
    && (w.pc.WDrop? || w.pc.WDropCounted? ==> !w.pc.faulted)
    && (Strong(p, w, c) || (p.generationExhausted && Brief(p, w, c)))
  }

  /** A lease without drops holds the stream's next frames after a push end. */
  ghost predicate LeaseSound(p: ProducerSide, lease: Lease) {
    lease.dropped == 0 ==>
      && lease.b.mark in p.log.pushEnds && |lease.frames| == lease.wanted
      && lease.b.mark + lease.wanted <= |p.log.stream|
      && p.log.stream[lease.b.mark..lease.b.mark + lease.wanted] == lease.frames
  }

  ghost predicate Calibrating(s: State)
    requires Inv(s)
  {
    && ReadingSound(s.p, s.w)
    && (s.w.capture.Some? ==> CaptureSound(s.p, s.w))
    && (s.w.lease.Some? ==> LeaseSound(s.p, s.w.lease.value))
  }

  // ---- a producer access keeps it ----

  lemma BoundaryStaysSound(l: Log, m: Log, workerGap: nat, b: Boundary)
    requires Extends(l, m) && |m.chunks| == |m.gapAt| && BoundarySound(l, workerGap, b)
    ensures BoundarySound(m, workerGap, b)
  {
    hide Flat;
    assert m.chunks[..b.first] == l.chunks[..b.first];
    forall i | b.first <= i < |m.gapAt| ensures m.gapAt[i] >= b.gapMark {
      if i < |l.gapAt| { assert m.gapAt[i] == l.gapAt[i]; }
    }
  }

  lemma FreshStays(p: ProducerSide, q: ProducerSide, consumed: nat, b: Boundary)
    requires Flow(q.log) && Onward(p, q, consumed) && Fresh(p, consumed, b)
    ensures Fresh(q, consumed, b)
  {
    hide Flat;
    if consumed == b.first {
      assert q.log.chunks[..b.first] == p.log.chunks[..b.first];
      if b.first < |p.log.chunks| { assert q.log.gapAt[b.first] == p.log.gapAt[b.first]; }
    }
  }

  lemma ReadingStaysSound(p: ProducerSide, q: ProducerSide, w: WorkerSide)
    requires Flow(q.log) && Onward(p, q, w.consumed) && ReadingSound(p, w) && w.consumed <= |p.log.chunks|
    ensures ReadingSound(q, w)
  {
    if HasBoundary(w.pc) { FreshStays(p, q, w.consumed, w.pc.b); }
    if (w.pc.WSameGeneration? || w.pc.WAccept?) && BoundarySound(p.log, w.gap, w.pc.b) {
      BoundaryStaysSound(p.log, q.log, w.gap, w.pc.b);
    }
    hide Flow, BoundarySound, Fresh;
  }

  lemma CopiedStays(a: seq<seq<Frame>>, b: seq<seq<Frame>>, first: nat, settled: nat, wanted: nat)
    requires a <= b && settled <= |a|
    ensures Copied(b, first, settled, wanted) == Copied(a, first, settled, wanted)
  {
    if first < settled { assert b[first..settled] == a[first..settled]; }
  }

  lemma CaptureStaysSound(p: ProducerSide, q: ProducerSide, w: WorkerSide)
    requires Flow(q.log) && Onward(p, q, w.consumed)
    requires w.capture.Some? && Settled(w) <= |p.log.chunks| && CaptureSound(p, w)
    ensures Settled(w) <= |q.log.chunks| && CaptureSound(q, w)
  {
    var c := w.capture.value;
    CopiedStays(p.log.chunks, q.log.chunks, c.b.first, Settled(w), c.wanted);
    if BoundarySound(p.log, w.gap, c.b) { BoundaryStaysSound(p.log, q.log, w.gap, c.b); }
    if Fresh(p, w.consumed, c.b) { FreshStays(p, q, w.consumed, c.b); }
    hide Flow, BoundarySound, Copied, Fresh, Take, RefusesNothing;
  }

  lemma LeaseStaysSound(l: Log, p: ProducerSide, q: ProducerSide, lease: Lease)
    requires l == p.log && Extends(l, q.log) && LeaseSound(p, lease)
    ensures LeaseSound(q, lease)
  {
    if lease.dropped == 0 {
      var a, b := lease.b.mark, lease.b.mark + lease.wanted;
      assert q.log.stream[a..b] == l.stream[a..b];
    }
  }

  lemma ProducerKeepsCalibrating(s: State, t: State)
    requires Inv(s) && Calibrating(s) && Moved(s, t)
    ensures Calibrating(t)
  {
    assert Flow(t.p.log) && Onward(s.p, t.p, s.w.consumed);
    assert Extends(s.p.log, t.p.log);
    assert Settled(s.w) <= |s.p.log.chunks|;
    hide Inv, Flow, Onward, ReadingSound, CaptureSound, LeaseSound, Extends;
    ReadingStaysSound(s.p, t.p, s.w);
    if s.w.capture.Some? { CaptureStaysSound(s.p, t.p, s.w); }
    if s.w.lease.Some? { LeaseStaysSound(s.p.log, s.p, t.p, s.w.lease.value); }
  }

  // ---- a worker access keeps it ----

  /** Two looks at the producer that found it at rest, with the same generation
      around them, saw the same rest: the boundary is a push end. */
  lemma RestIsBoundary(s: State, b: Boundary)
    requires Inv(s) && AtRest(s.p, s.w.gap, b) && b.droppedAt == b.gapMark + b.workerMark
    ensures BoundarySound(s.p.log, s.w.gap, b)
  {
    hide Flat;
    assert s.p.log.chunks[..b.first] == s.p.log.chunks;
  }

  lemma FreshIgnoresCount(p: ProducerSide, consumed: nat, b: Boundary, n: nat)
    ensures Fresh(p, consumed, b.(droppedAt := n)) == Fresh(p, consumed, b)
  {
    hide Flat;
  }

  lemma BoundaryReadFresh(s: State, g: nat)
    requires Inv(s) && Calibrating(s) && s.w.pc == WPublished(g)
    ensures Fresh(s.p, s.w.consumed, Boundary(s.p.published, 0, |s.p.log.stream|, s.p.log.gap, s.w.gap))
  {
    hide Flat, Tallied, PushSound, Intact;
    assert s.p.log.chunks[..s.p.published] == s.p.log.chunks;
  }

  lemma BoundaryStepReads(s: State, request: nat)
    requires Inv(s) && Calibrating(s) && !HoldsSlot(s.w.pc)
    ensures ReadingSound(s.p, BoundaryStep(s.w, s.p, s.n.cumulative, request))
  {
    if s.w.pc.WStillAdmitted? && AtRest(s.p, s.w.gap, s.w.pc.b)
       && s.w.pc.b.droppedAt == s.w.pc.b.gapMark + s.w.pc.b.workerMark {
      RestIsBoundary(s, s.w.pc.b);
    }
    if s.w.pc.WPublished? { BoundaryReadFresh(s, s.w.pc.generation); }
    assert s.p.admitted <==> !s.p.at.Idle?;
    assert s.p.at.Idle? ==> |s.p.log.stream| in s.p.log.pushEnds;
    assert s.n.cumulative == s.p.log.gap + s.w.gap;
    assert s.w.consumed <= s.p.published == |s.p.log.chunks|;
    if s.w.pc.WDropped? { FreshIgnoresCount(s.p, s.w.consumed, s.w.pc.b, s.n.cumulative); }
    hide Inv, BoundarySound, CaptureSound, LeaseSound, Flat, Fresh;
  }

  lemma BoundaryStepCaptures(s: State, request: nat)
    requires Inv(s) && Calibrating(s) && !HoldsSlot(s.w.pc)
    ensures var w := BoundaryStep(s.w, s.p, s.n.cumulative, request);
      && Settled(w) <= |s.p.log.chunks|
      && (w.capture.Some? ==> CaptureSound(s.p, w))
      && (w.lease.Some? ==> LeaseSound(s.p, w.lease.value))
  {
    assert s.w.consumed <= s.p.published == |s.p.log.chunks|;
    assert ReadingSound(s.p, s.w) && (s.w.capture.Some? ==> CaptureSound(s.p, s.w));
    assert s.w.lease.Some? ==> LeaseSound(s.p, s.w.lease.value);
    hide Inv, BoundarySound, LeaseSound, Flat, Fresh, Calibrating, Take;
    BoundaryCapture(s.p, s.w, s.n.cumulative, request);
  }

  lemma BoundaryCapture(p: ProducerSide, w: WorkerSide, cumulative: nat, request: nat)
    requires !HoldsSlot(w.pc) && w.consumed <= |p.log.chunks|
    requires ReadingSound(p, w) && (w.capture.Some? ==> CaptureSound(p, w))
    ensures var next := BoundaryStep(w, p, cumulative, request);
      && Settled(next) == w.consumed && (next.lease.Some? ==> next.lease == w.lease)
      && (next.capture.Some? ==> CaptureSound(p, next))
  {
    hide BoundarySound, Flat, Fresh, Take;
  }

  lemma BoundaryStepCalibrates(s: State, request: nat)
    requires Inv(s) && Calibrating(s) && !HoldsSlot(s.w.pc)
    ensures var t := s.(w := BoundaryStep(s.w, s.p, s.n.cumulative, request)); Inv(t) && Calibrating(t)
  {
    BoundaryKeeps(s, request);
    BoundaryStepReads(s, request);
    BoundaryStepCaptures(s, request);
    hide Inv, BoundaryStep, ReadingSound, CaptureSound, LeaseSound;
  }

  lemma CopiedNext(chunks: seq<seq<Frame>>, first: nat, settled: nat, wanted: nat)
    requires first <= settled < |chunks|
    ensures Copied(chunks, first, settled + 1, wanted)
            == Take(Copied(chunks, first, settled, wanted) + chunks[settled], wanted)
  {
    assert chunks[first..settled + 1] == chunks[first..settled] + [chunks[settled]];
    FlatAppend(chunks[first..settled], chunks[settled]);
    hide Flat;
    assert settled == first ==> chunks[first..settled] == [];
    assert Flat([]) == [] by { FlatNone(); }
  }

  lemma FlatNone()
    ensures Flat([]) == []
  {
  }

  lemma ConsumeCaptures(p: ProducerSide, w: WorkerSide, accepted: bool)
    requires w.pc.WReading? && w.consumed < |p.log.chunks| && (w.capture.Some? ==> CaptureSound(p, w))
    ensures var next := Consume(w, p.log.chunks[w.consumed], accepted);
      && HoldsSlot(next.pc) && next.lease == w.lease
      && (next.capture.Some? ==> CaptureSound(p, next))
  {
    if w.capture.Some? && w.consumed >= w.capture.value.b.first {
      CopiedNext(p.log.chunks, w.capture.value.b.first, w.consumed, w.capture.value.wanted);
      assert [] + p.log.chunks[w.consumed] == p.log.chunks[w.consumed];
    }
    hide BoundarySound, Flat, Take, Fresh;
  }

  lemma ConsumeCalibrates(s: State, accepted: bool)
    requires Inv(s) && Calibrating(s) && s.w.pc.WReading?
    ensures var t := s.(w := Consume(s.w, s.p.log.chunks[s.w.consumed], accepted)); Inv(t) && Calibrating(t)
  {
    assert s.w.consumed < |s.p.log.chunks|;
    hide Inv, Consume, CaptureSound, LeaseSound;
    ConsumeKeeps(s, accepted);
    ConsumeCaptures(s.p, s.w, accepted);
  }

  lemma PrefixFits(l: Log, k: nat)
    requires Flow(l) && k <= |l.chunks|
    ensures |Flat(l.chunks[..k])| + l.gap <= |l.stream|
  {
    FlatTwo(l.chunks[..k], l.chunks[k..]);
    assert l.chunks[..k] + l.chunks[k..] == l.chunks;
  }

  /** With nothing refused since the boundary, the queued frames stand in the
      stream without a break. */
  lemma {:induction false} Contiguous(l: Log, b: Boundary, settled: nat)
    requires Flow(l) && BoundarySound(l, b.workerMark, b) && l.gap == b.gapMark
    requires b.first <= settled <= |l.chunks|
    ensures var f := Flat(l.chunks[b.first..settled]);
            && b.mark + |f| <= |l.stream| && l.stream[b.mark..b.mark + |f|] == f
            && b.mark + |f| == |Flat(l.chunks[..settled])| + l.gap
  {
    FlatNone();
    hide Flat;
    if settled == b.first {
      assert l.chunks[b.first..settled] == [];
      PrefixFits(l, settled);
    } else {
      var last := settled - 1;
      Contiguous(l, b, last);
      assert Placed(l, last) && l.gapAt[last] == l.gap;
      assert l.chunks[b.first..settled] == l.chunks[b.first..last] + [l.chunks[last]];
      FlatAppend(l.chunks[b.first..last], l.chunks[last]);
      FlatPrefix(l.chunks, last);
      var f, at := Flat(l.chunks[b.first..last]), |Flat(l.chunks[..last])| + l.gap;
      hide Flow, BoundarySound;
      assert l.stream[b.mark..at + |l.chunks[last]|] == l.stream[b.mark..at] + l.stream[at..at + |l.chunks[last]|];
    }
  }

  lemma FinishCalibrates(s: State)
    requires Inv(s) && Calibrating(s) && s.w.pc.WFinish?
    ensures var t := s.(w := Finish(s.w, s.n.cumulative)); Inv(t) && Calibrating(t)
  {
    FinishKeeps(s);
    if s.w.capture.Some? {
      if Strong(s.p, s.w, s.w.capture.value) { FinishedLeaseSound(s); } else { BriefLeaseSound(s); }
    }
    hide Inv, BoundarySound, LeaseSound, Flat, Take, Fresh;
  }

  lemma FinishedLeaseSound(s: State)
    requires Inv(s) && Calibrating(s) && s.w.pc.WFinish? && s.w.capture.Some? && Strong(s.p, s.w, s.w.capture.value)
    ensures LeaseSound(s.p, Finish(s.w, s.n.cumulative).lease.value)
  {
    var c := s.w.capture.value;
    assert s.n.cumulative == s.p.log.gap + s.w.gap;
    if SatSub(s.n.cumulative, c.b.droppedAt) == 0 && c.b.first < Settled(s.w) {
      Contiguous(s.p.log, c.b, Settled(s.w));
      var f := Flat(s.p.log.chunks[c.b.first..Settled(s.w)]);
      hide Inv, Flat;
      assert s.p.log.stream[c.b.mark..c.b.mark + c.wanted] == f[..c.wanted];
    }
  }

  lemma BriefLeaseSound(s: State)
    requires Inv(s) && Calibrating(s) && s.w.pc.WFinish? && s.w.capture.Some? && Brief(s.p, s.w, s.w.capture.value)
    ensures LeaseSound(s.p, Finish(s.w, s.n.cumulative).lease.value)
  {
    var c, l := s.w.capture.value, s.p.log;
    assert Placed(l, c.b.first);
    var chunk := l.chunks[c.b.first];
    hide Inv, Flat;
    assert l.stream[c.b.mark..c.b.mark + c.wanted] == l.stream[c.b.mark..c.b.mark + |chunk|][..c.wanted];
  }

  lemma CountDropCalibrates(s: State, stale: bool)
    requires Inv(s) && Calibrating(s) && s.w.pc.WDrop?
    ensures Inv(CountDrop(s, stale)) && Calibrating(CountDrop(s, stale))
  {
    CountDropKeeps(s, stale);
    assert s.w.pc.n > 0 by {
      assert Placed(s.p.log, s.w.consumed);
    }
    hide Inv, LeaseSound, Flat, Copied, AddCumulative, Fresh;
  }

  lemma CountDroppedCalibrates(s: State)
    requires Inv(s) && Calibrating(s) && s.w.pc.WDropCounted?
    ensures Inv(CountDropped(s)) && Calibrating(CountDropped(s))
  {
    CountDroppedKeeps(s);
    hide Inv, LeaseSound, Flat, Copied, BoundarySound, AddDropped, Fresh;
  }

  lemma StoreCalibrates(s: State)
    requires Inv(s) && Calibrating(s) && s.w.pc.WStore?
    ensures var t := s.(w := s.w.(consumed := s.w.consumed + 1, pc := WIdle)); Inv(t) && Calibrating(t)
  {
    StoreKeeps(s);
    hide Inv, BoundarySound, LeaseSound, Copied, Fresh;
  }

  lemma ConsumeReadsOldest(s: State)
    requires Inv(s) && s.w.pc.WReading?
    ensures s.p.slots[Slot(s.w.consumed, |s.p.slots|)] == s.p.log.chunks[s.w.consumed]
  {
    hide Flow, Flat, Handled, PushSound, Tallied, Slot;
  }

  lemma WorkerKeepsCalibrating(s: State, request: nat, accepted: bool, stale: bool)
    requires Inv(s) && Calibrating(s)
    ensures Inv(WorkerStep(s, request, accepted, stale)) && Calibrating(WorkerStep(s, request, accepted, stale))
  {
    assert WellFormed(s);
    if s.w.pc.WReading? { ConsumeReadsOldest(s); }
    hide Inv, BoundaryStep, Consume, Finish, CountDrop, CountDropped, WellFormed, Calibrating, Slot;
    if !HoldsSlot(s.w.pc) { BoundaryStepCalibrates(s, request); }
    else if s.w.pc.WReading? { ConsumeCalibrates(s, accepted); }
    else if s.w.pc.WFinish? { FinishCalibrates(s); }
    else if s.w.pc.WStore? { StoreCalibrates(s); }
    else if s.w.pc.WDrop? { CountDropCalibrates(s, stale); }
    else { CountDroppedCalibrates(s); }
  }

  lemma OutsideKeeps(s: State, l: Label)
    requires Inv(s) && Calibrating(s) && !l.Produce? && !l.Work?
    ensures Inv(Step(s, l)) && Calibrating(Step(s, l))
  {
    hide Flow, Flat, Handled, Slot, PushSound, Intact, BoundarySound, ProducerStep, WorkerStep, Fresh;
  }

  // ---- every run ----

  lemma StepKeeps(s: State, l: Label)
    requires Inv(s) && Calibrating(s)
    ensures Inv(Step(s, l)) && Calibrating(Step(s, l))
  {
    assert WellFormed(s);
    hide Inv, Calibrating, ProducerStep, WorkerStep;
    match l {
      case Produce(input, stale) =>
        ProducerKeeps(s, input, stale);
        ProducerKeepsCalibrating(s, ProducerStep(s, input, stale));
      case Work(request, accepted, stale) => WorkerKeepsCalibrating(s, request, accepted, stale);
      case _ => OutsideKeeps(s, l);
    }
  }

  /** The state after a sequence of accesses, in any interleaving.  Accesses are
      defined on well-formed states, and `RunKeeps` says that a run meets no
      other. */
  function Run(s: State, labels: seq<Label>): State
    decreases |labels|
  {
    if labels == [] || !WellFormed(s) then s else Run(Step(s, labels[0]), labels[1..])
  }

  lemma {:induction false} RunKeeps(s: State, labels: seq<Label>)
    requires Inv(s) && Calibrating(s)
    ensures Inv(Run(s, labels)) && Calibrating(Run(s, labels))
    decreases |labels|
  {
    if labels != [] {
      assert WellFormed(s);
      hide Inv, Calibrating, Step, WellFormed;
      StepKeeps(s, labels[0]);
      RunKeeps(Step(s, labels[0]), labels[1..]);
    }
  }

  lemma StartSound(capacity: nat, slotFrames: nat)
    requires capacity > 0 && slotFrames > 0
    ensures Inv(Start(capacity, slotFrames)) && Calibrating(Start(capacity, slotFrames))
  {
  }

  function Reached(capacity: nat, slotFrames: nat, labels: seq<Label>): State {
    Run(Start(capacity, slotFrames), labels)
  }

  lemma ReachedSound(capacity: nat, slotFrames: nat, labels: seq<Label>)
    requires capacity > 0 && slotFrames > 0
    ensures Inv(Reached(capacity, slotFrames, labels)) && Calibrating(Reached(capacity, slotFrames, labels))
  {
    hide Inv, Calibrating, Run;
    StartSound(capacity, slotFrames);
    RunKeeps(Start(capacity, slotFrames), labels);
  }

  lemma StepExtends(s: State, l: Label)
    requires Inv(s) && Calibrating(s)
    ensures Extends(s.p.log, Step(s, l).p.log)
  {
    assert WellFormed(s);
    hide Inv, Calibrating, ProducerStep, WorkerStep;
    match l {
      case Produce(input, stale) => ProducerKeeps(s, input, stale);
      case Work(request, accepted, stale) => WorkerKeeps(s, request, accepted, stale);
      case _ =>
    }
  }

  /** What is in the log is never taken back or reordered. */
  lemma {:induction false} LogGrows(s: State, labels: seq<Label>)
    requires Inv(s) && Calibrating(s)
    ensures s.p.log.chunks <= Run(s, labels).p.log.chunks && s.p.log.stream <= Run(s, labels).p.log.stream
    ensures s.p.log.gapAt <= Run(s, labels).p.log.gapAt
    decreases |labels|
  {
    if labels != [] {
      assert WellFormed(s);
      hide Inv, Calibrating, Step, WellFormed;
      StepKeeps(s, labels[0]);
      StepExtends(s, labels[0]);
      LogGrows(Step(s, labels[0]), labels[1..]);
    }
  }

  /** A queued slot keeps its chunk until the worker has read it, and the worker
      reads the chunks in the order in which they were queued. */
  lemma {:induction false} QueueIsFifo(capacity: nat, slotFrames: nat, labels: seq<Label>, i: nat)
    requires capacity > 0 && slotFrames > 0
    requires var s := Reached(capacity, slotFrames, labels); s.w.consumed <= i < s.p.published
    ensures var s := Reached(capacity, slotFrames, labels);
            s.p.slots != [] && i < |s.p.log.chunks| && s.p.slots[Slot(i, |s.p.slots|)] == s.p.log.chunks[i]
  {
    ReachedSound(capacity, slotFrames, labels);
    hide Reached, Flow, Flat, PushSound, Tallied, Slot;
  }

  /** A push answered with `PushOk(enqueued, dropped)` has appended exactly the
      first `enqueued` of its frames to the queue, and `dropped` is the rest. */
  lemma {:induction false} PushAppendsPrefix(s: State, input: seq<Frame>, labels: seq<Label>)
    requires Inv(s) && Calibrating(s) && s.p.at.Idle? && s.open
    requires var t := Run(Step(s, Produce(input, false)), labels);
             && t.p.at.Return? && t.p.at.result.PushOk?
             && t.p.job == Job(input, |s.p.log.stream|, |Flat(s.p.log.chunks)|)
    ensures var t := Run(Step(s, Produce(input, false)), labels);
            var r := t.p.at.result;
            && r.enqueued + r.dropped == |input|
            && Flat(t.p.log.chunks) == Flat(s.p.log.chunks) + input[..r.enqueued]
            && t.p.log.stream == s.p.log.stream + input
  {
    var u := Step(s, Produce(input, false));
    StepKeeps(s, Produce(input, false));
    var t := Run(u, labels);
    RunKeeps(u, labels);
    LogGrows(u, labels);
    assert s.p.log == u.p.log;
    assert Answered(t.p.log, t.p.job, t.p.at.result);
    var a, b := s.p.log.chunks, t.p.log.chunks;
    assert b == a + b[|a|..];
    FlatTwo(a, b[|a|..]);
    var r := t.p.at.result;
    assert Flat(b)[|Flat(a)|..] == input[..r.enqueued] && t.p.log.stream[|s.p.log.stream|..] == input[..|input|];
    hide Inv, Calibrating, Flat, Step, Run;
    PrefixAnd(Flat(a), Flat(b), input[..r.enqueued]);
    PrefixAnd(s.p.log.stream, t.p.log.stream, input);
  }

  lemma PrefixAnd(a: seq<Frame>, b: seq<Frame>, rest: seq<Frame>)
    requires a <= b && b[|a|..] == rest
    ensures b == a + rest
  {
    assert b == b[..|a|] + b[|a|..];
  }

  /** With both threads at rest, the queue drained and no counter exhausted,
      every frame of an answered push is in exactly one count. */
  lemma {:induction false} EveryFrameCounted(capacity: nat, slotFrames: nat, labels: seq<Label>)
    requires capacity > 0 && slotFrames > 0
    requires var s := Reached(capacity, slotFrames, labels);
             s.p.at.Idle? && s.w.pc.WIdle? && s.w.consumed == s.p.published && !s.n.failed
    ensures var s := Reached(capacity, slotFrames, labels);
            && s.p.okPushed == s.w.written + s.w.dropped + s.n.dropped
            && s.p.enqueued == |Flat(s.p.log.chunks)|
            && s.n.cumulative == s.w.dropped + s.n.dropped
  {
    var s := Reached(capacity, slotFrames, labels);
    ReachedSound(capacity, slotFrames, labels);
    hide Reached, Flat, PushSound, Intact;
    assert s.p.log.chunks[..s.w.consumed] == s.p.log.chunks;
  }

  // ---- what a push drops ----

  /** A push turns to dropping exactly when all slots hold unread chunks. */
  lemma FullWhenNoSlot(s: State)
    requires WellFormed(s) && s.p.at.Loop? && s.p.at.done < |s.p.job.frames|
    ensures CheckRoom(s).p.at.Full? <==> s.p.published - s.w.consumed == |s.p.slots|
  {
  }

  predicate Refusing(s: State, job: Job, done: nat) {
    s.p.job == job
    && (s.p.at == Full(done) || s.p.at == FullCounted(done)
        || (s.p.at.Return? && s.p.at.result.PushOk? && s.p.at.result.enqueued == done && s.p.at.result.dropped > 0))
  }

  /** Some state of the run has all slots unread while the push has queued `done`
      frames. */
  predicate FullOnTheWay(s: State, labels: seq<Label>, job: Job, done: nat)
    decreases |labels|
  {
    || (s.p.job == job && s.p.at == Loop(done) && s.p.published - s.w.consumed == |s.p.slots|)
    || (labels != [] && WellFormed(s) && FullOnTheWay(Step(s, labels[0]), labels[1..], job, done))
  }

  lemma RefusingProduce(s: State, input: seq<Frame>, stale: bool, job: Job, done: nat)
    requires WellFormed(s) && Refusing(ProducerStep(s, input, stale), job, done)
    ensures Refusing(s, job, done)
            || (s.p.job == job && s.p.at == Loop(done) && s.p.published - s.w.consumed == |s.p.slots|)
  {
    hide Flat, Slot, Chunk, Queue, Miss;
  }

  lemma RefusingStep(s: State, l: Label, job: Job, done: nat)
    requires Inv(s) && Refusing(Step(s, l), job, done)
    ensures Refusing(s, job, done)
            || (s.p.job == job && s.p.at == Loop(done) && s.p.published - s.w.consumed == |s.p.slots|)
  {
    assert WellFormed(s);
    hide Inv, WorkerStep, ProducerStep, WellFormed;
    if l.Produce? { RefusingProduce(s, l.input, l.stale, job, done); }
    if l.Work? { WorkerKeeps(s, l.request, l.accepted, l.stale); }
  }

  /** A push drops frames only because, at some state of its run, no slot was free:
      the frames it answers as dropped are the ones from there on. */
  lemma {:induction false} DropsNeedFullQueue(s: State, labels: seq<Label>, job: Job, done: nat)
    requires Inv(s) && Calibrating(s) && !Refusing(s, job, done)
    requires var t := Run(s, labels);
             t.p.job == job && t.p.at.Return? && t.p.at.result.PushOk?
             && t.p.at.result.enqueued == done && t.p.at.result.dropped > 0
    ensures FullOnTheWay(s, labels, job, done)
    decreases |labels|
  {
    assert WellFormed(s);
    if labels != [] {
      hide Inv, Calibrating, Step, WellFormed, Refusing;
      StepKeeps(s, labels[0]);
      if Refusing(Step(s, labels[0]), job, done) {
        RefusingStep(s, labels[0], job, done);
      } else {
        DropsNeedFullQueue(Step(s, labels[0]), labels[1..], job, done);
      }
    }
  }

  // ---- a push with room enough ----

  /** The slots that `n` more frames take. */
  function SlotsFor(n: nat, slotFrames: nat): nat
    requires slotFrames > 0
  {
    DivCeil(n, slotFrames)
  }

  lemma SlotsForChunk(n: nat, slotFrames: nat)
    requires slotFrames > 0 && n > 0
    ensures SlotsFor(n - Min(n, slotFrames), slotFrames) == SlotsFor(n, slotFrames) - 1
    ensures SlotsFor(0, slotFrames) == 0
  {
    var k := SlotsFor(n, slotFrames);
    DivParts(n + slotFrames - 1, slotFrames);
    hide Times;
    TimesStep(k, slotFrames);
    if n > slotFrames {
      if k > 0 { TimesStep(k - 1, slotFrames); }
      DivUnique(n - slotFrames + slotFrames - 1, k - 1, n + slotFrames - 1 - Times(k, slotFrames), slotFrames);
    } else {
      TimesZero(0, slotFrames);
      DivUnique(n + slotFrames - 1, 1, n - 1, slotFrames);
      DivUnique(slotFrames - 1, 0, slotFrames - 1, slotFrames);
    }
  }
  function FreeSlots(s: State): int { |s.p.slots| - (s.p.published - s.w.consumed) }

  /** What is left of the push fits the free slots. */
  predicate RoomLeft(s: State)
    requires s.slotFrames > 0
  {
    var total := |s.p.job.frames|;
    match s.p.at
    case Idle => true
    case Entered => SlotsFor(total, s.slotFrames) <= FreeSlots(s)
    case Loop(done) => done <= total && SlotsFor(total - done, s.slotFrames) <= FreeSlots(s)
    case Full(_) => false
    case FullCounted(_) => false
    case Room(done, _) => done <= total && SlotsFor(total - done, s.slotFrames) <= FreeSlots(s)
    case Counted(done, _) => done <= total && SlotsFor(total - done, s.slotFrames) <= FreeSlots(s)
    case Written(done, _) => done <= total && SlotsFor(total - done, s.slotFrames) <= FreeSlots(s)
    case Return(result) => result.PushErr? || result == PushOk(total, 0)
    case Bumped(result) => result.PushErr? || result == PushOk(total, 0)
  }

  /** The push `job` has room, or is over. */
  predicate Smooth(s: State, job: Job)
    requires s.slotFrames > 0
  {
    !s.n.failed ==>
      if s.p.job == job && !s.p.at.Idle? then RoomLeft(s) else job.from + |job.frames| <= |s.p.log.stream|
  }

  lemma PublishLeavesRoom(s: State)
    requires Inv(s) && s.p.at.Written? && RoomLeft(s)
    ensures Publish(s).slotFrames > 0 && RoomLeft(Publish(s))
  {
    SlotsForChunk(|s.p.job.frames| - s.p.at.done, s.slotFrames);
    hide Flow, Flat, Tallied, PushSound, Intact, SlotsFor;
  }

  lemma CheckRoomLeavesRoom(s: State)
    requires Inv(s) && s.p.at.Loop? && RoomLeft(s)
    ensures CheckRoom(s).slotFrames > 0 && (CheckRoom(s).n.failed || RoomLeft(CheckRoom(s)))
  {
    var left := |s.p.job.frames| - s.p.at.done;
    if left > 0 { SlotsForChunk(left, s.slotFrames); }
    hide Flow, Flat, Tallied, PushSound, Intact, SlotsFor;
  }

  /** A push that ended accounted for all its frames in the stream. */
  lemma EndedPushInStream(s: State)
    requires Inv(s) && s.p.at.Bumped? && !s.n.failed
    ensures s.p.job.from + |s.p.job.frames| <= |s.p.log.stream|
  {
    assert s.p.at.result.PushOk?;
    assert Answered(s.p.log, s.p.job, s.p.at.result);
    hide Flow, Flat, Intact;
  }

  /** The accesses between two looks at the queue. */
  lemma BetweenLeavesRoom(s: State, input: seq<Frame>, stale: bool)
    requires WellFormed(s) && (s.p.at.Entered? || s.p.at.Room? || s.p.at.Counted? || s.p.at.Return?) && RoomLeft(s)
    ensures var t := ProducerStep(s, input, stale); t.slotFrames > 0 && (t.n.failed || RoomLeft(t))
  {
    hide SlotsFor, Slot, Chunk;
  }

  /** Inside a push the job stays, and no failure is forgotten. */
  lemma JobStays(s: State, input: seq<Frame>, stale: bool)
    requires WellFormed(s) && !s.p.at.Idle? && !s.p.at.Bumped?
    ensures var t := ProducerStep(s, input, stale);
            t.slotFrames == s.slotFrames && t.p.job == s.p.job && !t.p.at.Idle? && (s.n.failed ==> t.n.failed)
  {
    hide Slot, Chunk, Queue, Miss, Flat;
  }

  /** Inside a push the room left stays enough. */
  lemma RoomStep(s: State, input: seq<Frame>, stale: bool)
    requires Inv(s) && !s.p.at.Idle? && !s.p.at.Bumped?
    ensures var t := ProducerStep(s, input, stale);
            && t.slotFrames == s.slotFrames > 0 && t.p.job == s.p.job && !t.p.at.Idle? && (s.n.failed ==> t.n.failed)
            && (RoomLeft(s) && !t.n.failed ==> RoomLeft(t))
  {
    assert WellFormed(s) && s.slotFrames > 0;
    JobStays(s, input, stale);
    if RoomLeft(s) {
      if s.p.at.Written? {
        PublishLeavesRoom(s);
      } else if s.p.at.Loop? {
        CheckRoomLeavesRoom(s);
      } else {
        assert !s.p.at.Full? && !s.p.at.FullCounted?;
        BetweenLeavesRoom(s, input, stale);
      }
    }
    hide Inv, WellFormed, RoomLeft, Publish, CheckRoom;
  }

  lemma BeginSmooth(s: State, input: seq<Frame>, job: Job)
    requires Inv(s) && s.p.at.Idle? && Smooth(s, job)
    ensures Smooth(Begin(s, input), job)
  {
    SlotsForNone(s.slotFrames);
    hide Flow, Flat, Tallied, PushSound, Intact, SlotsFor;
  }

  lemma EndPushSmooth(s: State, job: Job)
    requires Inv(s) && s.p.at.Bumped? && Smooth(s, job)
    ensures Smooth(EndPush(s), job)
  {
    if !s.n.failed { EndedPushInStream(s); }
    hide Flow, Flat, Tallied, PushSound, Intact, SlotsFor;
  }

  lemma ProducerKeepsSmooth(s: State, input: seq<Frame>, stale: bool, job: Job)
    requires Inv(s) && s.slotFrames > 0 && Smooth(s, job)
    ensures var t := ProducerStep(s, input, stale); t.slotFrames > 0 && Smooth(t, job)
  {
    assert WellFormed(s);
    if s.p.at.Idle? {
      BeginSmooth(s, input, job);
      hide Inv, Smooth, WellFormed;
    } else if s.p.at.Bumped? {
      EndPushSmooth(s, job);
      hide Inv, Smooth, WellFormed;
    } else {
      hide Inv, Moved, WellFormed, RoomLeft, ProducerStep;
      RoomStep(s, input, stale);
      StreamGrows(s, input, stale);
    }
  }

  lemma StreamGrows(s: State, input: seq<Frame>, stale: bool)
    requires Inv(s)
    ensures |s.p.log.stream| <= |ProducerStep(s, input, stale).p.log.stream|
  {
    assert WellFormed(s);
    hide Inv, ProducerStep, WellFormed;
    ProducerKeeps(s, input, stale);
  }

  lemma WorkerKeepsSmooth(s: State, request: nat, accepted: bool, stale: bool, job: Job)
    requires Inv(s) && s.slotFrames > 0 && Smooth(s, job)
    ensures var t := WorkerStep(s, request, accepted, stale); t.slotFrames > 0 && Smooth(t, job)
  {
    assert WellFormed(s);
    WorkerKeeps(s, request, accepted, stale);
    WorkerFrees(s, request, accepted, stale);
    hide Inv, WellFormed, WorkerStep, SlotsFor;
  }

  lemma WorkerFrees(s: State, request: nat, accepted: bool, stale: bool)
    requires WellFormed(s)
    ensures var t := WorkerStep(s, request, accepted, stale);
            t.slotFrames == s.slotFrames && s.w.consumed <= t.w.consumed && (s.n.failed ==> t.n.failed)
  {
    hide Slot, Take;
  }

  lemma StepSmooth(s: State, l: Label, job: Job)
    requires Inv(s) && Calibrating(s) && s.slotFrames > 0 && Smooth(s, job)
    ensures Step(s, l).slotFrames > 0 && Smooth(Step(s, l), job)
  {
    assert WellFormed(s);
    match l {
      case Produce(input, stale) => ProducerKeepsSmooth(s, input, stale, job);
      case Work(request, accepted, stale) => WorkerKeepsSmooth(s, request, accepted, stale, job);
      case _ => hide Inv, WellFormed, SlotsFor;
    }
  }

  lemma {:induction false} RunSmooth(s: State, labels: seq<Label>, job: Job)
    requires Inv(s) && Calibrating(s) && s.slotFrames > 0 && Smooth(s, job)
    ensures Run(s, labels).slotFrames > 0 && Smooth(Run(s, labels), job)
    decreases |labels|
  {
    if labels != [] {
      assert WellFormed(s);
      hide Inv, Calibrating, Step, WellFormed, Smooth;
      StepKeeps(s, labels[0]);
      StepSmooth(s, labels[0], job);
      RunSmooth(Step(s, labels[0]), labels[1..], job);
    }
  }

  /** A push that begins with as many free slots as its frames need, and meets no
      exhausted counter, drops nothing. */
  lemma {:induction false} RoomMeansNoDrop(s: State, input: seq<Frame>, labels: seq<Label>)
    requires Inv(s) && Calibrating(s) && s.p.at.Idle? && s.open && s.slotFrames > 0
    requires SlotsFor(|input|, s.slotFrames) <= FreeSlots(s)
    requires var t := Run(Step(s, Produce(input, false)), labels);
             t.p.at.Return? && !t.n.failed && t.p.job == Job(input, |s.p.log.stream|, |Flat(s.p.log.chunks)|)
    ensures Run(Step(s, Produce(input, false)), labels).p.at.result == PushOk(|input|, 0)
  {
    assert WellFormed(s);
    var u := Step(s, Produce(input, false));
    var job := Job(input, |s.p.log.stream|, |Flat(s.p.log.chunks)|);
    StepKeeps(s, Produce(input, false));
    assert u.slotFrames > 0 && Smooth(u, job);
    RunSmooth(u, labels, job);
    RunKeeps(u, labels);
    ErrorMeansFailed(Run(u, labels));
    hide Inv, Calibrating, Run, Step;
  }

  lemma ErrorMeansFailed(s: State)
    requires Inv(s) && s.p.at.Return?
    ensures s.p.at.result.PushErr? ==> s.n.failed
  {
  }

  lemma SlotsForNone(slotFrames: nat)
    requires slotFrames > 0
    ensures SlotsFor(0, slotFrames) == 0
  {
    SlotsForChunk(1, slotFrames);
  }
  // ---- what the worker drops ----

  /** The ring takes every chunk and nothing stops the worker. */
  predicate Accepting(l: Label) { !l.WorkerFaults? && (l.Work? ==> l.accepted) }

  predicate Gentle(s: State) {
    !s.n.failed && !s.p.generationExhausted ==>
      !s.w.fault && !s.w.pc.WDrop? && !s.w.pc.WDropCounted? && s.w.gap == 0 && s.w.dropped == 0
  }

  /** What the worker has written never overflows before the queue's own count. */
  lemma WrittenFits(s: State)
    requires Inv(s) && s.w.pc.WReading? && !s.n.failed && s.w.gap == 0
    ensures s.w.consumed < |s.p.log.chunks|
    ensures s.w.written + |s.p.log.chunks[s.w.consumed]| <= U64_MAX
  {
    var chunks, k := s.p.log.chunks, s.w.consumed;
    FlatPrefix(chunks, k);
    assert chunks == chunks[..k + 1] + chunks[k + 1..];
    FlatTwo(chunks[..k + 1], chunks[k + 1..]);
    hide Flat, Flow, PushSound, Intact;
  }

  lemma ConsumeGentle(s: State)
    requires Inv(s) && s.w.pc.WReading? && Gentle(s)
    ensures forall request, stale :: Gentle(WorkerStep(s, request, true, stale))
  {
    if !s.n.failed && !s.p.generationExhausted {
      WrittenFits(s);
      assert s.p.slots[Slot(s.w.consumed, |s.p.slots|)] == s.p.log.chunks[s.w.consumed];
    }
    hide Flat, Flow, PushSound, Intact, Tallied, Slot, Take;
  }

  lemma RestGentle(s: State, request: nat, stale: bool)
    requires WellFormed(s) && !s.w.pc.WReading? && Gentle(s)
    ensures Gentle(WorkerStep(s, request, true, stale))
  {
    hide Consume, Slot, Take, Flat;
  }

  lemma StepGentle(s: State, l: Label)
    requires Inv(s) && Calibrating(s) && Gentle(s) && Accepting(l)
    ensures Gentle(Step(s, l))
  {
    assert WellFormed(s);
    match l {
      case Produce(input, stale) =>
        hide Inv, WellFormed, ProducerStep;
        ProducerKeeps(s, input, stale);
        FailureStays(s, input, stale);
      case Work(request, accepted, stale) =>
        hide Inv, WellFormed, Calibrating, WorkerStep, Gentle;
        if s.w.pc.WReading? { ConsumeGentle(s); } else { RestGentle(s, request, stale); }
      case _ => hide Inv, WellFormed;
    }
  }

  lemma FailureStays(s: State, input: seq<Frame>, stale: bool)
    requires WellFormed(s)
    ensures s.n.failed ==> ProducerStep(s, input, stale).n.failed
  {
    hide Slot, Chunk, Queue, Miss, Flat;
  }

  lemma {:induction false} RunGentle(s: State, labels: seq<Label>)
    requires Inv(s) && Calibrating(s) && Gentle(s) && forall l :: l in labels ==> Accepting(l)
    ensures Gentle(Run(s, labels))
    decreases |labels|
  {
    if labels != [] {
      assert WellFormed(s) && labels[0] in labels;
      hide Inv, Calibrating, Step, WellFormed, Gentle;
      StepKeeps(s, labels[0]);
      StepGentle(s, labels[0]);
      RunGentle(Step(s, labels[0]), labels[1..]);
    }
  }

  /** When the ring takes every chunk and no counter runs out, the worker writes
      every queued frame and drops none. */
  lemma {:induction false} AcceptedIsWritten(capacity: nat, slotFrames: nat, labels: seq<Label>)
    requires capacity > 0 && slotFrames > 0 && forall l :: l in labels ==> Accepting(l)
    requires var s := Reached(capacity, slotFrames, labels); !s.n.failed && !s.p.generationExhausted
    ensures var s := Reached(capacity, slotFrames, labels);
            && s.w.dropped == 0 && Settled(s.w) <= |s.p.log.chunks|
            && s.w.written == |Flat(s.p.log.chunks[..Settled(s.w)])|
  {
    ReachedSound(capacity, slotFrames, labels);
    StartSound(capacity, slotFrames);
    assert Gentle(Start(capacity, slotFrames));
    RunGentle(Start(capacity, slotFrames), labels);
    hide Run, Start, Flat, Flow, PushSound, Intact;
  }

  // ---- a lease follows its request ----

  /** Every boundary the worker uses lies at or after stream position `from`. */
  predicate Since(w: WorkerSide, from: nat) {
    && (HasBoundary(w.pc) ==> w.pc.b.mark >= from)
    && (w.capture.Some? ==> w.capture.value.b.mark >= from)
    && (w.lease.Some? ==> w.lease.value.b.mark >= from)
  }

  lemma BoundaryStepSince(w: WorkerSide, p: ProducerSide, cumulative: nat, request: nat, from: nat)
    requires !HoldsSlot(w.pc) && Since(w, from) && from <= |p.log.stream|
    ensures Since(BoundaryStep(w, p, cumulative, request), from)
  {
  }

  lemma ConsumeSince(w: WorkerSide, chunk: seq<Frame>, accepted: bool, from: nat)
    requires w.pc.WReading? && Since(w, from)
    ensures Since(Consume(w, chunk, accepted), from)
  {
    hide Take;
  }

  lemma WorkerStepSince(s: State, request: nat, accepted: bool, stale: bool, from: nat)
    requires WellFormed(s) && Since(s.w, from) && from <= |s.p.log.stream|
    ensures Since(WorkerStep(s, request, accepted, stale).w, from)
  {
    assert s.p.slots != [] && s.w.consumed <= s.p.published;
    hide WellFormed, AddCumulative, AddDropped, BoundaryStep, Consume, Slot;
    if !HoldsSlot(s.w.pc) {
      BoundaryStepSince(s.w, s.p, s.n.cumulative, request, from);
    } else if s.w.pc.WReading? {
      ConsumeSince(s.w, s.p.slots[Slot(s.w.consumed, |s.p.slots|)], accepted, from);
    }
  }

  lemma StepSince(s: State, l: Label, from: nat)
    requires Inv(s) && Calibrating(s) && Since(s.w, from) && from <= |s.p.log.stream|
    ensures Since(Step(s, l).w, from) && from <= |Step(s, l).p.log.stream|
  {
    StepExtends(s, l);
    assert WellFormed(s);
    hide Inv, Calibrating, ProducerStep, WorkerStep, Since;
    match l {
      case Produce(input, stale) => ProducerKeeps(s, input, stale);
      case Work(request, accepted, stale) => WorkerStepSince(s, request, accepted, stale, from);
      case _ => OutsideSince(s, l, from);
    }
  }

  lemma OutsideSince(s: State, l: Label, from: nat)
    requires WellFormed(s) && Since(s.w, from) && !l.Produce? && !l.Work?
    ensures Since(Step(s, l).w, from)
  {
    hide WellFormed;
  }

  lemma {:induction false} RunSince(s: State, labels: seq<Label>, from: nat)
    requires Inv(s) && Calibrating(s) && Since(s.w, from) && from <= |s.p.log.stream|
    ensures Since(Run(s, labels).w, from)
    decreases |labels|
  {
    if labels != [] {
      assert WellFormed(s);
      hide Inv, Calibrating, Step, WellFormed, Since;
      StepKeeps(s, labels[0]);
      StepSince(s, labels[0], from);
      RunSince(Step(s, labels[0]), labels[1..], from);
    }
  }

  /** A calibration lease with no drops holds the next `wanted` frames pushed
      after a whole push, with nothing missing between them.  "Next" is meant
      from any earlier state `s` in which the worker holds no boundary: audio
      pushed before `s` is in no lease that a request made after `s` obtains.
      (A worker that has just read a boundary uses it for a request that turns
      up only then.) */
  lemma {:induction false} LeaseIsNextFrames(capacity: nat, slotFrames: nat, before: seq<Label>, after: seq<Label>)
    requires capacity > 0 && slotFrames > 0
    requires var s := Run(Reached(capacity, slotFrames, before), after);
             s.w.lease.Some? && s.w.lease.value.dropped == 0
    ensures var s := Reached(capacity, slotFrames, before);
            var t := Run(s, after);
            var lease := t.w.lease.value;
            && lease.b.mark in t.p.log.pushEnds
            && |lease.frames| == lease.wanted
            && lease.b.mark + lease.wanted <= |t.p.log.stream|
            && t.p.log.stream[lease.b.mark..lease.b.mark + lease.wanted] == lease.frames
            && (!HasBoundary(s.w.pc) && s.w.capture.None? && s.w.lease.None? ==> |s.p.log.stream| <= lease.b.mark)
  {
    var s := Reached(capacity, slotFrames, before);
    ReachedSound(capacity, slotFrames, before);
    if !HasBoundary(s.w.pc) && s.w.capture.None? && s.w.lease.None? {
      RunSince(s, after, |s.p.log.stream|);
    }
    hide Run, Inv, Flat, ReadingSound, CaptureSound, Reached;
    RunKeeps(s, after);
  }

  // ---- where a lease begins ----

  /** The boundary stands in the stream before its chunk and after every refused
      frame that precedes it. */
  ghost predicate BoundaryPlaced(l: Log, b: Boundary) {
    && b.first <= |l.chunks| == |l.gapAt| && b.gapMark <= l.gap
    && b.mark == |Flat(l.chunks[..b.first])| + b.gapMark
    && forall i :: b.first <= i < |l.gapAt| ==> l.gapAt[i] >= b.gapMark
  }

  /** A lease without drops obtained since the queue had refused `gap` frames: its
      boundary is no older than that. */
  ghost predicate LeasePlaced(p: ProducerSide, w: WorkerSide, gap: nat) {
    w.lease.Some? && w.lease.value.dropped == 0 && !p.generationExhausted ==>
      BoundaryPlaced(p.log, w.lease.value.b) && w.lease.value.b.gapMark >= gap
  }

  lemma PlacedStays(l: Log, m: Log, b: Boundary)
    requires Extends(l, m) && |m.chunks| == |m.gapAt| && BoundaryPlaced(l, b)
    ensures BoundaryPlaced(m, b)
  {
    hide Flat;
    assert m.chunks[..b.first] == l.chunks[..b.first];
    forall i | b.first <= i < |m.gapAt| ensures m.gapAt[i] >= b.gapMark {
      if i < |l.gapAt| { assert m.gapAt[i] == l.gapAt[i]; }
    }
  }

  lemma ProducerKeepsPlaced(s: State, t: State, gap: nat)
    requires Inv(s) && Moved(s, t) && LeasePlaced(s.p, s.w, gap)
    ensures LeasePlaced(t.p, t.w, gap)
  {
    assert Flow(t.p.log) && Onward(s.p, t.p, s.w.consumed);
    hide Inv, Flow, BoundaryPlaced, Extends, RefusesNothing;
    assert |t.p.log.chunks| == |t.p.log.gapAt| by { FlowLengths(t.p.log); }
    if s.w.lease.Some? && s.w.lease.value.dropped == 0 && !t.p.generationExhausted {
      PlacedStays(s.p.log, t.p.log, s.w.lease.value.b);
    }
  }

  lemma FlowLengths(l: Log)
    requires Flow(l)
    ensures |l.chunks| == |l.gapAt| && |l.stream| == |Flat(l.chunks)| + l.gap
  {
  }

  /** Finishing without drops means that nothing was refused since the boundary. */
  lemma FinishPlaced(s: State, gap: nat)
    requires Inv(s) && Calibrating(s) && s.w.pc.WFinish? && LeasePlaced(s.p, s.w, gap) && gap <= s.p.log.gap
    ensures LeasePlaced(s.p, Finish(s.w, s.n.cumulative), gap)
  {
    assert s.n.cumulative == s.p.log.gap + s.w.gap;
    assert s.w.capture.Some? && !s.p.generationExhausted ==> BoundarySound(s.p.log, s.w.gap, s.w.capture.value.b);
    hide Inv, Flat, Copied, Take, Fresh;
  }

  lemma WorkerKeepsPlaced(s: State, request: nat, accepted: bool, stale: bool, gap: nat)
    requires Inv(s) && Calibrating(s) && LeasePlaced(s.p, s.w, gap) && gap <= s.p.log.gap
    ensures LeasePlaced(s.p, WorkerStep(s, request, accepted, stale).w, gap)
  {
    assert WellFormed(s);
    if s.w.pc.WFinish? { FinishPlaced(s, gap); }
    hide Inv, Calibrating, WellFormed, BoundaryPlaced, Take, AddCumulative, AddDropped, Slot, PointSound;
  }

  lemma StepPlaced(s: State, l: Label, gap: nat)
    requires Inv(s) && Calibrating(s) && LeasePlaced(s.p, s.w, gap) && gap <= s.p.log.gap
    ensures LeasePlaced(Step(s, l).p, Step(s, l).w, gap) && gap <= Step(s, l).p.log.gap
  {
    StepExtends(s, l);
    assert WellFormed(s);
    hide Inv, Calibrating, ProducerStep, WorkerStep, BoundaryPlaced;
    match l {
      case Produce(input, stale) =>
        ProducerKeeps(s, input, stale);
        ProducerKeepsPlaced(s, ProducerStep(s, input, stale), gap);
      case Work(request, accepted, stale) =>
        WorkerKeeps(s, request, accepted, stale);
        WorkerKeepsPlaced(s, request, accepted, stale, gap);
      case _ =>
    }
  }

  lemma {:induction false} RunPlaced(s: State, labels: seq<Label>, gap: nat)
    requires Inv(s) && Calibrating(s) && LeasePlaced(s.p, s.w, gap) && gap <= s.p.log.gap
    ensures LeasePlaced(Run(s, labels).p, Run(s, labels).w, gap)
    decreases |labels|
  {
    if labels != [] {
      assert WellFormed(s);
      hide Inv, Calibrating, Step, WellFormed, LeasePlaced;
      StepKeeps(s, labels[0]);
      StepPlaced(s, labels[0], gap);
      RunPlaced(Step(s, labels[0]), labels[1..], gap);
    }
  }

  lemma BoundaryBefore(l: Log, m: Log, b: Boundary)
    requires Flow(l) && l.chunks <= m.chunks && l.gapAt <= m.gapAt && BoundaryPlaced(m, b) && l.gap <= b.gapMark
    ensures b.mark < |l.stream| <==> b.first < |l.chunks|
  {
    if b.first < |l.chunks| {
      assert Placed(l, b.first);
      assert m.chunks[..b.first] == l.chunks[..b.first] && m.gapAt[b.first] == l.gapAt[b.first];
    } else {
      FlowLengths(l);
      hide Flat, Flow;
      FlatTwo(l.chunks, m.chunks[|l.chunks|..b.first]);
      assert m.chunks[..b.first] == l.chunks + m.chunks[|l.chunks|..b.first];
    }
  }

  /** Exactly when a lease begins before a state `s`: its first chunk was published
      by then. */
  lemma LeaseBeginsBefore(capacity: nat, slotFrames: nat, before: seq<Label>, after: seq<Label>)
    requires capacity > 0 && slotFrames > 0
    requires var s := Reached(capacity, slotFrames, before);
             var t := Run(s, after);
             && s.w.lease.None? && t.w.lease.Some? && t.w.lease.value.dropped == 0 && !t.p.generationExhausted
    ensures var s := Reached(capacity, slotFrames, before);
            var b := Run(s, after).w.lease.value.b;
            b.mark < |s.p.log.stream| <==> b.first < s.p.published
  {
    var s := Reached(capacity, slotFrames, before);
    ReachedSound(capacity, slotFrames, before);
    var t := Run(s, after);
    assert Flow(s.p.log) && |s.p.log.chunks| == s.p.published;
    hide Inv, Calibrating, Reached, Run, Flow, BoundaryPlaced, Flat;
    RunPlaced(s, after, s.p.log.gap);
    LogGrows(s, after);
    BoundaryBefore(s.p.log, t.p.log, t.w.lease.value.b);
  }

  lemma {:induction false} RunThen(s: State, labels: seq<Label>, l: Label)
    requires Inv(s) && Calibrating(s)
    ensures WellFormed(Run(s, labels)) && Run(s, labels + [l]) == Step(Run(s, labels), l)
    decreases |labels|
  {
    assert WellFormed(s);
    if labels == [] {
      assert WellFormed(Step(s, l)) by { StepKeeps(s, l); }
      assert [l][1..] == [];
    } else {
      hide Inv, Calibrating, Step, WellFormed;
      StepKeeps(s, labels[0]);
      RunThen(Step(s, labels[0]), labels[1..], l);
      assert (labels + [l])[1..] == labels[1..] + [l];
    }
  }

  function Works(n: nat): seq<Label> { seq(n, _ => Work(1, true, false)) }

  function Pushes(f: Frame, n: nat): seq<Label> { seq(n, _ => Produce([f], false)) }

  lemma RunNone(s: State)
    ensures Run(s, Works(0)) == s && forall f :: Run(s, Pushes(f, 0)) == s
  {
  }

  lemma WorkNext(s: State, n: nat)
    requires Inv(s) && Calibrating(s)
    ensures WellFormed(Run(s, Works(n))) && Run(s, Works(n + 1)) == Step(Run(s, Works(n)), Work(1, true, false))
  {
    hide Inv, Calibrating, Step, WellFormed;
    RunThen(s, Works(n), Work(1, true, false));
    assert Works(n + 1) == Works(n) + [Work(1, true, false)];
  }

  lemma PushNext(s: State, f: Frame, n: nat)
    requires Inv(s) && Calibrating(s)
    ensures WellFormed(Run(s, Pushes(f, n)))
    ensures Run(s, Pushes(f, n + 1)) == Step(Run(s, Pushes(f, n)), Produce([f], false))
  {
    hide Inv, Calibrating, Step, WellFormed;
    RunThen(s, Pushes(f, n), Produce([f], false));
    assert Pushes(f, n + 1) == Pushes(f, n) + [Produce([f], false)];
  }

  /** While the worker holds no slot its next access is the boundary's. */
  lemma LookNext(s: State, n: nat, w: WorkerSide)
    requires Inv(s) && Calibrating(s) && Run(s, Works(n)) == s.(w := w) && !HoldsSlot(w.pc)
    ensures Run(s, Works(n + 1)) == s.(w := BoundaryStep(w, s.p, s.n.cumulative, 1))
  {
    WorkNext(s, n);
    hide Inv, Calibrating, Run, Works, BoundaryStep, WellFormed;
  }

  predicate AtEase(s: State) {
    s.w.pc.WIdle? && s.p.at.Idle? && !s.p.admitted && !s.p.generationExhausted
  }

  function HeadRead(s: State): Boundary {
    Boundary(s.p.published, 0, |s.p.log.stream|, s.p.log.gap, s.w.gap)
  }

  lemma BoundaryLooked(s: State)
    requires Inv(s) && Calibrating(s) && AtEase(s)
    ensures Run(s, Works(4)) == s.(w := s.w.(pc := WDropped(s.p.generation, HeadRead(s))))
  {
    hide Inv, Calibrating, Run, Works;
    RunNone(s);
    LookNext(s, 0, s.w);
    LookNext(s, 1, s.w.(pc := WGeneration));
    LookNext(s, 2, s.w.(pc := WAdmitted(s.p.generation)));
    LookNext(s, 3, s.w.(pc := WPublished(s.p.generation)));
  }

  /** Seven accesses after it began, the worker holds the boundary of a queue at
      rest and looks for a request. */
  lemma BoundaryRead(s: State)
    requires Inv(s) && Calibrating(s) && AtEase(s)
    ensures Run(s, Works(7)) == s.(w := s.w.(pc := WAccept(HeadRead(s).(droppedAt := s.n.cumulative))))
  {
    hide Inv, Calibrating, Run, Works;
    BoundaryLooked(s);
    var g, b := s.p.generation, HeadRead(s).(droppedAt := s.n.cumulative);
    LookNext(s, 4, s.w.(pc := WDropped(g, HeadRead(s))));
    LookNext(s, 5, s.w.(pc := WStillAdmitted(g, b)));
    LookNext(s, 6, s.w.(pc := WSameGeneration(g, b)));
  }

  lemma ProduceNext(s: State, f: Frame, n: nat, p: ProducerSide)
    requires Inv(s) && Calibrating(s) && Run(s, Pushes(f, n)) == s.(p := p)
    ensures WellFormed(s.(p := p)) && Run(s, Pushes(f, n + 1)) == ProducerStep(s.(p := p), [f], false)
  {
    PushNext(s, f, n);
    hide Inv, Calibrating, Run, Pushes, ProducerStep, WellFormed;
  }

  /** The first push into a queue of one one-frame slot. */
  function AfterOnePush(p: ProducerSide, f: Frame): ProducerSide {
    p.(job := Job([f], 0, 0), slots := [[f]], published := 1, enqueued := 1, generation := 1, okPushed := 1,
       log := Log([[f]], [0], [f], 0, {0, 1}))
  }

  lemma OnePush(s: State, f: Frame)
    requires Inv(s) && Calibrating(s) && s.open && s.n == Counters(0, 0, false, false) && s.slotFrames == 1
    requires s.p == Start(1, 1).p && s.w.consumed == 0
    ensures Run(s, Pushes(f, 9)) == s.(p := AfterOnePush(s.p, f))
  {
    hide Inv, Calibrating, Run, Pushes;
    RunNone(s);
    var p := s.p;
    var p1 := p.(admitted := true, at := Entered, job := Job([f], 0, 0));
    ProduceNext(s, f, 0, p);
    ProduceNext(s, f, 1, p1);
    ProduceNext(s, f, 2, p1.(at := Loop(0)));
    ProduceNext(s, f, 3, p1.(at := Room(0, 1)));
    var p4 := p1.(at := Counted(0, 1), enqueued := 1);
    assert [f][0..1] == [f] && p.slots[0 := [f]] == [[f]];
    ProduceNext(s, f, 4, p4);
    ProduceNext(s, f, 5, p4.(at := Written(0, 1), slots := [[f]]));
    var p6 := p4.(at := Loop(1), slots := [[f]], published := 1, log := Log([[f]], [0], [f], 0, {0}));
    ProduceNext(s, f, 6, p6);
    ProduceNext(s, f, 7, p6.(at := Return(PushOk(1, 0)), okPushed := 1));
    ProduceNext(s, f, 8, p6.(at := Bumped(PushOk(1, 0)), okPushed := 1, generation := 1));
  }

  lemma {:induction false} RunAppend(s: State, a: seq<Label>, b: seq<Label>)
    requires Inv(s) && Calibrating(s)
    ensures Run(s, a + b) == Run(Run(s, a), b)
    decreases |a|
  {
    assert WellFormed(s);
    if a == [] {
      assert a + b == b;
    } else {
      hide Inv, Calibrating, Step, WellFormed;
      StepKeeps(s, a[0]);
      RunAppend(Step(s, a[0]), a[1..], b);
      assert (a + b)[1..] == a[1..] + b;
    }
  }

  /** A request found ready with a boundary in hand, served by the first chunk. */
  lemma OneLease(s: State, f: Frame, b: Boundary)
    requires Inv(s) && Calibrating(s) && s.w.pc == WAccept(b) && b.first == 0 && s.w.capture.None?
    requires s.w.consumed == 0 && s.w.written == 0 && !s.w.fault && s.p.published == 1 && s.p.slots == [[f]]
    ensures var t := Run(s, Works(4));
            && t.w.lease == Some(Lease(b, 1, [f], SatSub(s.n.cumulative, b.droppedAt))) && t.p == s.p
  {
    hide Inv, Calibrating, Run, Works;
    RunNone(s);
    LookNext(s, 0, s.w);
    var taken := s.w.(pc := WTry, capture := Some(Capture(b, 1, [])), lease := None);
    LookNext(s, 1, taken);
    WorkNext(s, 2);
    var copied := taken.(pc := WFinish, written := 1, capture := Some(Capture(b, 1, [f])));
    assert Take([] + [f], 1) == [f];
    assert Run(s, Works(3)) == s.(w := copied);
    WorkNext(s, 3);
  }

  /** It happens: a boundary read before a push, a request that turns up after it,
      and a lease without drops that begins with audio pushed before the request. */
  lemma LeaseMayBeginEarlier(f: Frame) returns (before: seq<Label>, after: seq<Label>)
    ensures var s := Reached(1, 1, before);
            var t := Run(s, after);
            && s.w.lease.None? && s.w.capture.None? && HasBoundary(s.w.pc) && s.p.log.stream == [f]
            && t.w.lease.Some? && t.w.lease.value.dropped == 0 && !t.p.generationExhausted
            && t.w.lease.value.b.mark == 0 < |s.p.log.stream|
  {
    before, after := Works(7) + Pushes(f, 9), Works(4);
    var s0 := Start(1, 1);
    StartSound(1, 1);
    BoundaryRead(s0);
    hide Inv, Calibrating, Run, Works, Pushes;
    var s1 := Run(s0, Works(7));
    RunKeeps(s0, Works(7));
    OnePush(s1, f);
    RunAppend(s0, Works(7), Pushes(f, 9));
    var s2 := Run(s1, Pushes(f, 9));
    RunKeeps(s1, Pushes(f, 9));
    OneLease(s2, f, Boundary(0, 0, 0, 0, 0));
  }
}

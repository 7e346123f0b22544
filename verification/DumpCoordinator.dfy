/** The dump coordinator (src/dump.rs): one consumption cursor, one frozen
    transaction, and the authorities that survive lost replies, failed
    publications and failed deliveries.  `DumpState` is the mutex-guarded state;
    the class at the end runs the source's operations over it and a
    `CaptureArena`, and every operation keeps the joint invariant `Inv`. */
module DumpCoordinator {
  import opened Base
  import opened Audio
  import E = Epochs
  import A = CaptureArena

  /** The reusable export decision; `storageId` names its one buffer. */
  datatype Decision = Decision(storageId: nat, valid: bool, exportStart: u64, exportEnd: u64)
  {
    function Reset(): Decision { Decision(storageId, false, 0, 0) }

    predicate IsReset() { this == Reset() }
  }

  datatype Transaction = Transaction(frozen: A.FrozenEpoch, retentionLost: u64, decision: Decision)

  datatype PendingClear = PendingClear(
    clearId: u64, requestedStart: u64, accounting: A.Accounting,
    frozenEnd: Option<u64>, acknowledged: u64,
    counted: nat)  // the drops counted by cause when the clear was asked for

  datatype Authority =
    | Delivering
    | Finalized(resetDecision: Decision, failedRelease: Option<A.FrozenEpoch>)

  datatype Losses = Losses(retention: u64, cleared: u64, dropped: u64)

  datatype Kind = Written | SkippedSilent | SkippedByPolicy

  /** One successful outcome reported to a caller.  `frames` is what publication
      read from the frozen epoch. */
  datatype Entry =
    | Committed(kind: Kind, start: u64, end: u64, exportStart: u64, frames: seq<Frame>, losses: Losses)
    | NothingNew(losses: Losses)
  {
    function Length(): int { if Committed? then end - start else 0 }
  }

  /** One move of the cursor from `start` to `end`: what was left of the range
      begins at `kept`, and was consumed or cleared. */
  datatype Booking = Booking(start: nat, kept: nat, end: nat, cleared: bool)

  datatype DumpState = DumpState(
    committed: Option<u64>,
    frozen: Option<Transaction>,
    reusable: Option<Decision>,
    pendingClear: Option<PendingClear>,
    pendingRelease: Option<A.FrozenEpoch>,
    inProgress: bool,
    completion: Option<Authority>,
    indeterminate: bool,
    acknowledged: u64,
    pendingRetention: u64,
    pendingCleared: u64,
    nextClearId: u64,
    ledger: seq<Entry>,
    booked: seq<A.ClearReport>,
    bookings: seq<Booking>,  // how the cursor moved, oldest first
    refusals: seq<A.ClearReport>)  // reports of executed clears that the drop test refused
  {
    function Cursor(): u64 { committed.GetOr(0) }
  }

  // ---- conservation ----

  /** Frames a caller was told about: published or deliberately omitted, lost to
      retention, or cleared. */
  function Total(ledger: seq<Entry>): int {
    if ledger == [] then 0
    else
      var e := ledger[|ledger| - 1];
      Total(ledger[..|ledger| - 1]) + e.Length() + e.losses.retention + e.losses.cleared
  }

  function TotalDropped(ledger: seq<Entry>): int {
    if ledger == [] then 0
    else TotalDropped(ledger[..|ledger| - 1]) + ledger[|ledger| - 1].losses.dropped
  }

  lemma TotalsAppend(ledger: seq<Entry>, e: Entry)
    ensures Total(ledger + [e]) == Total(ledger) + e.Length() + e.losses.retention + e.losses.cleared
    ensures TotalDropped(ledger + [e]) == TotalDropped(ledger) + e.losses.dropped
  {
    assert (ledger + [e])[..|ledger|] == ledger;
  }

  /** Committed ranges are disjoint and increasing, and end at or before `bound`. */
  predicate Increasing(ledger: seq<Entry>, bound: int) {
    && (forall i, j :: 0 <= i < j < |ledger| && ledger[i].Committed? && ledger[j].Committed? ==>
          ledger[i].end <= ledger[j].start)
    && (forall i :: 0 <= i < |ledger| && ledger[i].Committed? ==> ledger[i].end <= bound)
  }

  predicate Faithful(ledger: seq<Entry>, log: seq<Frame>) {
    forall i :: 0 <= i < |ledger| && ledger[i].Committed? ==>
      && ledger[i].start < ledger[i].end <= |log|
      && ledger[i].start <= ledger[i].exportStart <= ledger[i].end
      && ledger[i].frames == log[ledger[i].start..ledger[i].end]
  }

  /** The books: the cursor is exactly the frames accounted for, and every
      committed range read the frames of the log. */
  predicate Books(a: A.ArenaState, c: DumpState) {
    && c.Cursor() == Total(c.ledger) + c.pendingRetention + c.pendingCleared
    && c.Cursor() <= |a.worker.log|
    && TotalDropped(c.ledger) == c.acknowledged <= a.cumulativeDropped
    && Increasing(c.ledger, c.Cursor())
    && Faithful(c.ledger, a.worker.log)
    && Total(c.ledger) >= 0
  }

  lemma BooksGrow(a: A.ArenaState, a': A.ArenaState, c: DumpState)
    requires Books(a, c) && A.Grows(a, a')
    ensures Books(a', c)
  {
    forall i | 0 <= i < |c.ledger| && c.ledger[i].Committed?
      ensures c.ledger[i].frames == a'.worker.log[c.ledger[i].start..c.ledger[i].end]
    {
      assert a.worker.log == a'.worker.log[..|a.worker.log|];
    }
  }

  // ---- losses by cause ----

  datatype Fate = Consumed | LostToRetention | Cleared

  /** The positions of one range. */
  function Positions(start: int, end: int): (r: set<int>)
    ensures forall k :: k in r <==> start <= k < end
    ensures start <= end ==> |r| == end - start
    decreases end - start
  {
    if end <= start then {} else Positions(start, end - 1) + {end - 1}
  }

  function Part(b: Booking, fate: Fate): set<int> {
    match fate
    case LostToRetention => Positions(b.start, b.kept)
    case Consumed => if b.cleared then {} else Positions(b.kept, b.end)
    case Cleared => if b.cleared then Positions(b.kept, b.end) else {}
  }

  function PartSize(b: Booking, fate: Fate): int {
    match fate
    case LostToRetention => b.kept - b.start
    case Consumed => if b.cleared then 0 else b.end - b.kept
    case Cleared => if b.cleared then b.end - b.kept else 0
  }

  /** The positions the bookings gave one fate. */
  function Where(bookings: seq<Booking>, fate: Fate): set<int> {
    if bookings == [] then {}
    else Where(bookings[..|bookings| - 1], fate) + Part(bookings[|bookings| - 1], fate)
  }

  function Size(bookings: seq<Booking>, fate: Fate): int {
    if bookings == [] then 0
    else Size(bookings[..|bookings| - 1], fate) + PartSize(bookings[|bookings| - 1], fate)
  }

  /** Bookings follow each other without a gap from zero to the cursor. */
  predicate Chained(bookings: seq<Booking>, cursor: nat) {
    if bookings == [] then cursor == 0
    else
      var b := bookings[|bookings| - 1];
      b.start <= b.kept <= b.end == cursor && Chained(bookings[..|bookings| - 1], b.start)
  }

  function RetentionOf(ledger: seq<Entry>): int {
    if ledger == [] then 0
    else RetentionOf(ledger[..|ledger| - 1]) + ledger[|ledger| - 1].losses.retention
  }

  function ClearedOf(ledger: seq<Entry>): int {
    if ledger == [] then 0
    else ClearedOf(ledger[..|ledger| - 1]) + ledger[|ledger| - 1].losses.cleared
  }

  /** Log positions some committed range covers. */
  function Covered(ledger: seq<Entry>): set<int> {
    if ledger == [] then {}
    else
      var e := ledger[|ledger| - 1];
      Covered(ledger[..|ledger| - 1])
      + if e.Committed? then Positions(e.start, e.end) else {}
  }

  /** Every cause is booked under its own name: the ledger and the pending
      counters say how many frames retention lost and clears removed, and the
      ranges consumed are the committed ones. */
  predicate Caused(bookings: seq<Booking>, ledger: seq<Entry>, cursor: nat, retention: nat, cleared: nat) {
    && Chained(bookings, cursor)
    && Size(bookings, LostToRetention) == RetentionOf(ledger) + retention
    && Size(bookings, Cleared) == ClearedOf(ledger) + cleared
    && Where(bookings, Consumed) == Covered(ledger)
  }

  /** A clear removed this frame. */
  predicate RemovedBy(r: A.ClearReport, k: nat) { Max(r.expectedStart, r.activeStart) <= k < r.activeEnd }

  predicate Removed(refusals: seq<A.ClearReport>, k: nat) {
    exists i :: 0 <= i < |refusals| && RemovedBy(refusals[i], k)
  }

  /** A frame had left the ring when the log ended at `end`: all that a ring
      guarantees to hold was newer, or a clear removed the frame whose report the
      drop test refused. */
  predicate Gone(g: E.Geometry, refusals: seq<A.ClearReport>, k: nat, end: nat)
    requires g.Valid()
  {
    k + g.Guaranteed() < end || Removed(refusals, k)
  }

  /** A range of which the part from `kept` on was still held, and the rest gone. */
  predicate Explained(g: E.Geometry, refusals: seq<A.ClearReport>, start: nat, kept: nat, end: nat)
    requires g.Valid()
  {
    && start <= kept <= end && end - kept <= g.Capacity()
    && forall k: nat :: start <= k < kept ==> Gone(g, refusals, k, end)
  }

  predicate Justified(g: E.Geometry, bookings: seq<Booking>, refusals: seq<A.ClearReport>)
    requires g.Valid()
  {
    forall i :: 0 <= i < |bookings| ==> Explained(g, refusals, bookings[i].start, bookings[i].kept, bookings[i].end)
  }

  /** Up to here refused clears emptied the ring. */
  function RefusedUpTo(refusals: seq<A.ClearReport>): nat {
    if refusals == [] then 0 else refusals[|refusals| - 1].activeEnd
  }

  /** Where the next range to account for begins. */
  function Frontier(c: DumpState): nat {
    if c.frozen.Some? then c.frozen.value.frozen.descriptor.end else c.Cursor()
  }

  /** Of the frames still to be accounted for, those that refused clears took from
      the ring are explained already. */
  predicate Stretch(g: E.Geometry, refusals: seq<A.ClearReport>, frontier: nat)
    requires g.Valid()
  {
    forall k: nat :: frontier <= k < RefusedUpTo(refusals) ==> Gone(g, refusals, k, RefusedUpTo(refusals))
  }

  predicate Causes(a: A.ArenaState, c: DumpState) {
    && a.worker.geometry.Valid()
    && Caused(c.bookings, c.ledger, c.Cursor(), c.pendingRetention, c.pendingCleared)
    && Justified(a.worker.geometry, c.bookings, c.refusals)
    && Stretch(a.worker.geometry, c.refusals, Frontier(c))
  }

  /** What a freeze or clear leaves out at the frontier is gone. */
  lemma KeptExplained(g: E.Geometry, refusals: seq<A.ClearReport>, frontier: nat, kept: nat, end: nat)
    requires g.Valid() && Stretch(g, refusals, frontier) && RefusedUpTo(refusals) <= end
    requires E.Kept(g, Max(RefusedUpTo(refusals), frontier), frontier, kept, end)
    ensures Explained(g, refusals, frontier, kept, end)
  {
    forall k: nat | frontier <= k < kept ensures Gone(g, refusals, k, end) {
      assert k < RefusedUpTo(refusals) ==> Gone(g, refusals, k, RefusedUpTo(refusals));
    }
  }

  lemma GoneStays(g: E.Geometry, refusals: seq<A.ClearReport>, r: A.ClearReport, k: nat, end: nat, end': nat)
    requires g.Valid() && Gone(g, refusals, k, end) && end <= end'
    ensures Gone(g, refusals + [r], k, end')
  {
    if Removed(refusals, k) {
      var i :| 0 <= i < |refusals| && RemovedBy(refusals[i], k);
      assert RemovedBy((refusals + [r])[i], k);
    }
  }

  lemma ExplainedStays(g: E.Geometry, refusals: seq<A.ClearReport>, r: A.ClearReport, start: nat, kept: nat, end: nat)
    requires g.Valid() && Explained(g, refusals, start, kept, end)
    ensures Explained(g, refusals + [r], start, kept, end)
  {
    forall k: nat | start <= k < kept ensures Gone(g, refusals + [r], k, end) {
      GoneStays(g, refusals, r, k, end, end);
    }
  }

  /** A refused clear explains what it removed. */
  lemma StretchGrows(g: E.Geometry, refusals: seq<A.ClearReport>, r: A.ClearReport, frontier: nat)
    requires g.Valid() && Stretch(g, refusals, frontier) && RefusedUpTo(refusals) <= r.activeEnd
    requires r.expectedStart == frontier
    requires E.Kept(g, Max(RefusedUpTo(refusals), frontier), frontier, Max(frontier, r.activeStart), r.activeEnd)
    ensures Stretch(g, refusals + [r], frontier)
  {
    KeptExplained(g, refusals, frontier, Max(frontier, r.activeStart), r.activeEnd);
    var all := refusals + [r];
    forall k: nat | frontier <= k < r.activeEnd ensures Gone(g, all, k, r.activeEnd) {
      if RemovedBy(r, k) {
        assert RemovedBy(all[|refusals|], k);
      } else {
        GoneStays(g, refusals, r, k, r.activeEnd, r.activeEnd);
      }
    }
  }

  lemma JustifiedStays(g: E.Geometry, bookings: seq<Booking>, refusals: seq<A.ClearReport>, r: A.ClearReport)
    requires g.Valid() && Justified(g, bookings, refusals)
    ensures Justified(g, bookings, refusals + [r])
  {
    forall i | 0 <= i < |bookings|
      ensures Explained(g, refusals + [r], bookings[i].start, bookings[i].kept, bookings[i].end)
    {
      ExplainedStays(g, refusals, r, bookings[i].start, bookings[i].kept, bookings[i].end);
    }
  }

  lemma BookingAppends(bookings: seq<Booking>, b: Booking, fate: Fate)
    ensures Size(bookings + [b], fate) == Size(bookings, fate) + PartSize(b, fate)
    ensures Where(bookings + [b], fate) == Where(bookings, fate) + Part(b, fate)
    ensures b.start <= b.kept <= b.end && Chained(bookings, b.start) ==> Chained(bookings + [b], b.end)
  {
    assert (bookings + [b])[..|bookings|] == bookings;
  }

  lemma EntryAppends(ledger: seq<Entry>, e: Entry)
    ensures RetentionOf(ledger + [e]) == RetentionOf(ledger) + e.losses.retention
    ensures ClearedOf(ledger + [e]) == ClearedOf(ledger) + e.losses.cleared
    ensures Covered(ledger + [e]) == Covered(ledger) + if e.Committed? then Positions(e.start, e.end) else {}
  {
    assert (ledger + [e])[..|ledger|] == ledger;
  }

  lemma JustifiedAppends(g: E.Geometry, bookings: seq<Booking>, b: Booking, refusals: seq<A.ClearReport>)
    requires g.Valid() && Justified(g, bookings, refusals) && Explained(g, refusals, b.start, b.kept, b.end)
    ensures Justified(g, bookings + [b], refusals)
  {
    var all := bookings + [b];
    forall i | 0 <= i < |all| ensures Explained(g, refusals, all[i].start, all[i].kept, all[i].end) {
      assert all[i] == if i < |bookings| then bookings[i] else b;
    }
  }

  /** A range that is discarded: its frames count as cleared, the ones before it
      as lost to retention. */
  lemma BookDiscard(bookings: seq<Booking>, ledger: seq<Entry>, cursor: nat, retention: nat, cleared: nat, b: Booking)
    requires Caused(bookings, ledger, cursor, retention, cleared)
    requires b.start == cursor && b.cleared && b.start <= b.kept <= b.end
    ensures Caused(bookings + [b], ledger, b.end, retention + (b.kept - b.start), cleared + (b.end - b.kept))
  {
    hide Where, Size, RetentionOf, ClearedOf, Covered;
    BookingAppends(bookings, b, LostToRetention);
    BookingAppends(bookings, b, Cleared);
    BookingAppends(bookings, b, Consumed);
  }

  /** A range that is committed, and its entry in the ledger. */
  lemma BookRange(bookings: seq<Booking>, ledger: seq<Entry>, cursor: nat, retention: nat, cleared: nat,
                  b: Booking, e: Entry)
    requires Caused(bookings, ledger, cursor, retention, cleared)
    requires b.start == cursor && !b.cleared && b.start <= b.kept <= b.end
    requires e.Committed? && e.start == b.kept && e.end == b.end
    requires e.losses.retention == retention + (b.kept - b.start) && e.losses.cleared == cleared
    ensures Caused(bookings + [b], ledger + [e], b.end, 0, 0)
  {
    hide Where, Size, RetentionOf, ClearedOf, Covered;
    BookingAppends(bookings, b, LostToRetention);
    BookingAppends(bookings, b, Cleared);
    BookingAppends(bookings, b, Consumed);
    EntryAppends(ledger, e);
  }

  lemma BookNothing(bookings: seq<Booking>, ledger: seq<Entry>, cursor: nat, retention: nat, cleared: nat, e: Entry)
    requires Caused(bookings, ledger, cursor, retention, cleared) && e.NothingNew?
    requires e.losses.retention == retention && e.losses.cleared == cleared
    ensures Caused(bookings, ledger + [e], cursor, 0, 0)
  {
    EntryAppends(ledger, e);
  }

  lemma {:induction false} ChainedOrdered(bookings: seq<Booking>, cursor: nat)
    requires Chained(bookings, cursor)
    ensures forall f: Fate, k :: k in Where(bookings, f) ==> 0 <= k < cursor
    ensures forall f: Fate :: |Where(bookings, f)| == Size(bookings, f)
    decreases |bookings|
  {
    hide Positions;
    if bookings != [] {
      var n := |bookings| - 1;
      ChainedOrdered(bookings[..n], bookings[n].start);
      forall f: Fate ensures |Where(bookings, f)| == Size(bookings, f) {
        assert Where(bookings[..n], f) !! Part(bookings[n], f);
      }
    }
  }

  lemma {:induction false} OneFateEach(bookings: seq<Booking>, cursor: nat, k: int, f: Fate, h: Fate)
    requires Chained(bookings, cursor) && k in Where(bookings, f) && k in Where(bookings, h)
    ensures f == h
    decreases |bookings|
  {
    var n := |bookings| - 1;
    var rest, b := bookings[..n], bookings[n];
    if k < b.start {
      OneFateEach(rest, b.start, k, f, h);
    } else {
      ChainedOrdered(rest, b.start);
    }
  }

  lemma {:induction false} SomeFateEach(bookings: seq<Booking>, cursor: nat, k: nat) returns (f: Fate)
    requires Chained(bookings, cursor) && k < cursor
    ensures k in Where(bookings, f)
    decreases |bookings|
  {
    var n := |bookings| - 1;
    var b := bookings[n];
    if k < b.start {
      f := SomeFateEach(bookings[..n], b.start, k);
    } else {
      f := if k < b.kept then LostToRetention else if b.cleared then Cleared else Consumed;
    }
  }

  lemma FatesDisjoint(bookings: seq<Booking>, cursor: nat, f: Fate, h: Fate)
    requires Chained(bookings, cursor) && f != h
    ensures Where(bookings, f) !! Where(bookings, h)
  {
    hide Chained, Where;
    forall k | k in Where(bookings, f) ensures k !in Where(bookings, h) {
      if k in Where(bookings, h) {
        OneFateEach(bookings, cursor, k, f, h);
      }
    }
  }

  /** The three fates share the positions below the cursor out among them. */
  lemma ChainedPartition(bookings: seq<Booking>, cursor: nat)
    requires Chained(bookings, cursor)
    ensures Where(bookings, Consumed) + Where(bookings, LostToRetention) + Where(bookings, Cleared)
         == Positions(0, cursor)
    ensures Where(bookings, Consumed) !! Where(bookings, LostToRetention) !! Where(bookings, Cleared)
  {
    hide Chained, Where, Positions;
    ChainedOrdered(bookings, cursor);
    FatesDisjoint(bookings, cursor, Consumed, LostToRetention);
    FatesDisjoint(bookings, cursor, Consumed, Cleared);
    FatesDisjoint(bookings, cursor, LostToRetention, Cleared);
    var all := Where(bookings, Consumed) + Where(bookings, LostToRetention) + Where(bookings, Cleared);
    forall k | k in Positions(0, cursor) ensures k in all {
      var f := SomeFateEach(bookings, cursor, k);
      assert f == Consumed || f == LostToRetention || f == Cleared;
    }
  }

  // ---- loss commit ----

  datatype LossCommit = LossCommit(acknowledged: u64, retention: u64, cleared: u64)

  /** `None` stands for the two errors of the check. */
  function PrevalidateLossCommit(c: DumpState, cumulative: u64, retentionLost: u64): Option<LossCommit> {
    if cumulative < c.acknowledged then None
    else if c.pendingRetention + retentionLost > U64_MAX then None
    else Some(LossCommit(c.acknowledged, c.pendingRetention + retentionLost, c.pendingCleared))
  }

  function LossesOf(cumulative: u64, commit: LossCommit): Losses
    requires commit.acknowledged <= cumulative
  {
    Losses(commit.retention, commit.cleared, cumulative - commit.acknowledged)
  }

  function CommitLosses(c: DumpState, cumulative: u64): DumpState {
    c.(acknowledged := cumulative, pendingRetention := 0, pendingCleared := 0)
  }

  // ---- the joint invariant ----

  /** The one frozen capability outside the arena, wherever it is parked. */
  function Capability(c: DumpState, g: Option<Transaction>): Option<A.FrozenEpoch> {
    if c.frozen.Some? then Some(c.frozen.value.frozen)
    else if g.Some? then Some(g.value.frozen)
    else if c.pendingRelease.Some? then c.pendingRelease
    else if c.completion.Some? && c.completion.value.Finalized? then c.completion.value.failedRelease
    else None
  }

  function CapabilityDescriptor(c: DumpState, g: Option<Transaction>): Option<E.Descriptor> {
    var f := Capability(c, g);
    if f.Some? then Some(f.value.descriptor) else None
  }

  /** Which authorities may exist together. */
  predicate Shape(c: DumpState, g: Option<Transaction>, decisionId: nat) {
    && (c.inProgress <==> c.completion.Some?)
    && (g.Some? <==> c.completion == Some(Delivering))
    && (c.completion.Some? ==> c.frozen.None? && c.pendingRelease.None? && c.pendingClear.None?)
    && (c.completion.Some? && c.completion.value.Finalized? ==> c.completion.value.failedRelease.Some?)
    && (c.pendingRelease.Some? ==> c.frozen.None? && c.pendingClear.None?)
    && (c.indeterminate ==> c.frozen.Some? && c.frozen.value.decision.valid && c.pendingClear.None?)
    && (c.reusable.Some? <==> c.frozen.None? && c.completion.None?)
    && (c.reusable.Some? ==> c.reusable.value == Decision(decisionId, false, 0, 0))
    && (c.completion.Some? && c.completion.value.Finalized? ==>
          c.completion.value.resetDecision == Decision(decisionId, false, 0, 0))
    && (c.frozen.Some? ==> c.frozen.value.decision.storageId == decisionId)
    && (g.Some? ==> g.value.decision.storageId == decisionId)
  }

  /** The frozen transaction continues the cursor without a gap. */
  predicate Continues(c: DumpState, t: Transaction) {
    var d := t.frozen.descriptor;
    && d.start == c.Cursor() + t.retentionLost
    && d.start < d.end
    && (t.decision.valid ==> d.start <= t.decision.exportStart <= t.decision.exportEnd == d.end)
    && (!t.decision.valid ==> t.decision.IsReset())
  }

  predicate Usable(a: A.ArenaState, f: A.FrozenEpoch) {
    f.runtimeId == a.runtimeId && !f.released
  }

  /** Up to here clears may have emptied the active ring. */
  function Mark(c: DumpState): nat {
    Max(RefusedUpTo(c.refusals), Frontier(c))
  }

  /** The open transaction takes over all the ring held beyond the cursor, and
      capabilities belong to this arena. */
  predicate Standing(a: A.ArenaState, c: DumpState, g: Option<Transaction>) {
    && A.Valid(a)
    && (c.frozen.Some? ==> FrozenStands(a, c, c.frozen.value))
    && (Capability(c, g).Some? ==> Usable(a, Capability(c, g).value))
  }

  predicate FrozenStands(a: A.ArenaState, c: DumpState, t: Transaction)
    requires A.Valid(a)
  {
    var d := t.frozen.descriptor;
    && Continues(c, t) && !t.frozen.releasePending
    && Explained(a.worker.geometry, c.refusals, c.Cursor(), d.start, d.end)
  }

  /** How the arena stands with respect to the coordinator. */
  predicate Situation(a: A.ArenaState, c: DumpState, g: Option<Transaction>) {
    && Standing(a, c, g)
    && if c.pendingClear.Some? then
         A.ClearSituation(a, c.pendingClear.value.accounting, c.committed, CapabilityDescriptor(c, g), Mark(c),
                          c.pendingClear.value.counted)
       else if c.frozen.Some? || g.Some? then
         A.Resting(a, c.committed, CapabilityDescriptor(c, g), Mark(c))
       else
         match Capability(c, g)
         case None => A.Free(a, c.committed, Mark(c))
         case Some(f) => A.Held(a, f.descriptor, Mark(c))
  }

  /** The identity and request a pending clear was built from still stand. */
  predicate PendingStands(a: A.ArenaState, c: DumpState, id: u64, p: PendingClear) {
    var t := c.frozen;
    var acc := p.accounting;
    && p.clearId == acc.clearId == c.nextClearId
    && acc.runtimeId == a.runtimeId && acc.coordinatorId == id
    && p.requestedStart == c.Cursor()
    && p.acknowledged == c.acknowledged
    && p.counted <= a.ingressDropped + a.workerDropped
    && p.frozenEnd == (if t.Some? then Some(t.value.frozen.descriptor.end) else None)
    && acc.expectedStart == (if t.Some? then t.value.frozen.descriptor.end else c.Cursor())
    && acc.pendingRetention == c.pendingRetention + (if t.Some? then t.value.retentionLost else 0)
    && acc.pendingCleared == c.pendingCleared
                             + (if t.Some? then t.value.frozen.descriptor.end - t.value.frozen.descriptor.start else 0)
  }

  /** Cleared audio enters the books once per executed clear, under this
      coordinator's own identity. */
  predicate Clears(a: A.ArenaState, c: DumpState, id: u64) {
    && (c.pendingClear.Some? ==> PendingStands(a, c, id, c.pendingClear.value))
    && (forall i, j :: 0 <= i < j < |c.booked| ==> c.booked[i].clearId < c.booked[j].clearId)
    && (forall i :: 0 <= i < |c.refusals| ==>
          && A.ClearExecuted(c.refusals[i]) in a.executed
          && c.refusals[i].coordinatorId == id && c.refusals[i].runtimeId == a.runtimeId
          && c.refusals[i].cumulativeDropped < c.acknowledged)
    && (forall i :: 0 <= i < |c.booked| ==>
          && A.ClearExecuted(c.booked[i]) in a.executed
          && c.booked[i].coordinatorId == id && c.booked[i].runtimeId == a.runtimeId
          && c.booked[i].clearId <= c.nextClearId
          && (c.pendingClear.Some? ==> c.booked[i].clearId < c.nextClearId))
  }

  predicate Inv(a: A.ArenaState, c: DumpState, g: Option<Transaction>, id: u64, decisionId: nat) {
    && Shape(c, g, decisionId)
    && Situation(a, c, g)
    && Books(a, c)
    && Causes(a, c)
    && Clears(a, c, id)
  }

  lemma ClearsUntouched(a: A.ArenaState, c: DumpState, c': DumpState, id: u64)
    requires Clears(a, c, id) && c'.pendingClear.None?
    requires c'.booked == c.booked && c'.nextClearId == c.nextClearId
    requires c'.refusals == c.refusals && c.acknowledged <= c'.acknowledged
    ensures Clears(a, c', id)
  {
  }

  lemma ClearsGrow(a: A.ArenaState, a': A.ArenaState, c: DumpState, id: u64)
    requires Clears(a, c, id) && A.Grows(a, a')
    ensures Clears(a', c, id)
  {
  }

  /** The rest of the system never breaks the invariant. */
  lemma InterferenceKeepsInv(a: A.ArenaState, a': A.ArenaState, c: DumpState, g: Option<Transaction>,
                             id: u64, decisionId: nat)
    requires Inv(a, c, g, id, decisionId) && A.Evolve(a, a')
    ensures Inv(a', c, g, id, decisionId)
  {
    hide Caused, Justified, Stretch, Explained, E.RetainedStart, E.Epoch.Oldest, Clears, Mark;
    BooksGrow(a, a', c);
    ClearsGrow(a, a', c, id);
    if c.pendingClear.Some? {
      A.ClearSituationEvolves(a, a', c.pendingClear.value.accounting, c.committed, CapabilityDescriptor(c, g),
                              Mark(c), c.pendingClear.value.counted);
    } else if c.frozen.Some? || g.Some? {
      A.RestingEvolves(a, a', c.committed, CapabilityDescriptor(c, g), Mark(c));
    } else if Capability(c, g).Some? {
      A.HeldEvolves(a, a', Capability(c, g).value.descriptor, Mark(c));
    } else {
      A.FreeEvolves(a, a', c.committed, Mark(c));
    }
  }

  // ---- clear reports ----

  function ValidateClearReport(a: A.ArenaState, c: DumpState, id: u64, r: A.ClearReport): bool
    requires c.pendingClear.Some?
  {
    var p := c.pendingClear.value;
    && r.runtimeId == p.accounting.runtimeId == a.runtimeId
    && r.coordinatorId == p.accounting.coordinatorId == id
    && r.clearId == p.clearId
    && r.expectedStart == p.accounting.expectedStart
    && r.cumulativeDropped >= p.acknowledged
    && p.frozenEnd == (if c.frozen.Some? then Some(c.frozen.value.frozen.descriptor.end) else None)
    && p.requestedStart <= p.accounting.expectedStart
    && r.activeStart <= r.activeEnd
  }

  /** Only the drop-counter test of a recovered report can fail: its counter is
      assembled from two that are bumped separately. */
  lemma OnlyTheDropTestCanFail(a: A.ArenaState, c: DumpState, g: Option<Transaction>, id: u64, r: A.ClearReport)
    requires Clears(a, c, id) && c.pendingClear.Some?
    requires A.ReportFor(c.pendingClear.value.accounting, r)
    requires c.frozen.Some? ==> Continues(c, c.frozen.value)
    ensures ValidateClearReport(a, c, id, r) <==> r.cumulativeDropped >= c.acknowledged
  {
  }

  function CommitClearReport(c: DumpState, r: A.ClearReport): DumpState
    requires c.pendingClear.Some?
  {
    var c1 := c.(pendingRetention := r.pendingRetention,
                 pendingCleared := r.pendingCleared,
                 committed := Some(r.activeEnd),
                 pendingClear := None,
                 booked := c.booked + [r],
                 bookings := Discards(c) + [Removal(c, r)]);
    if c.frozen.Some? then
      c1.(frozen := None,
          reusable := Some(c.frozen.value.decision.Reset()),
          pendingRelease := Some(c.frozen.value.frozen))
    else c1
  }

  /** The bookings, with an open transaction counted as discarded. */
  function Discards(c: DumpState): seq<Booking> {
    c.bookings
    + if c.frozen.None? then []
      else
        var d := c.frozen.value.frozen.descriptor;
        [Booking(c.Cursor(), d.start, d.end, true)]
  }

  /** What the clear itself removed. */
  function Removal(c: DumpState, r: A.ClearReport): Booking
    requires c.pendingClear.Some?
  {
    var expected := c.pendingClear.value.accounting.expectedStart;
    Booking(expected, Max(expected, r.activeStart), r.activeEnd, true)
  }

  /** What a caller may assume of the arena once the report was taken. */
  predicate ReportInHand(a: A.ArenaState, c: DumpState, r: A.ClearReport)
    requires A.Valid(a)
  {
    && c.pendingClear.Some?
    && A.ReportFor(c.pendingClear.value.accounting, r)
    && r.activeEnd <= |a.worker.log|
    && A.ReportTakenOver(a, c.pendingClear.value.accounting, r, c.committed, CapabilityDescriptor(c, None), Mark(c),
                         c.pendingClear.value.counted)
  }

  /** The joint invariant between taking a report and booking it. */
  predicate InvInHand(a: A.ArenaState, c: DumpState, id: u64, decisionId: nat, r: A.ClearReport) {
    && Shape(c, None, decisionId) && Standing(a, c, None) && Books(a, c) && Causes(a, c) && Clears(a, c, id)
    && ReportInHand(a, c, r)
  }

  lemma ArenaStands(a: A.ArenaState, c: DumpState, g: Option<Transaction>, id: u64, decisionId: nat)
    requires Inv(a, c, g, id, decisionId)
    ensures A.Valid(a) && A.Grows(a, a)
  {
  }

  /** A clear is pending only while no delivery is active. */
  lemma PendingClearAlone(a: A.ArenaState, c: DumpState, g: Option<Transaction>, id: u64, decisionId: nat)
    requires Inv(a, c, g, id, decisionId) && c.pendingClear.Some?
    ensures A.Valid(a) && g.None? && !c.indeterminate
    ensures var acc := c.pendingClear.value.accounting;
            && acc.runtimeId == a.runtimeId && acc.coordinatorId == id
            && (A.PhaseOf(a).HeldClear? ==> IdentityOf(acc).Matches(A.PhaseOf(a).report))
            && A.ClearSituation(a, acc, c.committed, CapabilityDescriptor(c, None), Mark(c),
                                c.pendingClear.value.counted)
  {
  }

  lemma InHandDropTest(a: A.ArenaState, c: DumpState, id: u64, decisionId: nat, r: A.ClearReport)
    requires InvInHand(a, c, id, decisionId, r)
    ensures c.pendingClear.Some? && (ValidateClearReport(a, c, id, r) <==> r.cumulativeDropped >= c.acknowledged)
    ensures c.pendingClear.value.counted <= r.cumulativeDropped <= a.cumulativeDropped
  {
    OnlyTheDropTestCanFail(a, c, None, id, r);
  }

  /** A clear discards the open transaction, and what it counts as lost to
      retention had left the ring. */
  lemma ClearCommitKeepsCauses(a: A.ArenaState, c: DumpState, id: u64, decisionId: nat, r: A.ClearReport)
    requires InvInHand(a, c, id, decisionId, r)
    ensures Causes(a, CommitClearReport(c, r))
  {
    var g, b := a.worker.geometry, Removal(c, r);
    KeptExplained(g, c.refusals, Frontier(c), b.kept, r.activeEnd);
    if c.frozen.Some? {
      var d := c.frozen.value.frozen.descriptor;
      var b0 := Booking(c.Cursor(), d.start, d.end, true);
      BookDiscard(c.bookings, c.ledger, c.Cursor(), c.pendingRetention, c.pendingCleared, b0);
      JustifiedAppends(g, c.bookings, b0, c.refusals);
      BookDiscard(c.bookings + [b0], c.ledger, d.end, c.pendingRetention + (d.start - c.Cursor()),
                  c.pendingCleared + (d.end - d.start), b);
      JustifiedAppends(g, c.bookings + [b0], b, c.refusals);
    } else {
      assert Discards(c) == c.bookings;
      BookDiscard(c.bookings, c.ledger, c.Cursor(), c.pendingRetention, c.pendingCleared, b);
      JustifiedAppends(g, c.bookings, b, c.refusals);
    }
  }

  /** Booking a clear moves the cursor to the active head and keeps the books:
      a frozen transaction's frames count as cleared too. */
  lemma ClearCommitKeepsInv(a: A.ArenaState, c: DumpState, id: u64, decisionId: nat, r: A.ClearReport)
    requires InvInHand(a, c, id, decisionId, r)
    ensures Inv(a, CommitClearReport(c, r), None, id, decisionId)
  {
    hide Caused, Justified, Stretch, Explained, E.Kept, E.RetainedStart, E.Epoch.Oldest;
    var c' := CommitClearReport(c, r);
    ClearCommitKeepsCauses(a, c, id, decisionId, r);
    assert Situation(a, c', None);
    assert Books(a, c');
    assert Clears(a, c', id);
  }

  /** A report the drop test refuses books nothing, but its clear stands. */
  function RefuseReport(c: DumpState, r: A.ClearReport): DumpState {
    c.(refusals := c.refusals + [r])
  }

  lemma RefusedReportKeepsInv(a: A.ArenaState, c: DumpState, id: u64, decisionId: nat, r: A.ClearReport)
    requires InvInHand(a, c, id, decisionId, r) && r.cumulativeDropped < c.acknowledged
    ensures Inv(a, RefuseReport(c, r), None, id, decisionId)
  {
    hide Caused, E.Kept, E.RetainedStart, E.Epoch.Oldest, Justified, Stretch, Explained;
    var g, c' := a.worker.geometry, RefuseReport(c, r);
    StretchGrows(g, c.refusals, r, Frontier(c));
    JustifiedStays(g, c.bookings, c.refusals, r);
    if c.frozen.Some? {
      var d := c.frozen.value.frozen.descriptor;
      ExplainedStays(g, c.refusals, r, c.Cursor(), d.start, d.end);
    }
    assert Situation(a, c', None);
    assert Clears(a, c', id);
  }

  // ---- committing the frozen transaction ----

  lemma BookEntry(a: A.ArenaState, c: DumpState, c': DumpState, e: Entry)
    requires Books(a, c) && c'.ledger == c.ledger + [e]
    requires e.losses.retention == c.pendingRetention + (c'.Cursor() - c.Cursor() - e.Length())
    requires e.losses.cleared == c.pendingCleared
    requires e.losses.dropped == c'.acknowledged - c.acknowledged
    requires c'.pendingRetention == c'.pendingCleared == 0
    requires c.Cursor() <= c'.Cursor() <= |a.worker.log|
    requires c'.acknowledged <= a.cumulativeDropped
    requires e.Committed? ==>
               && c.Cursor() <= e.start <= e.exportStart <= e.end == c'.Cursor()
               && e.start < e.end
               && e.frames == a.worker.log[e.start..e.end]
    ensures Books(a, c')
  {
    TotalsAppend(c.ledger, e);
    IncreasingAppend(c.ledger, c.Cursor(), e, c'.Cursor());
    FaithfulAppend(c.ledger, e, a.worker.log);
  }

  lemma IncreasingAppend(ledger: seq<Entry>, bound: int, e: Entry, bound': int)
    requires Increasing(ledger, bound) && bound <= bound'
    requires e.Committed? ==> bound <= e.start && e.end <= bound'
    ensures Increasing(ledger + [e], bound')
  {
    var all := ledger + [e];
    forall i, j | 0 <= i < j < |all| && all[i].Committed? && all[j].Committed?
      ensures all[i].end <= all[j].start
    {
      assert all[i] == ledger[i];
      assert j < |ledger| ==> all[j] == ledger[j];
    }
  }

  lemma FaithfulAppend(ledger: seq<Entry>, e: Entry, log: seq<Frame>)
    requires Faithful(ledger, log)
    requires e.Committed? ==> e.start < e.end <= |log| && e.start <= e.exportStart <= e.end
                              && e.frames == log[e.start..e.end]
    ensures Faithful(ledger + [e], log)
  {
    var all := ledger + [e];
    forall i | 0 <= i < |all| && all[i].Committed?
      ensures all[i].start < all[i].end <= |log| && all[i].frames == log[all[i].start..all[i].end]
    {
      assert i < |ledger| ==> all[i] == ledger[i];
    }
  }

  /** The state after the frozen range was published or intentionally omitted:
      losses booked, the cursor at its end, and the completion slot reserved for
      the guard that now owns the transaction. */
  function CommitFrozen(c: DumpState, cumulative: u64, kind: Kind, frames: seq<Frame>): (DumpState, Entry)
    requires c.frozen.Some?
    requires PrevalidateLossCommit(c, cumulative, c.frozen.value.retentionLost).Some?
  {
    var t := c.frozen.value;
    var d := t.frozen.descriptor;
    var losses := LossesOf(cumulative, PrevalidateLossCommit(c, cumulative, t.retentionLost).value);
    var entry := Committed(kind, d.start, d.end, if t.decision.valid then t.decision.exportStart else d.start,
                           frames, losses);
    (CommitLosses(c, cumulative).(
       committed := Some(d.end), frozen := None, indeterminate := false,
       inProgress := true, completion := Some(Delivering), ledger := c.ledger + [entry],
       bookings := c.bookings + [Booking(c.Cursor(), d.start, d.end, false)]),
     entry)
  }

  /** The checks that run after publication cannot fail: the counters they guard
      are bounded by the cursor, and the drop counter never falls behind. */
  lemma PostPublicationChecksPass(a: A.ArenaState, c: DumpState, g: Option<Transaction>, id: u64,
                                  decisionId: nat, cumulative: u64)
    requires Inv(a, c, g, id, decisionId) && c.frozen.Some?
    requires a.cumulativeDropped <= cumulative
    ensures PrevalidateLossCommit(c, cumulative, c.frozen.value.retentionLost).Some?
    ensures !c.inProgress && c.completion.None? && c.pendingRelease.None?
    ensures c.frozen.value.decision.valid ==>
              var d := c.frozen.value.frozen.descriptor;
              d.start <= c.frozen.value.decision.exportStart <= c.frozen.value.decision.exportEnd == d.end
  {
    hide Caused, Justified, Stretch, Explained, E.RetainedStart, E.Epoch.Oldest;
  }

  lemma CommitFrozenKeepsCauses(a: A.ArenaState, c: DumpState, c': DumpState, entry: Entry)
    requires Standing(a, c, None) && Causes(a, c) && c.frozen.Some?
    requires var d := c.frozen.value.frozen.descriptor;
             && entry.Committed? && entry.start == d.start && entry.end == d.end
             && entry.losses.retention == c.pendingRetention + c.frozen.value.retentionLost
             && entry.losses.cleared == c.pendingCleared
             && c'.bookings == c.bookings + [Booking(c.Cursor(), d.start, d.end, false)]
             && c'.ledger == c.ledger + [entry] && c'.Cursor() == d.end && c'.frozen.None? && c'.refusals == c.refusals
             && c'.pendingRetention == c'.pendingCleared == 0
    ensures Causes(a, c')
  {
    var d := c.frozen.value.frozen.descriptor;
    var b := Booking(c.Cursor(), d.start, d.end, false);
    BookRange(c.bookings, c.ledger, c.Cursor(), c.pendingRetention, c.pendingCleared, b, entry);
    JustifiedAppends(a.worker.geometry, c.bookings, b, c.refusals);
  }

  lemma CommitFrozenKeepsInv(a: A.ArenaState, c: DumpState, id: u64, decisionId: nat, cumulative: u64,
                             kind: Kind, frames: seq<Frame>)
    requires Inv(a, c, None, id, decisionId) && c.frozen.Some? && c.pendingClear.None?
    requires c.acknowledged <= cumulative <= a.cumulativeDropped
    requires var d := c.frozen.value.frozen.descriptor;
             d.end <= |a.worker.log| && frames == a.worker.log[d.start..d.end]
    ensures PrevalidateLossCommit(c, cumulative, c.frozen.value.retentionLost).Some?
    ensures Inv(a, CommitFrozen(c, cumulative, kind, frames).0, c.frozen, id, decisionId)
  {
    hide Caused, Justified, E.Kept, Clears;
    var (c', entry) := CommitFrozen(c, cumulative, kind, frames);
    BookEntry(a, c, c', entry);
    CommitFrozenKeepsCauses(a, c, c', entry);
    ClearsUntouched(a, c, c', id);
    assert Shape(c', c.frozen, decisionId);
    assert Situation(a, c', c.frozen);
  }

  /** Reporting that nothing new was captured only moves pending losses into the
      caller's hands. */
  function CommitNothingNew(c: DumpState, cumulative: u64): (DumpState, Entry)
    requires PrevalidateLossCommit(c, cumulative, 0).Some?
  {
    var entry := NothingNew(LossesOf(cumulative, PrevalidateLossCommit(c, cumulative, 0).value));
    (CommitLosses(c, cumulative).(ledger := c.ledger + [entry]), entry)
  }

  lemma CommitNothingNewKeepsInv(a: A.ArenaState, c: DumpState, id: u64, decisionId: nat)
    requires Inv(a, c, None, id, decisionId) && c.pendingClear.None?
    ensures PrevalidateLossCommit(c, a.cumulativeDropped, 0).Some?
    ensures Inv(a, CommitNothingNew(c, a.cumulativeDropped).0, None, id, decisionId)
  {
    hide Caused, Justified, Stretch, Explained, E.RetainedStart, E.Epoch.Oldest, Clears;
    var (c', entry) := CommitNothingNew(c, a.cumulativeDropped);
    hide Caused, Justified, E.Kept;
    BookEntry(a, c, c', entry);
    BookNothing(c.bookings, c.ledger, c.Cursor(), c.pendingRetention, c.pendingCleared, entry);
    ClearsUntouched(a, c, c', id);
    assert Situation(a, c', None);
  }

  /** Taking ownership of a fresh frozen epoch. */
  function AdoptFrozen(c: DumpState, f: A.FrozenEpoch): DumpState
    requires c.reusable.Some?
  {
    c.(frozen := Some(Transaction(f, SatSub(f.descriptor.start, c.Cursor()), c.reusable.value)),
       reusable := None)
  }

  lemma AdoptFrozenKeepsInv(a: A.ArenaState, a': A.ArenaState, c: DumpState, id: u64, decisionId: nat,
                            f: A.FrozenEpoch)
    requires Inv(a, c, None, id, decisionId) && A.Grows(a, a')
    requires c.frozen.None? && c.completion.None? && c.pendingRelease.None? && c.pendingClear.None?
    requires f == A.FrozenEpoch(a'.runtimeId, f.descriptor, false, false)
    requires A.FreezeDone(a', c.committed, Ok(A.FrozenReply(Some(f.descriptor))), Mark(c))
    ensures Inv(a', AdoptFrozen(c, f), None, id, decisionId)
  {
    hide Caused, Justified, Stretch, Explained, E.RetainedStart, E.Epoch.Oldest, Clears;
    BooksGrow(a, a', c);
    var c' := AdoptFrozen(c, f);
    AdoptExplained(a'.worker, c, f.descriptor);
    ClearsGrow(a, a', c, id);
    ClearsUntouched(a', c, c', id);
    assert Situation(a', c', None);
    assert Books(a', c');
  }

  lemma AdoptExplained(w: E.Worker, c: DumpState, d: E.Descriptor)
    requires c.frozen.None? && E.Whole(w, d, c.committed, Mark(c)) && Mark(c) <= d.end
    requires Stretch(w.geometry, c.refusals, Frontier(c))
    ensures Explained(w.geometry, c.refusals, c.Cursor(), d.start, d.end) && Stretch(w.geometry, c.refusals, d.end)
  {
    hide E.RetainedStart, E.Epoch.Oldest;
    E.WholeKept(w, d, c.committed, Mark(c));
    KeptExplained(w.geometry, c.refusals, c.Cursor(), d.start, d.end);
  }

  /** A move of the arena alone keeps the invariant when it keeps the situation. */
  lemma ArenaMoved(a: A.ArenaState, a': A.ArenaState, c: DumpState, g: Option<Transaction>, id: u64,
                   decisionId: nat)
    requires Inv(a, c, g, id, decisionId) && A.Grows(a, a') && Situation(a', c, g)
    ensures Inv(a', c, g, id, decisionId)
  {
    hide Caused, Justified, Stretch, Explained, E.RetainedStart, E.Epoch.Oldest, Clears, Mark;
    BooksGrow(a, a', c);
    ClearsGrow(a, a', c, id);
  }

  /** After asking for a lost report the coordinator is either still waiting,
      free of the clear, or has the report in hand. */
  lemma ClearRecoveryKeepsInv(a: A.ArenaState, a': A.ArenaState, c: DumpState, id: u64, decisionId: nat,
                              r: Result<Option<A.ClearReport>, A.Error>)
    requires Inv(a, c, None, id, decisionId) && A.Grows(a, a') && c.pendingClear.Some?
    requires A.ClearRecoveryDone(a', c.pendingClear.value.accounting, c.committed,
                                 CapabilityDescriptor(c, None), Mark(c), c.pendingClear.value.counted, r)
    ensures r.Err? ==> Inv(a', c, None, id, decisionId)
    ensures r == Ok(None) ==> Inv(a', c.(pendingClear := None), None, id, decisionId)
    ensures r.Ok? && r.value.Some? ==> InvInHand(a', c, id, decisionId, r.value.value)
  {
    hide Caused, Justified, Stretch, Explained, E.Kept, E.RetainedStart, E.Epoch.Oldest, Clears;
    BooksGrow(a, a', c);
    ClearsGrow(a, a', c, id);
    if r == Ok(None) {
      ClearsUntouched(a', c, c.(pendingClear := None), id);
      assert Situation(a', c.(pendingClear := None), None);
    }
  }

  /** Classifying or reusing the decision keeps the transaction sound. */
  lemma ClassifyKeepsInv(a: A.ArenaState, c: DumpState, id: u64, decisionId: nat, crop: u64)
    requires Inv(a, c, None, id, decisionId) && c.frozen.Some? && c.pendingClear.None?
    ensures Inv(a, Classified(c, crop), None, id, decisionId)
  {
    hide Caused, Justified, Stretch, Explained, E.RetainedStart, E.Epoch.Oldest, Clears;
    ClearsUntouched(a, c, Classified(c, crop), id);
    assert Situation(a, Classified(c, crop), None);
  }

  function Classified(c: DumpState, crop: u64): (c': DumpState)
    requires c.frozen.Some? && c.frozen.value.frozen.descriptor.start <= c.frozen.value.frozen.descriptor.end
    ensures SameBooks(c, c')
  {
    var t := c.frozen.value;
    var d := t.frozen.descriptor;
    c.(frozen := Some(t.(decision := Classify(t.decision, d.start, d.end, crop))))
  }

  lemma IndeterminateKeepsInv(a: A.ArenaState, c: DumpState, id: u64, decisionId: nat, pending: bool)
    requires Inv(a, c, None, id, decisionId) && c.frozen.Some? && c.pendingClear.None?
    requires pending ==> c.frozen.value.decision.valid
    ensures Inv(a, c.(indeterminate := pending), None, id, decisionId)
  {
    hide Caused, Justified, Stretch, Explained, E.RetainedStart, E.Epoch.Oldest, Clears;
    ClearsUntouched(a, c, c.(indeterminate := pending), id);
    assert Situation(a, c.(indeterminate := pending), None);
  }

  /** After delivery every authority is back in the state: the decision reset,
      and the frozen epoch released or parked for retry. */
  function Settled(c: DumpState, t: Transaction, f: A.FrozenEpoch, released: bool): DumpState {
    if released then
      c.(completion := None, inProgress := false, reusable := Some(t.decision.Reset()))
    else c.(completion := Some(Finalized(t.decision.Reset(), Some(f))))
  }

  lemma SettledKeepsInv(a: A.ArenaState, a': A.ArenaState, c: DumpState, t: Transaction, id: u64,
                        decisionId: nat, f: A.FrozenEpoch, released: bool)
    requires Inv(a, c, Some(t), id, decisionId) && A.Grows(a, a')
    requires A.ReleaseDone(a', t.frozen.descriptor, released, Mark(c))
    requires !released ==> f.descriptor == t.frozen.descriptor && Usable(a', f)
    ensures Inv(a', Settled(c, t, f, released), None, id, decisionId)
  {
    hide Caused, Justified, Stretch, Explained, E.RetainedStart, E.Epoch.Oldest, Clears;
    BooksGrow(a, a', c);
    ClearsGrow(a, a', c, id);
    ClearsUntouched(a', c, Settled(c, t, f, released), id);
    assert Situation(a', Settled(c, t, f, released), None);
  }

  lemma PendingReleaseHeld(a: A.ArenaState, c: DumpState, g: Option<Transaction>, id: u64, decisionId: nat)
    requires Inv(a, c, g, id, decisionId) && c.pendingRelease.Some?
    ensures A.Valid(a) && Usable(a, c.pendingRelease.value) && A.Held(a, c.pendingRelease.value.descriptor, Mark(c))
  {
  }

  /** Retrying the release a clear left behind. */
  lemma ParkedReleaseKeepsInv(a: A.ArenaState, a': A.ArenaState, c: DumpState, g: Option<Transaction>, id: u64,
                              decisionId: nat, f: A.FrozenEpoch, released: bool)
    requires Inv(a, c, g, id, decisionId) && A.Grows(a, a') && c.pendingRelease.Some?
    requires var was := c.pendingRelease.value;
             && A.ReleaseDone(a', was.descriptor, released, Mark(c))
             && (!released ==> f.descriptor == was.descriptor && Usable(a', f))
    ensures Inv(a', c.(pendingRelease := if released then None else Some(f)), g, id, decisionId)
  {
    hide Caused, Justified, Stretch, Explained, E.RetainedStart, E.Epoch.Oldest, Clears;
    var c' := c.(pendingRelease := if released then None else Some(f));
    BooksGrow(a, a', c);
    ClearsGrow(a, a', c, id);
    ClearsUntouched(a', c, c', id);
    assert Situation(a', c', g);
  }

  /** Retrying the release parked by an earlier delivery. */
  lemma RetriedReleaseKeepsInv(a: A.ArenaState, a': A.ArenaState, c: DumpState, id: u64, decisionId: nat,
                               f: A.FrozenEpoch, released: bool)
    requires Inv(a, c, None, id, decisionId) && A.Grows(a, a')
    requires c.completion.Some? && c.completion.value.Finalized?
    requires var was := c.completion.value.failedRelease.value;
             && A.ReleaseDone(a', was.descriptor, released, Mark(c))
             && (!released ==> f.descriptor == was.descriptor && Usable(a', f))
    ensures Inv(a', Retried(c, f, released), None, id, decisionId)
  {
    hide Caused, Justified, Stretch, Explained, E.RetainedStart, E.Epoch.Oldest, Clears;
    BooksGrow(a, a', c);
    ClearsGrow(a, a', c, id);
    ClearsUntouched(a', c, Retried(c, f, released), id);
    assert Situation(a', Retried(c, f, released), None);
  }

  function Retried(c: DumpState, f: A.FrozenEpoch, released: bool): DumpState
    requires c.completion.Some? && c.completion.value.Finalized?
  {
    var decision := c.completion.value.resetDecision;
    if released then c.(completion := None, inProgress := false, reusable := Some(decision))
    else c.(completion := Some(Finalized(decision, Some(f))))
  }

  /** An open transaction can be read, and reads the log. */
  lemma FrozenReadable(a: A.ArenaState, c: DumpState, id: u64, decisionId: nat)
    requires Inv(a, c, None, id, decisionId) && c.frozen.Some? && c.pendingClear.None?
    ensures var d := c.frozen.value.frozen.descriptor;
            && A.Valid(a) && c.acknowledged <= a.cumulativeDropped
            && E.Describes(a.worker, d) && d.start < d.end <= |a.worker.log|
            && E.ReadFrozen(a.worker, d, d.start, d.end) == a.worker.log[d.start..d.end]
  {
    hide Caused, Justified, Stretch, Explained, E.RetainedStart, E.Epoch.Oldest;
    var d := c.frozen.value.frozen.descriptor;
    E.ReadIsLog(a.worker, d, d.start, d.end);
  }

  // ---- clear requests ----

  /** What a clear asks the worker to account for: a frozen transaction's own
      frames and losses are folded in, and counting resumes at its end. */
  function ClearAccounting(c: DumpState, runtimeId: u64, id: u64): (acc: A.Accounting)
    requires c.nextClearId < U64_MAX
    requires c.frozen.Some? ==>
               var d := c.frozen.value.frozen.descriptor;
               && d.start <= d.end
               && c.pendingRetention + c.frozen.value.retentionLost <= U64_MAX
               && c.pendingCleared + (d.end - d.start) <= U64_MAX
  {
    if c.frozen.None? then
      A.Accounting(runtimeId, id, c.nextClearId + 1, c.Cursor(), c.pendingRetention, c.pendingCleared)
    else
      var d := c.frozen.value.frozen.descriptor;
      A.Accounting(runtimeId, id, c.nextClearId + 1, d.end,
                   c.pendingRetention + c.frozen.value.retentionLost,
                   c.pendingCleared + (d.end - d.start))
  }

  /** The checked additions of a clear request never overflow. */
  lemma ClearAdditionsFit(a: A.ArenaState, c: DumpState)
    requires Books(a, c) && c.frozen.Some? && Continues(c, c.frozen.value)
    ensures var d := c.frozen.value.frozen.descriptor;
            && c.pendingRetention + c.frozen.value.retentionLost <= U64_MAX
            && c.pendingCleared + (d.end - d.start) <= U64_MAX
  {
  }

  function AskClear(c: DumpState, acc: A.Accounting, counted: nat): DumpState {
    c.(nextClearId := acc.clearId,
       pendingClear := Some(PendingClear(
         acc.clearId, c.Cursor(), acc,
         if c.frozen.Some? then Some(c.frozen.value.frozen.descriptor.end) else None,
         c.acknowledged, counted)))
  }

  predicate ReadyToClear(c: DumpState) {
    && c.completion.None? && c.pendingRelease.None? && c.pendingClear.None? && !c.indeterminate
    && c.nextClearId < U64_MAX
  }

  lemma AskClearKeepsInv(a: A.ArenaState, c: DumpState, id: u64, decisionId: nat, counted: nat)
    requires Inv(a, c, None, id, decisionId) && ReadyToClear(c)
    requires counted <= a.ingressDropped + a.workerDropped
    ensures c.frozen.Some? ==> ClearAccounting.requires(c, a.runtimeId, id)
    ensures var acc := ClearAccounting(c, a.runtimeId, id);
            && Inv(a, AskClear(c, acc, counted), None, id, decisionId)
            && A.MayClear(a, acc, c.committed, CapabilityDescriptor(AskClear(c, acc, counted), None), Mark(c), counted)
  {
    hide Caused, Justified, Stretch, Explained, E.RetainedStart, E.Epoch.Oldest;
    if c.frozen.Some? {
      ClearAdditionsFit(a, c);
    }
    var c' := AskClear(c, ClearAccounting(c, a.runtimeId, id), counted);
    assert Situation(a, c', None);
    assert Clears(a, c', id);
  }

  lemma ClearAnswerKeepsInv(a: A.ArenaState, a': A.ArenaState, c: DumpState, id: u64, decisionId: nat,
                            r: Result<A.ClearReport, A.Error>)
    requires Inv(a, c, None, id, decisionId) && c.pendingClear.Some? && A.Grows(a, a')
    requires var acc, cap := c.pendingClear.value.accounting, CapabilityDescriptor(c, None);
             && acc.expectedStart <= |a.worker.log|
             && A.ClearDone(a', acc, c.committed, cap, Mark(c), c.pendingClear.value.counted, |a.worker.log|,
                            A.AnswerOf(r))
    ensures r.Err? ==> Inv(a', c, None, id, decisionId)
    ensures r.Err? && r.error != A.CommandTimedOut ==> Inv(a', c.(pendingClear := None), None, id, decisionId)
    ensures r.Ok? ==> InvInHand(a', c, id, decisionId, r.value)
  {
    hide Caused, Justified, Stretch, Explained, E.Kept, E.RetainedStart, E.Epoch.Oldest, Clears;
    BooksGrow(a, a', c);
    ClearsGrow(a, a', c, id);
    if r.Err? && r.error != A.CommandTimedOut {
      ClearsUntouched(a', c, c.(pendingClear := None), id);
      assert Situation(a', c.(pendingClear := None), None);
    }
  }

  /** The loss counters of a pending clear have room for all captured frames. */
  lemma RoomForLosses(a: A.ArenaState, c: DumpState, id: u64, decisionId: nat, r: Result<A.ClearReport, A.Error>)
    requires c.pendingClear.Some? && (r.Err? ==> Inv(a, c, None, id, decisionId))
    ensures r.Err? ==> !A.Exhausted(a, c.pendingClear.value.accounting)
  {
    hide Caused, Justified, Stretch, Explained, E.Kept, E.RetainedStart, E.Epoch.Oldest;
  }

  /** A clear carried out while the counters are in step is never refused: its
      report carries the cumulative counter, which is never behind what was
      acknowledged. */
  lemma InStepClearIsBooked(a: A.ArenaState, c: DumpState, id: u64, decisionId: nat, counted: nat)
    requires Inv(a, c, None, id, decisionId) && ReadyToClear(c)
    requires a.ingressDropped + a.workerDropped == a.cumulativeDropped
    ensures c.frozen.Some? ==> ClearAccounting.requires(c, a.runtimeId, id)
    ensures c.acknowledged <= CountedFor(c, a)
    ensures var acc := ClearAccounting(c, a.runtimeId, id);
            var report := A.ClearReportOf(a, a.ingressDropped, acc);
            && report.Some? && report.value.cumulativeDropped == a.cumulativeDropped
            && ValidateClearReport(a, AskClear(c, acc, counted), id, report.value)
  {
    hide Caused, Justified, Stretch, Explained, E.Kept, E.RetainedStart, E.Epoch.Oldest;
    if c.frozen.Some? {
      ClearAdditionsFit(a, c);
    }
  }

  // ---- what the invariant means ----

  function Lost(ledger: seq<Entry>): int {
    if ledger == [] then 0
    else
      var e := ledger[|ledger| - 1];
      Lost(ledger[..|ledger| - 1]) + e.losses.retention + e.losses.cleared
  }

  lemma {:induction false} CoveredOnce(ledger: seq<Entry>, bound: int)
    requires Increasing(ledger, bound)
    requires forall i :: 0 <= i < |ledger| && ledger[i].Committed? ==> ledger[i].start < ledger[i].end
    ensures |Covered(ledger)| + Lost(ledger) == Total(ledger)
    ensures forall k :: k in Covered(ledger) ==> 0 <= k < bound
    decreases |ledger|
  {
    hide Positions;
    if ledger != [] {
      var n := |ledger| - 1;
      var rest, e := ledger[..n], ledger[n];
      if e.Committed? {
        assert Increasing(rest, e.start) by {
          forall i | 0 <= i < |rest| && rest[i].Committed? ensures rest[i].end <= e.start {
            assert rest[i] == ledger[i];
          }
        }
        CoveredOnce(rest, e.start);
        assert Covered(rest) !! Positions(e.start, e.end);
      } else {
        CoveredOnce(rest, bound);
      }
    }
  }

  /** Exactly once, in every reachable state: the captured frames below the
      cursor are those in committed ranges, those lost to retention and those
      removed by clears, without overlap; retention losses and clears are
      reported or pending under their own names; and nothing at or beyond the
      cursor was consumed. */
  lemma EveryFrameOnce(a: A.ArenaState, c: DumpState)
    requires Books(a, c) && Causes(a, c)
    ensures Covered(c.ledger) + Where(c.bookings, LostToRetention) + Where(c.bookings, Cleared)
         == Positions(0, c.Cursor())
    ensures Covered(c.ledger) !! Where(c.bookings, LostToRetention) !! Where(c.bookings, Cleared)
    ensures |Where(c.bookings, LostToRetention)| == RetentionOf(c.ledger) + c.pendingRetention
    ensures |Where(c.bookings, Cleared)| == ClearedOf(c.ledger) + c.pendingCleared
    ensures |Covered(c.ledger)| + Lost(c.ledger) + c.pendingRetention + c.pendingCleared == c.Cursor()
    ensures c.Cursor() <= |a.worker.log|
  {
    CoveredOnce(c.ledger, c.Cursor());
    ChainedOrdered(c.bookings, c.Cursor());
    ChainedPartition(c.bookings, c.Cursor());
  }

  lemma BooksMean(a: A.ArenaState, c: DumpState, g: Option<Transaction>, id: u64, decisionId: nat)
    requires Inv(a, c, g, id, decisionId)
    ensures |Covered(c.ledger)| + Lost(c.ledger) + c.pendingRetention + c.pendingCleared == c.Cursor()
    ensures |Where(c.bookings, LostToRetention)| == RetentionOf(c.ledger) + c.pendingRetention
    ensures |Where(c.bookings, Cleared)| == ClearedOf(c.ledger) + c.pendingCleared
  {
    EveryFrameOnce(a, c);
  }

  /** A frame counted as lost to retention had left the ring when the range after
      it was taken: the log then ended more than a ring's guaranteed content
      later.  The one exception is a frame removed by an executed clear of this
      coordinator whose report the drop test refused. */
  lemma LossHadLeftTheRing(a: A.ArenaState, c: DumpState, id: u64, k: nat)
    requires Causes(a, c) && Clears(a, c, id) && k in Where(c.bookings, LostToRetention)
    ensures (exists i :: 0 <= i < |c.bookings| && Overwritten(a.worker.geometry, c.bookings[i], k))
            || exists i :: 0 <= i < |c.refusals| && RefusedClear(a, c, id, c.refusals[i]) && RemovedBy(c.refusals[i], k)
  {
    var i := FateOf(c.bookings, LostToRetention, k);
    assert Explained(a.worker.geometry, c.refusals, c.bookings[i].start, c.bookings[i].kept, c.bookings[i].end);
    assert Gone(a.worker.geometry, c.refusals, k, c.bookings[i].end);
    if !Removed(c.refusals, k) {
      assert Overwritten(a.worker.geometry, c.bookings[i], k);
    } else {
      var j :| 0 <= j < |c.refusals| && RemovedBy(c.refusals[j], k);
      assert RefusedClear(a, c, id, c.refusals[j]);
    }
  }

  predicate Overwritten(g: E.Geometry, b: Booking, k: nat)
    requires g.Valid()
  {
    b.start <= k < b.kept <= b.end && k + g.Guaranteed() < b.end
  }

  /** A clear the worker carried out for this coordinator, with a report that
      fell behind the drops acknowledged. */
  predicate RefusedClear(a: A.ArenaState, c: DumpState, id: u64, r: A.ClearReport) {
    && A.ClearExecuted(r) in a.executed && r.coordinatorId == id && r.runtimeId == a.runtimeId
    && r.cumulativeDropped < c.acknowledged
  }

  /** The booking that decided the fate of a frame. */
  lemma FateOf(bookings: seq<Booking>, fate: Fate, k: int) returns (i: nat)
    requires k in Where(bookings, fate)
    ensures i < |bookings| && k in Part(bookings[i], fate)
    decreases |bookings|
  {
    var n := |bookings| - 1;
    if k in Part(bookings[n], fate) {
      i := n;
    } else {
      i := FateOf(bookings[..n], fate, k);
    }
  }

  /** Two frames in a ring for sixteen, and, later, the ring cleared with one
      frame more. */
  function Filled(f: Frame): (w: E.Worker)
    ensures w.Valid() && w.log == [f, f] && w.frozen.None? && w.Mark() == 0 && w.geometry == E.Geometry(4, 4)
    ensures w.ActiveStart() == 0
  {
    assert E.RetainedStart(E.Geometry(4, 4), 2) == 0;
    E.Push(E.Start(E.Geometry(4, 4)), [f, f])
  }

  function Refilled(f: Frame): (w: E.Worker)
    ensures w.Valid() && |w.log| == 3 && w.frozen.None? && w.ActiveStart() == 2 && w.nextGeneration == 1
  {
    assert E.RetainedStart(E.Geometry(4, 4), 3) == 0;
    E.Push(E.Clear(Filled(f)), [f])
  }

  /** One drop is acknowledged from the cumulative counter before its cause was
      counted. */
  function DropAhead(f: Frame): A.ArenaState {
    A.ArenaState(1, Filled(f), false, 1, 0, 0, A.Idle, None, None, [])
  }

  function DropAcknowledged(): DumpState {
    Start(0).(acknowledged := 1, ledger := [NothingNew(Losses(0, 0, 1))])
  }

  lemma DropAheadInv(f: Frame, id: u64)
    ensures Inv(DropAhead(f), DropAcknowledged(), None, id, 0)
  {
    hide Filled;
    var a, c := DropAhead(f), DropAcknowledged();
    assert c.ledger[..0] == [];
    assert Books(a, c) && Causes(a, c);
  }

  /** The exception happens: from that sound state the next clear reports one drop
      less and is refused, and its two frames come back as lost to retention
      although the ring was almost empty. */
  lemma RefusedClearReportedAsLoss(f: Frame, id: u64)
    ensures var a, c := DropAhead(f), DropAcknowledged();
            var acc := ClearAccounting(c, 1, id);
            var r := A.ClearReportOf(a, a.ingressDropped, acc);
            var d := E.Freeze(Refilled(f), c.committed).1.descriptor;
            && Inv(a, c, None, id, 0)
            && r.Some? && !ValidateClearReport(a, AskClear(c, acc, 0), id, r.value)
            && d.Some? && AdoptFrozen(c, A.FrozenEpoch(1, d.value, false, false)).frozen.value.retentionLost == 2
  {
    hide Inv, Filled, Refilled, E.RetainedStart, E.Epoch.Oldest;
    DropAheadInv(f, id);
    assert E.Freeze(Refilled(f), None).1.descriptor.Some?;
  }

  /** Every buffer that holds the reusable decision. */
  function DecisionHolders(c: DumpState, g: Option<Transaction>): seq<nat> {
    (if c.reusable.Some? then [c.reusable.value.storageId] else [])
    + (if c.frozen.Some? then [c.frozen.value.decision.storageId] else [])
    + (if g.Some? then [g.value.decision.storageId] else [])
    + (if c.completion.Some? && c.completion.value.Finalized? then [c.completion.value.resetDecision.storageId] else [])
  }

  /** Every place a frozen capability can be: the transaction, the guard, the
      two release slots, and an unclaimed freeze inside the arena. */
  function CapabilityHolders(a: A.ArenaState, c: DumpState, g: Option<Transaction>): seq<E.Descriptor> {
    (if c.frozen.Some? then [c.frozen.value.frozen.descriptor] else [])
    + (if g.Some? then [g.value.frozen.descriptor] else [])
    + (if c.pendingRelease.Some? then [c.pendingRelease.value.descriptor] else [])
    + (if c.completion.Some? && c.completion.value.Finalized? && c.completion.value.failedRelease.Some?
       then [c.completion.value.failedRelease.value.descriptor] else [])
    + (if A.PhaseOf(a).HeldFreeze? then [A.PhaseOf(a).descriptor] else [])
  }

  /** Linear authorities: one decision, in one place; a frozen epoch has exactly
      one matching capability; and a capability outlives the worker's record
      only while the answer to its own release is unclaimed. */
  lemma LinearAuthorities(a: A.ArenaState, c: DumpState, g: Option<Transaction>, id: u64, decisionId: nat)
    requires Inv(a, c, g, id, decisionId)
    ensures DecisionHolders(c, g) == [decisionId]
    ensures var holders := CapabilityHolders(a, c, g);
            && (a.worker.frozen.Some? ==> |holders| == 1 && E.Describes(a.worker, holders[0]))
            && (a.worker.frozen.None? ==>
                  if A.PhaseOf(a).ReleaseAnswered? then |holders| == 1 else holders == [])
  {
    hide Caused, Justified, Stretch, Explained, E.RetainedStart, E.Epoch.Oldest;
    assert Capability(c, g).None? ==> c.frozen.None? && g.None? && c.pendingRelease.None?;
  }

  // ---- the coordinator object ----

  datatype Error =
    | ArenaError(error: A.Error)
    | PendingClearFirst
    | PendingClearLost
    | ClearReportMismatch
    | ClearIdsExhausted
    | DeliveryActive
    | IndeterminatePublication
    | PrepareFailed
    | PublicationFailed

  /** Failures that precede preparation and publication. */
  predicate Early(e: Error) { !e.PrepareFailed? && !e.PublicationFailed? && !e.IndeterminatePublication? }

  /** Drops counted by cause when the clear that is pending, or else the next one,
      was asked for. */
  function CountedFor(c: DumpState, a: A.ArenaState): nat {
    if c.pendingClear.Some? then c.pendingClear.value.counted else a.ingressDropped + a.workerDropped
  }

  function IdentityOf(acc: A.Accounting): A.ClearIdentity {
    A.ClearIdentity(acc.runtimeId, acc.coordinatorId, acc.clearId)
  }

  /** The arena's own reasons: the command of this kind, a release that no wait may
      cut short, or the report of a pending clear. */
  predicate Withheld(was: DumpState, a: A.ArenaState, kind: Option<A.Kind>, error: A.Error, prompt: bool) {
    || (kind.Some? && A.Because(a, kind.value, error, prompt))
    || (!prompt && A.Because(a, A.KRelease, error, false))
    || (was.pendingClear.Some? && A.Unrecovered(a, IdentityOf(was.pendingClear.value.accounting), error, prompt))
  }

  /** Every authority is home and no clear is pending. */
  predicate Home(c: DumpState) { c.completion.None? && c.pendingRelease.None? && c.pendingClear.None? }

  predicate FreezeBlocked(a: A.ArenaState, error: A.Error, prompt: bool) {
    A.Because(a, A.KFreeze, error, prompt) && A.Unhindered(error)
  }

  /** A freeze takes everything captured before it was asked for, or the epoch that
      an earlier caller left unclaimed. */
  predicate Takes(a0: A.ArenaState, d: E.Descriptor) {
    match A.PhaseOf(a0)
    case Quiet => |a0.worker.log| <= d.end
    case HeldFreeze(held) => d == held
    case _ => true
  }

  /** Why the arena failed a clear of a coordinator whose authorities are home: full
      loss counters are never the reason. */
  predicate ClearBlocked(a0: A.ArenaState, a: A.ArenaState, error: A.Error, prompt: bool) {
    && A.Because(a, A.KClear, error, prompt)
    && (A.PhaseOf(a0).Quiet? ==> A.Unhindered(error))
    && (error == A.WorkerRefused(A.LossOverflow) ==> A.SlotKind(a0.slot, A.KClear))
  }

  /** What a failed clear leaves: it stays pending exactly when it may have been
      carried out, or be carried out yet, for all that the coordinator can tell. */
  predicate ClearGivenUp(was: DumpState, c: DumpState, e: Error) {
    && c == was.(pendingClear := c.pendingClear, nextClearId := c.nextClearId, refusals := c.refusals)
    && match e
       case ArenaError(error) => (c.pendingClear.Some? <==> error.CommandTimedOut? || error.ClientTimedOut?)
       case ClearReportMismatch => c.pendingClear.Some? && |c.refusals| == |was.refusals| + 1
       case _ => c == was
  }

  /** Why authorities could not be brought home. */
  predicate ReleaseBlocked(was: DumpState, a: A.ArenaState, e: Error, prompt: bool) {
    if was.completion == Some(Delivering) then e == DeliveryActive
    else e.ArenaError? && A.Because(a, A.KRelease, e.error, false) && !prompt
  }

  /** Why an operation failed early. */
  predicate Hinders(was: DumpState, a0: A.ArenaState, a: A.ArenaState, kind: Option<A.Kind>, e: Error, prompt: bool) {
    match e
    case ArenaError(error) => Withheld(was, a, kind, error, prompt)
    case PendingClearLost => was.pendingClear.Some? && a.slot.Idle? && a.recoveredClear.None?
    case ClearReportMismatch => CountedFor(was, a0) < was.acknowledged
    case DeliveryActive => was.completion == Some(Delivering)
    case _ => false
  }

  /** What the workspace makes of the frozen range; `crop` is where leading
      silence ends when the range is classified. */
  datatype Prepared =
    | PreparationError(classified: bool, crop: u64)
    | Silent(crop: u64)
    | ByPolicy(crop: u64)
    | Files(crop: u64, publication: Publication)

  datatype Publication = Published | RetryableFailure | Unsettled

  datatype PublicationRecovery = Complete | RolledBack | StillPending

  /** A valid decision is reused on retry; a fresh one exports a suffix of the
      consumed range. */
  function Classify(d: Decision, start: u64, end: u64, crop: u64): Decision
    requires start <= end
  {
    if d.valid then d else Decision(d.storageId, true, Max(start, Min(crop, end)), end)
  }

  /** What is reported of a range that was published or deliberately omitted. */
  function KindOf(prepared: Prepared): Kind {
    if prepared.ByPolicy? then SkippedByPolicy else if prepared.Silent? then SkippedSilent else Written
  }

  /** A retry continues the same transaction, with the decision once made. */
  predicate SameTransaction(t: Transaction, t': Transaction) {
    t'.frozen == t.frozen && t'.retentionLost == t.retentionLost && (t.decision.valid ==> t'.decision == t.decision)
  }

  /** The entry reports exactly the frozen range. */
  predicate Ranges(e: Entry, t: Transaction) {
    e.Committed? && e.start == t.frozen.descriptor.start && e.end == t.frozen.descriptor.end
  }

  /** The export starts where the transaction's decision says, or with the range
      when nothing was decided. */
  predicate Exported(e: Entry, t: Transaction)
    requires e.Committed?
  {
    if t.decision.valid then e.exportStart == t.decision.exportStart else e.exportStart == e.start
  }

  /** `x` is `crop`, or the end of the range that is nearest to it. */
  predicate Brought(x: nat, crop: nat, start: nat, end: nat) {
    if crop < start then x == start else if crop <= end then x == crop else x == end
  }

  /** A decision once made stands; a new one exports from the crop on. */
  predicate Decided(was: Transaction, t: Transaction, crop: nat) {
    var d := was.frozen.descriptor;
    && t.frozen == was.frozen && t.retentionLost == was.retentionLost && t.decision.valid
    && if was.decision.valid then t.decision == was.decision
       else Brought(t.decision.exportStart, crop, d.start, d.end)
  }

  /** An open transaction: the one that stood open, or a new one that takes all
      the ring held beyond the cursor. */
  predicate Open(was: DumpState, c: DumpState, a0: A.ArenaState, a: A.ArenaState) {
    && c.frozen.Some? && A.Valid(a) && FrozenStands(a, c, c.frozen.value)
    && SameBooks(was, c) && c.indeterminate == was.indeterminate
    && if was.frozen.Some? then c == was
       else !c.frozen.value.decision.valid && Takes(a0, c.frozen.value.frozen.descriptor)
  }

  /** Pending losses handed over without a range. */
  predicate Reporting(was: DumpState, c: DumpState, e: Entry) {
    && e.NothingNew? && c.ledger == was.ledger + [e] && c.refusals == was.refusals && c.committed == was.committed
    && c.pendingRetention == c.pendingCleared == 0
    && e.losses == Losses(was.pendingRetention, was.pendingCleared, e.losses.dropped)
    && e.losses.dropped == c.acknowledged - was.acknowledged
  }

  /** What committing transaction `t` reports and leaves. */
  predicate Committing(was: DumpState, c: DumpState, t: Transaction, e: Entry) {
    && Ranges(e, t) && Exported(e, t)
    && e.losses.retention == was.pendingRetention + t.retentionLost && e.losses.cleared == was.pendingCleared
    && e.losses.dropped == c.acknowledged - was.acknowledged
    && c.ledger == was.ledger + [e] && c.committed == Some(e.end) && c.refusals == was.refusals
    && c.pendingRetention == c.pendingCleared == 0 && c.completion == Some(Delivering) && !c.indeterminate
  }

  /** A failure consumes nothing and keeps the transaction for the retry. */
  predicate Kept(was: DumpState, c: DumpState) {
    was.pendingClear.None? ==>
      && SameBooks(was, c)
      && (was.frozen.Some? ==> c.frozen.Some? && SameTransaction(was.frozen.value, c.frozen.value))
  }

  /** Why a recall or dump failed. */
  predicate Explains(was: DumpState, c: DumpState, a0: A.ArenaState, a: A.ArenaState, prepared: Prepared,
                     e: Error, prompt: bool) {
    match e
    case PrepareFailed => prepared.PreparationError?
    case PublicationFailed => prepared.Files? && prepared.publication.RetryableFailure?
    case IndeterminatePublication =>
      c.indeterminate && (was.indeterminate || (prepared.Files? && prepared.publication.Unsettled?))
    case ArenaError(error) =>
      FreezeBlocked(a, error, prompt) || (!Home(was) && Withheld(was, a, None, error, prompt))
    case _ => Hinders(was, a0, a, None, e, prompt)
  }

  /** No range to report: nothing was captured beyond the cursor. */
  predicate NothingCaptured(was: DumpState, c: DumpState, a0: A.ArenaState, e: Entry) {
    && e.NothingNew? && c.ledger == was.ledger + [e]
    && c.pendingRetention == c.pendingCleared == 0
    && e.losses.dropped == c.acknowledged - was.acknowledged && a0.cumulativeDropped <= c.acknowledged
    && (was.pendingClear.None? ==> Reporting(was, c, e))
    && (Home(was) && !was.indeterminate && !A.SlotKind(a0.slot, A.KFreeze) ==> |a0.worker.log| <= Mark(was))
  }

  /** A range handed to its caller: the one frozen before when this is a retry, and
      otherwise everything captured before the call. */
  predicate Delivered(was: DumpState, c: DumpState, a0: A.ArenaState, t: Transaction, e: Entry, crop: nat) {
    && Ranges(e, t) && t.decision.valid && e.exportStart == t.decision.exportStart
    && c.ledger == was.ledger + [e] && c.committed == Some(e.end)
    && c.pendingRetention == c.pendingCleared == 0 && c.completion == Some(Delivering)
    && e.losses.dropped == c.acknowledged - was.acknowledged && a0.cumulativeDropped <= c.acknowledged
    && (was.pendingClear.None? ==> Committing(was, c, t, e))
    && (was.pendingClear.None? && was.frozen.Some? ==> Ranges(e, was.frozen.value))
    && (Home(was) && was.frozen.None? && !was.indeterminate ==> Takes(a0, t.frozen.descriptor))
    && if was.pendingClear.None? && was.frozen.Some? && was.frozen.value.decision.valid then
         t.decision == was.frozen.value.decision
       else Brought(e.exportStart, crop, e.start, e.end)
  }

  predicate AboutClears(e: Error) { e.PendingClearLost? || e.ClearReportMismatch? || e.DeliveryActive? }

  /** What recovering lost replies and authorities may have changed before a recall
      or dump begins. */
  predicate Readied(was: DumpState, a0: A.ArenaState, was': DumpState, a0': A.ArenaState) {
    && Home(was') && !was'.indeterminate
    && was'.ledger == was.ledger && was'.acknowledged == was.acknowledged
    && a0.cumulativeDropped <= a0'.cumulativeDropped
    && (if was.pendingClear.None? then SameBooks(was, was') && was'.frozen == was.frozen
        else was'.frozen.None? && was'.refusals == was.refusals)
    && (Home(was) && !was.indeterminate ==> was' == was && a0' == a0)
  }

  class CompletionGuard {
    var transaction: Option<Transaction>
    var finalized: bool
    const entry: Entry

    constructor (transaction: Transaction, entry: Entry)
      ensures this.transaction == Some(transaction) && !finalized && this.entry == entry
    {
      this.transaction, finalized, this.entry := Some(transaction), false, entry;
    }
  }

  datatype PersistResult =
    | Failed(error: Error)
    | NoNewAudio(entry: Entry)
    | Deliver(guard: CompletionGuard)

  /** The part of the state that says what was consumed. */
  predicate SameBooks(c: DumpState, c': DumpState) {
    && c'.committed == c.committed && c'.acknowledged == c.acknowledged
    && c'.pendingRetention == c.pendingRetention && c'.pendingCleared == c.pendingCleared
    && c'.ledger == c.ledger && c'.booked == c.booked && c'.bookings == c.bookings
    && c'.refusals == c.refusals
  }

  /** Nothing consumed, nothing pending. */
  function Start(decisionId: nat): DumpState {
    DumpState(None, None, Some(Decision(decisionId, false, 0, 0)), None, None, false, None, false,
              0, 0, 0, 0, [], [], [], [])
  }

  lemma StartKeepsInv(a: A.ArenaState, id: u64, decisionId: nat)
    requires A.Valid(a) && A.Free(a, None, 0)
    ensures Inv(a, Start(decisionId), None, id, decisionId)
  {
    hide A.Valid, A.Free, Books, Causes, Clears;
    assert Situation(a, Start(decisionId), None);
    StartBooks(a, id, decisionId);
  }

  lemma StartBooks(a: A.ArenaState, id: u64, decisionId: nat)
    requires A.Valid(a)
    ensures var c := Start(decisionId); Books(a, c) && Causes(a, c) && Clears(a, c, id)
  {
    assert a.worker.geometry.Valid();
    hide A.Valid, Books, Causes, Clears;
    StartCauses(a, decisionId);
    StartClears(a, id, decisionId);
    StartTotals(a, decisionId);
  }

  lemma StartTotals(a: A.ArenaState, decisionId: nat)
    ensures Books(a, Start(decisionId))
  {
  }

  lemma StartCauses(a: A.ArenaState, decisionId: nat)
    requires a.worker.geometry.Valid()
    ensures Causes(a, Start(decisionId))
  {
    hide Explained, Gone;
  }

  lemma StartClears(a: A.ArenaState, id: u64, decisionId: nat)
    ensures Clears(a, Start(decisionId), id)
  {
    hide PendingStands;
  }

  class DumpCoordinator {
    const id: u64
    const decisionId: nat
    const arena: A.CaptureArena
    var c: DumpState
    ghost var guard: CompletionGuard?

    ghost function InDelivery(): Option<Transaction>
      reads this, guard
    {
      if guard == null then None else guard.transaction
    }

    ghost predicate Valid()
      reads this, arena, guard
    {
      && Inv(arena.s, c, InDelivery(), id, decisionId)
      && (guard != null ==> !guard.finalized && guard.transaction.Some?)
    }

    constructor (id: u64, decisionId: nat, arena: A.CaptureArena)
      requires A.Valid(arena.s) && A.Free(arena.s, None, 0)
      ensures Valid() && this.arena == arena && c.ledger == [] && c.Cursor() == 0 && guard == null
    {
      hide Inv;
      this.id, this.decisionId, this.arena := id, decisionId, arena;
      c := Start(decisionId);
      guard := null;
      StartKeepsInv(arena.s, id, decisionId);
    }

    method RecoverPendingClear() returns (r: Result<bool, Error>)
      requires Valid()
      modifies this`c, arena
      ensures Valid()
      ensures A.Grows(old(arena.s), arena.s)
      ensures r == Err(ClearReportMismatch) || c.refusals == old(c.refusals)
      ensures r.Ok? ==> c.pendingClear.None?
      ensures r == Ok(false) ==> c == old(c)
      ensures r.Ok? && r.value ==> !c.indeterminate
      ensures r.Ok? && r.value ==> old(c.pendingClear).Some? && |c.booked| > 0
                                   && c == CommitClearReport(old(c), c.booked[|c.booked| - 1])
      ensures r.Err? ==>
                match r.error
                case PendingClearLost => c == old(c).(pendingClear := None)
                case ClearReportMismatch => c.refusals != [] && c == RefuseReport(old(c), c.refusals[|c.refusals| - 1])
                case _ => c == old(c)
      ensures r.Err? ==> Early(r.error) && !r.error.DeliveryActive?
                         && Hinders(old(c), old(arena.s), arena.s, None, r.error, arena.prompt)
      ensures A.PhaseOf(old(arena.s)).HeldClear? && old(c.pendingClear).Some? ==>
                || (r.Ok? && r.value)
                || r == Err(ClearReportMismatch)
                || (r == Err(ArenaError(A.ClientTimedOut)) && !arena.prompt)
      ensures old(c.pendingClear).None? <==> r == Ok(false)
      ensures old(c.pendingClear).None? ==> arena.s == old(arena.s)
      ensures c.ledger == old(c.ledger) && c.acknowledged == old(c.acknowledged)
      ensures r == Ok(true) ==> |c.booked| == |old(c.booked)| + 1 && c.frozen.None?
                                && c.committed == Some(c.booked[|c.booked| - 1].activeEnd)
    {
      hide Inv, InvInHand, A.Valid, A.Grows, A.ClearSituation, A.ClearRecoveryDone, Mark, CapabilityDescriptor;
      ArenaStands(arena.s, c, InDelivery(), id, decisionId);
      if c.pendingClear.None? {
        return Ok(false);
      }
      PendingClearAlone(arena.s, c, InDelivery(), id, decisionId);
      var acc := c.pendingClear.value.accounting;
      var recovered := arena.RecoverClearResult(
        IdentityOf(acc), acc, c.committed, CapabilityDescriptor(c, None), Mark(c), c.pendingClear.value.counted);
      assert InDelivery().None?;
      ClearRecoveryKeepsInv(old(arena.s), arena.s, c, id, decisionId, recovered);
      if recovered.Err? {
        return Err(ArenaError(recovered.error));
      }
      if recovered.value.None? {
        c := c.(pendingClear := None);
        return Err(PendingClearLost);
      }
      var report := recovered.value.value;
      var booked := BookReport(report);
      return if booked then Ok(true) else Err(ClearReportMismatch);
    }

    /** Books a report that passes its checks; one that does not leaves only the
        clear behind. */
    method BookReport(report: A.ClearReport) returns (booked: bool)
      requires InvInHand(arena.s, c, id, decisionId, report) && guard == null
      modifies this`c
      ensures Valid()
      ensures old(c.pendingClear).Some?
      ensures booked <==> report.cumulativeDropped >= old(c.acknowledged)
      ensures !booked ==> old(c).pendingClear.value.counted < old(c.acknowledged)
      ensures c == if booked then CommitClearReport(old(c), report) else RefuseReport(old(c), report)
    {
      hide Inv, InvInHand;
      InHandDropTest(arena.s, c, id, decisionId, report);
      if !ValidateClearReport(arena.s, c, id, report) {
        RefusedReportKeepsInv(arena.s, c, id, decisionId, report);
        c := RefuseReport(c, report);
        return false;
      }
      ClearCommitKeepsInv(arena.s, c, id, decisionId, report);
      c := CommitClearReport(c, report);
      return true;
    }

    method RecoverPendingRelease() returns (r: Outcome<Error>)
      requires Valid()
      modifies this`c, arena
      ensures Valid()
      ensures A.Grows(old(arena.s), arena.s)
      ensures c == old(c).(pendingRelease := c.pendingRelease)
      ensures r.Fail? ==> Early(r.error)
      ensures r == Fail(PendingClearFirst) <==> old(c.pendingClear).Some?
      ensures r.Fail? && old(c.pendingClear).None? ==>
                r.error.ArenaError? && A.Because(arena.s, A.KRelease, r.error.error, false) && !arena.prompt
      ensures r.Pass? ==> c.pendingRelease.None?
      ensures old(c.pendingRelease).None? && old(c.pendingClear).None? ==> r.Pass? && arena.s == old(arena.s)
    {
      hide Inv;
      ArenaStands(arena.s, c, InDelivery(), id, decisionId);
      if c.pendingClear.Some? {
        return Fail(PendingClearFirst);
      }
      if c.pendingRelease.None? {
        return Pass;
      }
      PendingReleaseHeld(arena.s, c, InDelivery(), id, decisionId);
      var f, released := arena.ReleaseFrozen(c.pendingRelease.value, Mark(c));
      ParkedReleaseKeepsInv(old(arena.s), arena.s, c, InDelivery(), id, decisionId, f, released.Pass?);
      if released.Fail? {
        c := c.(pendingRelease := Some(f));
        return Fail(ArenaError(released.error));
      }
      c := c.(pendingRelease := None);
      return Pass;
    }

    /** Brings every completion authority home before new work starts. */
    method ReconcileCompletionAuthority() returns (r: Outcome<Error>)
      requires Valid() && c.pendingClear.None?
      modifies this`c, arena
      ensures Valid()
      ensures A.Grows(old(arena.s), arena.s)
      ensures SameBooks(old(c), c) && c.frozen == old(c.frozen) && c.indeterminate == old(c.indeterminate)
      ensures c.pendingClear.None? && c.nextClearId == old(c.nextClearId)
      ensures r.Fail? ==> Early(r.error) && ReleaseBlocked(old(c), arena.s, r.error, arena.prompt)
      ensures r.Pass? ==> c.completion.None? && c.pendingRelease.None? && guard == null
      ensures old(c.completion) == Some(Delivering) ==> r == Fail(DeliveryActive) && c == old(c)
      ensures old(c.completion).None? && old(c.pendingRelease).None? ==>
                r.Pass? && c == old(c) && arena.s == old(arena.s)
    {
      if c.completion == Some(Delivering) {
        return Fail(DeliveryActive);
      }
      r := RecoverPendingRelease();
      if r.Fail? || c.completion.None? {
        return;
      }
      r := RetryRelease();
    }

    method RetryRelease() returns (r: Outcome<Error>)
      requires Valid() && c.pendingClear.None?
      requires c.completion.Some? && c.completion.value.Finalized?
      modifies this`c, arena
      ensures Valid()
      ensures A.Grows(old(arena.s), arena.s)
      ensures r.Fail? ==>
                r.error.ArenaError? && A.Because(arena.s, A.KRelease, r.error.error, false) && !arena.prompt
      ensures exists f, released :: c == Retried(old(c), f, released)
      ensures r.Pass? ==> c.completion.None? && c.pendingRelease.None? && guard == null
    {
      hide Caused, Justified, Stretch, Explained, E.Kept, E.RetainedStart, E.Epoch.Oldest;
      var f, released := arena.ReleaseFrozen(c.completion.value.failedRelease.value, Mark(c));
      RetriedReleaseKeepsInv(old(arena.s), arena.s, c, id, decisionId, f, released.Pass?);
      c := Retried(c, f, released.Pass?);
      return if released.Pass? then Pass else Fail(ArenaError(released.error));
    }

    /** Every authority is home and nothing is pending. */
    ghost predicate Ready()
      reads this, arena, guard
    {
      Valid() && guard == null && c.completion.None? && c.pendingRelease.None? && c.pendingClear.None?
    }

    method Prologue() returns (r: Result<bool, Error>)
      requires Valid()
      modifies this`c, arena
      ensures Valid()
      ensures c.ledger == old(c.ledger) && c.acknowledged == old(c.acknowledged)
      ensures old(arena.s.cumulativeDropped) <= arena.s.cumulativeDropped
      ensures r.Ok? && r.value ==> !c.indeterminate
      ensures r.Err? ==> Early(r.error) && Hinders(old(c), old(arena.s), arena.s, None, r.error, arena.prompt)
      ensures Home(old(c)) ==> r.Ok? && c == old(c) && arena.s == old(arena.s)
      ensures old(c.pendingClear).None? ==>
                c.indeterminate == old(c.indeterminate) && c.nextClearId == old(c.nextClearId)
      ensures old(arena.s.ingressDropped) <= arena.s.ingressDropped
              && old(arena.s.workerDropped) <= arena.s.workerDropped
      ensures r == Err(ClearReportMismatch) || c.refusals == old(c.refusals)
      ensures old(c.pendingClear).None? ==> SameBooks(old(c), c) && c.frozen == old(c.frozen) && !(r.Ok? && r.value)
      ensures r.Ok? && !r.value ==> old(c.pendingClear).None?
      ensures r.Ok? && r.value ==> |c.booked| == |old(c.booked)| + 1 && c.frozen.None?
                                   && c.committed == Some(c.booked[|c.booked| - 1].activeEnd)
      ensures r.Ok? ==> Ready()
    {
      hide Inv;
      r := RecoverPendingClear();
      if r.Err? {
        return;
      }
      var home := ReconcileCompletionAuthority();
      if home.Fail? {
        return Err(home.error);
      }
    }

    /** Commits the frozen transaction and hands it to the delivery guard. */
    method CommitAndReserve(cumulative: u64, kind: Kind, frames: seq<Frame>) returns (g: CompletionGuard)
      requires Ready() && c.frozen.Some?
      requires c.acknowledged <= cumulative <= arena.s.cumulativeDropped
      requires var d := c.frozen.value.frozen.descriptor;
               d.end <= |arena.s.worker.log| && frames == arena.s.worker.log[d.start..d.end]
      modifies this
      ensures Valid() && fresh(g) && guard == g
      ensures g.entry.Committed? && g.entry.kind == kind && g.transaction == old(c.frozen)
      ensures Committing(old(c), c, old(c.frozen).value, g.entry) && c.acknowledged == cumulative
    {
      hide Inv;
      CommitFrozenKeepsInv(arena.s, c, id, decisionId, cumulative, kind, frames);
      var t := c.frozen.value;
      var commit := CommitFrozen(c, cumulative, kind, frames);
      c := commit.0;
      g := new CompletionGuard(t, commit.1);
      guard := g;
    }

    /** An earlier publication whose outcome is unknown is settled first. */
    method RecoverIndeterminate(recovery: PublicationRecovery) returns (r: Result<Option<CompletionGuard>, Error>)
      requires Ready() && c.indeterminate
      modifies this, arena
      ensures old(arena.s.cumulativeDropped) <= arena.s.cumulativeDropped
      ensures Valid()
      ensures r.Err? <==> recovery.StillPending?
      ensures r.Err? ==> r.error == IndeterminatePublication && guard == null && c == old(c)
      ensures r.Ok? ==> (r.value.Some? <==> recovery.Complete?)
      ensures r == Ok(None) ==> Ready() && c == old(c).(indeterminate := false)
      ensures r.Ok? && r.value.Some? ==>
                var g := r.value.value;
                && fresh(g) && guard == g && g.entry.Committed? && g.entry.kind.Written?
                && g.transaction == old(c.frozen) && g.transaction.value.decision.valid
                && Committing(old(c), c, old(c.frozen).value, g.entry)
                && old(arena.s.cumulativeDropped) <= c.acknowledged
    {
      hide Caused, Justified, Stretch, Explained, E.Kept, E.RetainedStart, E.Epoch.Oldest;
      var cumulative := arena.CumulativeDropped();
      InterferenceKeepsInv(old(arena.s), arena.s, c, None, id, decisionId);
      label Counted:
      arena.Interference();
      InterferenceKeepsInv(old@Counted(arena.s), arena.s, c, None, id, decisionId);
      match recovery {
        case StillPending =>
          return Err(IndeterminatePublication);
        case RolledBack =>
          IndeterminateKeepsInv(arena.s, c, id, decisionId, false);
          c := c.(indeterminate := false);
          return Ok(None);
        case Complete =>
          var d := c.frozen.value.frozen.descriptor;
          FrozenReadable(arena.s, c, id, decisionId);
          var g := CommitAndReserve(cumulative, Written, E.ReadFrozen(arena.s.worker, d, d.start, d.end));
          return Ok(Some(g));
      }
    }

    /** Freezes everything new unless an earlier transaction is still open. */
    method EnsureFrozen() returns (r: Result<Option<Entry>, Error>)
      requires Ready()
      modifies this`c, arena
      ensures Ready()
      ensures r.Err? ==> c == old(c) && r.error.ArenaError? && FreezeBlocked(arena.s, r.error.error, arena.prompt)
      ensures r.Ok? && r.value.None? ==> Open(old(c), c, old(arena.s), arena.s)
      ensures r.Ok? && r.value.Some? ==>
                && old(c.frozen).None?
                && Reporting(old(c), c, r.value.value) && old(arena.s.cumulativeDropped) <= c.acknowledged
                && (!A.SlotKind(old(arena.s).slot, A.KFreeze) ==> |old(arena.s).worker.log| <= Mark(old(c)))
      ensures old(arena.s.cumulativeDropped) <= arena.s.cumulativeDropped
    {
      hide Caused, Justified, Stretch, Explained, E.Kept, E.RetainedStart, E.Epoch.Oldest;
      if c.frozen.Some? {
        return Ok(None);
      }
      assert A.Free(arena.s, c.committed, Mark(c));
      var frozen := arena.FreezeSince(c.committed, Mark(c));
      if frozen.Ok? && frozen.value.Some? {
        AdoptFrozenKeepsInv(old(arena.s), arena.s, c, id, decisionId, frozen.value.value);
        c := AdoptFrozen(c, frozen.value.value);
        return Ok(None);
      }
      ArenaMoved(old(arena.s), arena.s, c, None, id, decisionId);
      if frozen.Err? {
        A.FreeUnhindered(arena.s, c.committed, Mark(c), frozen.error, arena.prompt);
        return Err(ArenaError(frozen.error));
      }
      var entry := ReportNothing();
      return Ok(Some(entry));
    }

    method ReportNothing() returns (entry: Entry)
      requires Ready() && c.frozen.None?
      modifies this`c, arena
      ensures Ready()
      ensures Reporting(old(c), c, entry)
      ensures old(arena.s.cumulativeDropped) <= c.acknowledged
      ensures old(arena.s.cumulativeDropped) <= arena.s.cumulativeDropped
    {
      hide Caused, Justified, Stretch, Explained, E.Kept, E.RetainedStart, E.Epoch.Oldest;
      var cumulative := arena.CumulativeDropped();
      InterferenceKeepsInv(old(arena.s), arena.s, c, None, id, decisionId);
      CommitNothingNewKeepsInv(arena.s, c, id, decisionId);
      var commit := CommitNothingNew(c, cumulative);
      c := commit.0;
      return commit.1;
    }

    /** Prepares and publishes the frozen range, then commits it. */
    method PublishFrozen(prepared: Prepared) returns (r: Result<CompletionGuard, Error>)
      requires Ready() && c.frozen.Some? && !c.indeterminate
      modifies this, arena
      ensures Valid()
      ensures r.Err? ==>
        && Ready() && c.frozen.Some? && SameBooks(old(c), c)
        && SameTransaction(old(c.frozen).value, c.frozen.value)
        && (if prepared.PreparationError? && !prepared.classified then c.frozen == old(c.frozen)
            else Decided(old(c.frozen).value, c.frozen.value, prepared.crop))
        && (r.error == PrepareFailed <==> prepared.PreparationError?)
        && (r.error == PublicationFailed <==> prepared.Files? && prepared.publication.RetryableFailure?)
        && (r.error == IndeterminatePublication <==> c.indeterminate)
      ensures r.Ok? ==>
                && fresh(r.value) && guard == r.value
                && r.value.entry.Committed? && r.value.entry.kind == KindOf(prepared)
                && r.value.transaction.Some? && Decided(old(c.frozen).value, r.value.transaction.value, prepared.crop)
                && Committing(old(c), c, r.value.transaction.value, r.value.entry)
                && old(arena.s.cumulativeDropped) <= c.acknowledged
      ensures r.Ok? <==> prepared.Silent? || prepared.ByPolicy? || (prepared.Files? && prepared.publication.Published?)
      ensures c.indeterminate <==> prepared.Files? && prepared.publication.Unsettled?
    {
      hide Inv, A.Valid, E.RetainedStart, E.Epoch.Oldest;
      var frames := PrepareFrozen(prepared);
      if frames.Err? {
        return Err(frames.error);
      }
      if prepared.Files? && prepared.publication.RetryableFailure? {
        return Err(PublicationFailed);
      }
      if prepared.Files? && prepared.publication.Unsettled? {
        IndeterminateKeepsInv(arena.s, c, id, decisionId, true);
        c := c.(indeterminate := true);
        return Err(IndeterminatePublication);
      }
      var g := CommitPublished(KindOf(prepared), frames.value);
      return Ok(g);
    }

    /** Reads the frozen range and decides what to export of it. */
    method PrepareFrozen(prepared: Prepared) returns (r: Result<seq<Frame>, Error>)
      requires Ready() && c.frozen.Some? && !c.indeterminate
      modifies this`c, arena
      ensures Ready() && c.frozen.Some? && c == old(c).(frozen := c.frozen)
      ensures old(arena.s.cumulativeDropped) <= arena.s.cumulativeDropped
      ensures if prepared.PreparationError? then r == Err(PrepareFailed) else r.Ok?
      ensures if prepared.PreparationError? && !prepared.classified then c == old(c)
              else Decided(old(c.frozen).value, c.frozen.value, prepared.crop)
      ensures r.Ok? ==>
                var d := c.frozen.value.frozen.descriptor;
                d.start <= d.end <= |arena.s.worker.log| && r.value == arena.s.worker.log[d.start..d.end]
    {
      hide Caused, Justified, Stretch, Explained, E.Kept, E.RetainedStart, E.Epoch.Oldest;
      FrozenReadable(arena.s, c, id, decisionId);
      hide Inv, A.Valid, E.Worker.Valid, E.Describes;
      arena.Interference();
      InterferenceKeepsInv(old(arena.s), arena.s, c, None, id, decisionId);
      FrozenReadable(arena.s, c, id, decisionId);
      var d := c.frozen.value.frozen.descriptor;
      if prepared.PreparationError? && !prepared.classified {
        return Err(PrepareFailed);
      }
      ClassifyKeepsInv(arena.s, c, id, decisionId, prepared.crop);
      c := Classified(c, prepared.crop);
      if prepared.PreparationError? {
        return Err(PrepareFailed);
      }
      return Ok(E.ReadFrozen(arena.s.worker, d, d.start, d.end));
    }

    method CommitPublished(kind: Kind, frames: seq<Frame>) returns (g: CompletionGuard)
      requires Ready() && c.frozen.Some?
      requires var d := c.frozen.value.frozen.descriptor;
               d.end <= |arena.s.worker.log| && frames == arena.s.worker.log[d.start..d.end]
      modifies this, arena
      ensures Valid() && fresh(g) && guard == g
      ensures g.entry.Committed? && g.entry.kind == kind && g.transaction == old(c.frozen)
      ensures Committing(old(c), c, old(c.frozen).value, g.entry)
      ensures old(arena.s.cumulativeDropped) <= c.acknowledged
    {
      hide Caused, Justified, Stretch, Explained, E.Kept, E.RetainedStart, E.Epoch.Oldest;
      var cumulative := arena.CumulativeDropped();
      InterferenceKeepsInv(old(arena.s), arena.s, c, None, id, decisionId);
      FrozenReadable(arena.s, c, id, decisionId);
      g := CommitAndReserve(cumulative, kind, frames);
    }

    /** What a recall or dump answers, given the states it began in. */
    ghost predicate Persisted(was: DumpState, a0: A.ArenaState, prepared: Prepared, recovery: PublicationRecovery,
                              r: PersistResult)
      reads this, arena, guard
    {
      match r
      case Failed(error) =>
        && c.ledger == was.ledger && Kept(was, c)
        && Explains(was, c, a0, arena.s, prepared, error, arena.prompt)
      case NoNewAudio(entry) =>
        && guard == null && NothingCaptured(was, c, a0, entry)
      case Deliver(g) =>
        && g == guard && g.transaction.Some? && g.entry.Committed?
        && (g.entry.kind == KindOf(prepared) || (recovery.Complete? && g.entry.kind.Written?))
        && Delivered(was, c, a0, g.transaction.value, g.entry, prepared.crop)
    }

    /** Recall and dump up to the delivery of the outcome: recovery of whatever
        is pending, the freeze, publication, and the commit.  A failure consumes
        nothing; a success consumes exactly the frozen range. */
    method PersistUntilDelivery(prepared: Prepared, recovery: PublicationRecovery) returns (r: PersistResult)
      requires Valid()
      modifies this, arena
      ensures Valid()
      ensures Persisted(old(c), old(arena.s), prepared, recovery, r)
      ensures r.Failed? ==> guard == old(guard)
      ensures r.Deliver? ==> fresh(r.guard)
      ensures r == Failed(ClearReportMismatch) || c.refusals == old(c.refusals)
    {
      hide Inv, A.Valid, A.Grows, FrozenStands, Continues, A.Because, A.Unrecovered, Takes, Brought, A.SlotKind,
           ReleaseBlocked;
      var ready := Prologue();
      if ready.Err? {
        return Failed(ready.error);
      }
      if c.indeterminate {
        var settled := RecoverIndeterminate(recovery);
        if settled.Err? {
          return Failed(settled.error);
        }
        if settled.value.Some? {
          return Deliver(settled.value.value);
        }
      }
      label Readied:
      r := PersistReady(prepared);
      Later(old(c), old(arena.s), old@Readied(c), old@Readied(arena.s), prepared, r);
    }

    /** The freeze, publication and commit of a coordinator with nothing to recover. */
    method PersistReady(prepared: Prepared) returns (r: PersistResult)
      requires Ready() && !c.indeterminate
      modifies this, arena
      ensures Valid()
      ensures Persisted(old(c), old(arena.s), prepared, StillPending, r)
      ensures r.Failed? ==> guard == null && !AboutClears(r.error)
      ensures r.Deliver? ==> fresh(r.guard)
      ensures c.refusals == old(c.refusals)
    {
      hide Inv, A.Valid, A.Grows, FrozenStands, Continues, A.Because, A.Unrecovered, Takes, Brought, A.SlotKind;
      var frozen := EnsureFrozen();
      if frozen.Err? {
        return Failed(frozen.error);
      }
      if frozen.value.Some? {
        return NoNewAudio(frozen.value.value);
      }
      var published := PublishFrozen(prepared);
      if published.Err? {
        return Failed(published.error);
      }
      return Deliver(published.value);
    }

    /** What was answered once everything was recovered is right for the whole call. */
    lemma Later(was: DumpState, a0: A.ArenaState, was': DumpState, a0': A.ArenaState, prepared: Prepared,
                r: PersistResult)
      requires Readied(was, a0, was', a0') && Persisted(was', a0', prepared, StillPending, r)
      requires r.Failed? ==> !AboutClears(r.error)
      ensures forall recovery :: Persisted(was, a0, prepared, recovery, r)
    {
      hide FrozenStands, Continues, A.Because, A.Unrecovered, Takes, Brought, A.SlotKind;
    }

    /** Ends a delivery, however it went, and at most once. */
    method FinalizeDelivery(g: CompletionGuard)
      requires Valid() && (g.finalized || g == guard)
      modifies this, arena, g
      ensures Valid() && g.finalized
      ensures SameBooks(old(c), c)
      ensures old(g.finalized) ==> c == old(c) && arena.s == old(arena.s) && guard == old(guard)
      ensures !old(g.finalized) ==> guard == null && g.transaction.None? && c.completion != Some(Delivering)
      ensures !old(g.finalized) && arena.prompt ==> Home(c)
    {
      hide Caused, Justified, Stretch, Explained, E.Kept, E.RetainedStart, E.Epoch.Oldest;
      if g.finalized {
        return;
      }
      var t := g.transaction.value;
      var f, released := arena.ReleaseFrozen(t.frozen, Mark(c));
      SettledKeepsInv(old(arena.s), arena.s, c, t, id, decisionId, f, released.Pass?);
      g.finalized := true;
      g.transaction := None;
      guard := null;
      c := Settled(c, t, f, released.Pass?);
    }

    /** Discards the active audio in order with what was already frozen. */
    method ClearInOrder() returns (r: Outcome<Error>)
      requires Valid()
      modifies this`c, arena
      ensures Valid()
      ensures c.ledger == old(c.ledger) && c.acknowledged == old(c.acknowledged)
      ensures r.Fail? && old(c.pendingClear).None? ==> SameBooks(old(c).(refusals := c.refusals), c)
      ensures r.Fail? ==>
                match r.error
                case IndeterminatePublication => old(c.indeterminate)
                case ClearIdsExhausted => old(c.nextClearId) == U64_MAX
                case _ => Hinders(old(c), old(arena.s), arena.s, Some(A.KClear), r.error, arena.prompt)
      ensures r.Fail? && r.error.ArenaError? && Home(old(c)) ==>
                ClearBlocked(old(arena.s), arena.s, r.error.error, arena.prompt)
      ensures r == Fail(ClearReportMismatch) || c.refusals == old(c.refusals)
      ensures r.Fail? && Home(old(c)) ==> ClearGivenUp(old(c), c, r.error)
      ensures r.Pass? && arena.prompt ==> Home(c)
      ensures r.Pass? ==> c.pendingClear.None? && |c.booked| == |old(c.booked)| + 1 && c.frozen.None?
                          && c.committed == Some(c.booked[|c.booked| - 1].activeEnd)
    {
      hide Inv;
      var ready := Prologue();
      if ready.Err? {
        return Fail(ready.error);
      }
      if ready.value {
        return Pass;
      }
      if c.indeterminate {
        return Fail(IndeterminatePublication);
      }
      if c.nextClearId == U64_MAX {
        return Fail(ClearIdsExhausted);
      }
      r := ClearReady();
      if r.Pass? {
        var _ := RecoverPendingRelease();
      }
    }

    method ClearReady() returns (r: Outcome<Error>)
      requires Ready() && ReadyToClear(c)
      modifies this`c, arena
      ensures Valid()
      ensures c.ledger == old(c.ledger) && c.acknowledged == old(c.acknowledged)
      ensures r.Fail? ==> SameBooks(old(c).(refusals := c.refusals), c)
      ensures r.Fail? ==>
                if r.error.ArenaError? then ClearBlocked(old(arena.s), arena.s, r.error.error, arena.prompt)
                else r.error == ClearReportMismatch && CountedFor(old(c), old(arena.s)) < old(c.acknowledged)
      ensures r == Fail(ClearReportMismatch) || c.refusals == old(c.refusals)
      ensures r.Fail? ==> ClearGivenUp(old(c), c, r.error)
      ensures r.Pass? ==> c.completion.None?
      ensures r.Pass? ==> c.pendingClear.None? && |c.booked| == |old(c.booked)| + 1 && c.frozen.None?
                          && c.committed == Some(c.booked[|c.booked| - 1].activeEnd)
    {
      hide Caused, Justified, Stretch, Explained, E.Kept, E.RetainedStart, E.Epoch.Oldest;
      var counted := arena.s.ingressDropped + arena.s.workerDropped;
      AskClearKeepsInv(arena.s, c, id, decisionId, counted);
      var acc := ClearAccounting(c, arena.s.runtimeId, id);
      c := AskClear(c, acc, counted);
      var answer := arena.ClearActiveAccounted(acc, c.committed, CapabilityDescriptor(c, None), Mark(c), counted);
      ClearAnswerKeepsInv(old(arena.s), arena.s, c, id, decisionId, answer);
      RoomForLosses(arena.s, c, id, decisionId, answer);
      if answer.Err? {
        if answer.error != A.CommandTimedOut && answer.error != A.ClientTimedOut {
          c := c.(pendingClear := None);
        }
        return Fail(ArenaError(answer.error));
      }
      var booked := BookReport(answer.value);
      return if booked then Pass else Fail(ClearReportMismatch);
    }

    /** Any schedule of the coordinator's operations, with the rest of the system
        running in between and deliveries ending whenever they end: the joint
        invariant, and with it conservation and linear authorities, holds in
        every state such a run reaches. */
    method AnyRun(steps: nat, inFlight: CompletionGuard?)
      requires Valid() && inFlight == guard
      modifies this, arena, guard
      ensures Valid()
      ensures |Covered(c.ledger)| + Lost(c.ledger) + c.pendingRetention + c.pendingCleared == c.Cursor()
      ensures |Where(c.bookings, LostToRetention)| == RetentionOf(c.ledger) + c.pendingRetention
      ensures |Where(c.bookings, Cleared)| == ClearedOf(c.ledger) + c.pendingCleared
    {
      hide Inv, Covered, Lost, Where, RetentionOf, ClearedOf;
      var n, open := steps, inFlight;
      while n > 0
        invariant Valid() && open == guard
        invariant open != null ==> open == inFlight || fresh(open)
      {
        label Step:
        if * {
          ArenaStands(arena.s, c, InDelivery(), id, decisionId);
          arena.Interference();
          InterferenceKeepsInv(old@Step(arena.s), arena.s, c, InDelivery(), id, decisionId);
        } else if * {
          var prepared, recovery := AnyPersistence();
          var result := PersistUntilDelivery(prepared, recovery);
          open := if result.Deliver? then result.guard else if result.NoNewAudio? then null else open;
        } else if * {
          var _ := ClearInOrder();
        } else if open != null {
          FinalizeDelivery(open);
          open := null;
        }
        n := n - 1;
      }
      BooksMean(arena.s, c, InDelivery(), id, decisionId);
    }

    /** Whatever the workspace and the file system answer. */
    static method AnyPersistence() returns (prepared: Prepared, recovery: PublicationRecovery)
    {
      var crop: u64, first: nat, second: nat := *, *, *;
      prepared := match first
        case 0 => PreparationError(false, crop)
        case 1 => PreparationError(true, crop)
        case 2 => Silent(crop)
        case 3 => ByPolicy(crop)
        case 4 => Files(crop, RetryableFailure)
        case 5 => Files(crop, Unsettled)
        case _ => Files(crop, Published);
      recovery := if second == 0 then Complete else if second == 1 then RolledBack else StillPending;
    }
  }
}

/** The capture arena as its clients see it (src/capture_arena.rs,
    `CaptureArena`): a one-entry command slot served by the worker, results that
    survive a time-out, and the two stashes a later caller recovers them from.

    One client at a time holds the client lock; the worker, the producer and
    status callers on other threads run between and during a client's calls.
    Every place where they may act, and every time-out, is a nondeterministic
    choice (`if *`), so a contract here speaks of every schedule. */
module CaptureArena {
  import opened Base
  import opened Audio
  import E = Epochs

  datatype Error =
    | CommandTimedOut
    | ClientTimedOut
    | ClearResultPending
    | FrozenResultPending
    | ReleaseResultPending
    | NotRecoverable
    | IdentityMismatch
    | ForeignRuntime
    | AlreadyReleased
    | WorkerRefused(reason: Refusal)

  /** Why the worker refuses a command. */
  datatype Refusal =
    | DropsExhausted
    | AlreadyFrozen
    | GenerationExhausted
    | NothingFrozen
    | WrongCapability
    | LossOverflow

  datatype Kind = KFreeze | KRelease | KClear | KStatus

  datatype Accounting = Accounting(
    runtimeId: u64, coordinatorId: u64, clearId: u64, expectedStart: u64,
    pendingRetention: u64, pendingCleared: u64)

  datatype ClearReport = ClearReport(
    runtimeId: u64, coordinatorId: u64, clearId: u64, expectedStart: u64,
    activeStart: u64, activeEnd: u64,
    pendingRetention: u64, pendingCleared: u64, cumulativeDropped: u64)

  datatype ClearIdentity = ClearIdentity(runtimeId: u64, coordinatorId: u64, clearId: u64)
  {
    predicate Matches(r: ClearReport) {
      runtimeId == r.runtimeId && coordinatorId == r.coordinatorId && clearId == r.clearId
    }
  }

  datatype Command =
    | Freeze(committed: Option<u64>)
    | Release(index: nat, generation: u64)
    | Clear(ingressDropped: u64, accounting: Accounting)
    | Status
  {
    function KindOf(): Kind {
      match this
      case Freeze(_) => KFreeze
      case Release(_, _) => KRelease
      case Clear(_, _) => KClear
      case Status => KStatus
    }
  }

  datatype Reply =
    | FrozenReply(descriptor: Option<E.Descriptor>)
    | ReleasedReply
    | ClearedReply(report: ClearReport)
    | StatusReply(activeStart: nat, activeEnd: nat, frozenPending: bool)

  type Answer = Result<Reply, Error>

  datatype Slot = Idle | Queued(command: Command) | Answered(command: Command, answer: Answer)

  /** The commands the worker has carried out, oldest first. */
  datatype Executed =
    | FreezeExecuted(descriptor: E.Descriptor)
    | ReleaseExecuted(index: nat, generation: u64)
    | ClearExecuted(report: ClearReport)

  datatype ArenaState = ArenaState(
    runtimeId: u64,
    worker: E.Worker,
    dropExhausted: bool,
    cumulativeDropped: u64,
    ingressDropped: u64,
    workerDropped: u64,
    slot: Slot,
    recoveredFrozen: Option<E.Descriptor>,
    recoveredClear: Option<ClearReport>,
    executed: seq<Executed>)

  /** A frozen capability in a caller's hands. */
  datatype FrozenEpoch = FrozenEpoch(
    runtimeId: u64, descriptor: E.Descriptor, released: bool, releasePending: bool)

  // ---- what the worker does with one command ----

  /** The loss arithmetic of a clear, `None` when a counter would overflow.  The
      drop counter is put together from two that are bumped separately; while they
      are in step with the cumulative one, it is that one. */
  function ClearReportOf(s: ArenaState, ingressDropped: u64, acc: Accounting): (r: Option<ClearReport>)
    requires s.worker.Valid()
    ensures r.Some? ==> ReportFor(acc, r.value) && r.value.activeEnd == |s.worker.log|
    ensures r.Some? && ingressDropped == s.ingressDropped
            && s.ingressDropped + s.workerDropped == s.cumulativeDropped ==>
              r.value.cumulativeDropped == s.cumulativeDropped
    ensures r.Some? ==> r.value.cumulativeDropped - s.workerDropped == ingressDropped
    ensures r.None? ==> Overflows(s, ingressDropped, acc)
    ensures r.Some? && acc.expectedStart <= |s.worker.log| ==>
              r.value.pendingRetention + r.value.pendingCleared
              == acc.pendingRetention + acc.pendingCleared + (|s.worker.log| - acc.expectedStart)
  {
    var start := s.worker.ActiveStart();
    var end := s.worker.ActiveEnd();
    var retention := acc.pendingRetention + SatSub(start, acc.expectedStart);
    var cleared := acc.pendingCleared + SatSub(end, Max(acc.expectedStart, start));
    var cumulative := ingressDropped + s.workerDropped;
    if retention > U64_MAX || cleared > U64_MAX || cumulative > U64_MAX then None
    else Some(ClearReport(acc.runtimeId, acc.coordinatorId, acc.clearId, acc.expectedStart,
                          start, end, retention, cleared, cumulative))
  }

  /** What a clear counts as lost to retention is what the ring no longer held,
      and what it counts as cleared fits the ring. */
  lemma ClearLossesLeftTheRing(s: ArenaState, ingressDropped: u64, acc: Accounting)
    requires s.worker.Valid() && acc.expectedStart <= |s.worker.log|
    requires ClearReportOf(s, ingressDropped, acc).Some?
    ensures var r := ClearReportOf(s, ingressDropped, acc).value;
            && r.activeStart == s.worker.ActiveStart()
            && E.Kept(s.worker.geometry, s.worker.Mark(), acc.expectedStart,
                      Max(acc.expectedStart, r.activeStart), r.activeEnd)
  {
    E.OldestKept(s.worker, |s.worker.log|, acc.expectedStart, s.worker.Mark());
  }

  /** A report answers for an accounting request: same identity, and the frames
      between the expected start and the active head are split between
      retention loss and cleared frames. */
  predicate ReportFor(acc: Accounting, r: ClearReport) {
    && ClearIdentity(acc.runtimeId, acc.coordinatorId, acc.clearId).Matches(r)
    && r.expectedStart == acc.expectedStart
    && r.activeStart <= r.activeEnd
    && r.pendingRetention == acc.pendingRetention + SatSub(r.activeStart, acc.expectedStart)
    && r.pendingCleared == acc.pendingCleared + SatSub(r.activeEnd, Max(acc.expectedStart, r.activeStart))
  }

  /** The counters of a clear may run out only when the range since the expected
      start, or the drops, do not fit on top of them. */
  predicate Overflows(s: ArenaState, ingressDropped: u64, acc: Accounting) {
    Exhausted(s, acc) || ingressDropped + s.workerDropped > U64_MAX
  }

  predicate Exhausted(s: ArenaState, acc: Accounting) {
    || acc.pendingRetention + SatSub(|s.worker.log|, acc.expectedStart) > U64_MAX
    || acc.pendingCleared + SatSub(|s.worker.log|, acc.expectedStart) > U64_MAX
  }

  function Process(s: ArenaState): ArenaState
    requires s.worker.Valid() && s.slot.Queued?
  {
    var c := s.slot.command;
    if s.dropExhausted && !c.Release? then s.(slot := Answered(c, Err(WorkerRefused(DropsExhausted))))
    else
      match c
      case Freeze(committed) =>
        var r := E.Freeze(s.worker, committed);
        if r.1.FreezeFailed? then
          s.(slot := Answered(c, Err(WorkerRefused(if r.1.error.AlreadyFrozen? then AlreadyFrozen
                                                   else GenerationExhausted))))
        else s.(worker := r.0,
                slot := Answered(c, Ok(FrozenReply(r.1.descriptor))),
                executed := s.executed
                            + if r.1.descriptor.Some? then [FreezeExecuted(r.1.descriptor.value)] else [])
      case Release(index, generation) =>
        var r := E.Release(s.worker, index, generation);
        if r.1 != E.Released then
          s.(slot := Answered(c, Err(WorkerRefused(if r.1.NothingFrozen? then NothingFrozen else WrongCapability))))
        else s.(worker := r.0, slot := Answered(c, Ok(ReleasedReply)),
                executed := s.executed + [ReleaseExecuted(index, generation)])
      case Clear(ingressDropped, accounting) =>
        var report := ClearReportOf(s, ingressDropped, accounting);
        if report.None? then s.(slot := Answered(c, Err(WorkerRefused(LossOverflow))))
        else s.(worker := E.Clear(s.worker), slot := Answered(c, Ok(ClearedReply(report.value))),
                executed := s.executed + [ClearExecuted(report.value)])
      case Status =>
        s.(slot := Answered(c, Ok(StatusReply(s.worker.ActiveStart(), s.worker.ActiveEnd(), s.worker.frozen.Some?))))
  }

  // ---- the arena's invariant and what others may do to it ----

  /** What is pending for the client, wherever it is parked: a status result, a
      refusal and an empty freeze oblige nobody. */
  datatype Phase =
    | Quiet
    | Waiting(command: Command)
    | HeldFreeze(descriptor: E.Descriptor)
    | HeldClear(report: ClearReport)
    | ReleaseAnswered(ok: bool)

  function PhaseOf(s: ArenaState): Phase {
    if s.recoveredFrozen.Some? then HeldFreeze(s.recoveredFrozen.value)
    else if s.recoveredClear.Some? then HeldClear(s.recoveredClear.value)
    else
      match s.slot
      case Idle => Quiet
      case Queued(c) => if c.Status? then Quiet else Waiting(c)
      case Answered(c, answer) =>
        if c.Release? then ReleaseAnswered(answer.Ok?)
        else if answer.Ok? && answer.value.ClearedReply? then HeldClear(answer.value.report)
        else if answer.Ok? && answer.value.FrozenReply? && answer.value.descriptor.Some? then
          HeldFreeze(answer.value.descriptor.value)
        else Quiet
  }

  predicate SlotKind(slot: Slot, kind: Kind) {
    !slot.Idle? && slot.command.KindOf() == kind
  }

  /** A state in which commands of a kind are refused for this reason. */
  predicate Refuses(s: ArenaState, kind: Kind, reason: Refusal) {
    match reason
    case DropsExhausted => s.dropExhausted && kind != KRelease
    case AlreadyFrozen => kind == KFreeze && s.worker.frozen.Some?
    case GenerationExhausted => kind == KFreeze && s.worker.nextGeneration == U64_MAX
    case NothingFrozen => kind == KRelease && s.worker.frozen.None?
    case WrongCapability => kind == KRelease && s.worker.frozen.Some?
    case LossOverflow => kind == KClear
  }

  /** The reason one command was refused for, as long as no other is executed. */
  predicate ReasonStands(s: ArenaState, c: Command, reason: Refusal) {
    && Refuses(s, c.KindOf(), reason)
    && (reason.WrongCapability? ==> s.worker.frozen != Some(E.FrozenRecord(c.index, c.generation)))
    && (reason.LossOverflow? ==> Overflows(s, c.ingressDropped, c.accounting))
  }

  /** A status tells the active range of some moment since the last command, and
      whether an epoch is frozen. */
  predicate StatusStands(w: E.Worker, reply: Reply)
    requires w.Valid()
  {
    && reply.StatusReply?
    && w.epochs[w.active].base <= reply.activeEnd <= |w.log|
    && reply.activeStart == w.OldestAt(reply.activeEnd)
    && reply.frozenPending == w.frozen.Some?
  }

  predicate AnswerFits(s: ArenaState, c: Command, answer: Answer)
    requires s.worker.Valid()
  {
    if answer.Err? then answer.error.WorkerRefused? && ReasonStands(s, c, answer.error.reason)
    else
      match c
      case Freeze(_) => answer.value.FrozenReply?
      case Release(_, _) => answer.value.ReleasedReply?
      case Clear(_, _) => answer.value.ClearedReply?
      case Status => StatusStands(s.worker, answer.value)
  }

  /** At most one of slot and stashes holds a result that matters; an unclaimed
      freeze is the worker's frozen record, and nothing was executed after a
      freeze or clear whose result is unclaimed. */
  predicate Valid(s: ArenaState) {
    && s.worker.Valid()
    && s.ingressDropped + s.workerDropped <= s.cumulativeDropped
    && (s.slot.Answered? ==> AnswerFits(s, s.slot.command, s.slot.answer))
    && (SlotKind(s.slot, KClear) ==> s.slot.command.ingressDropped <= s.ingressDropped)
    && (s.recoveredFrozen.Some? ==> s.slot.Idle? && s.recoveredClear.None?)
    && (s.recoveredClear.Some? ==> s.slot.Idle? || SlotKind(s.slot, KStatus))
    && (PhaseOf(s).HeldFreeze? ==>
          && E.Describes(s.worker, PhaseOf(s).descriptor)
          && ExecutedLast(s, FreezeExecuted(PhaseOf(s).descriptor)))
    && (PhaseOf(s).HeldClear? ==> ExecutedLast(s, ClearExecuted(PhaseOf(s).report)))
  }

  predicate ExecutedLast(s: ArenaState, e: Executed) {
    s.executed != [] && s.executed[|s.executed| - 1] == e
  }

  predicate FrozenKept(w: E.Worker, w': E.Worker)
    requires w.Valid() && w'.Valid()
  {
    && w'.frozen == w.frozen
    && w'.geometry == w.geometry
    && (w.frozen.Some? ==> w'.epochs[w.frozen.value.index] == w.epochs[w.frozen.value.index])
  }

  predicate Grows(v: ArenaState, v': ArenaState) {
    && Valid(v) && Valid(v')
    && v'.runtimeId == v.runtimeId && v'.worker.geometry == v.worker.geometry
    && v.worker.log <= v'.worker.log
    && v.cumulativeDropped <= v'.cumulativeDropped
    && v.ingressDropped <= v'.ingressDropped && v.workerDropped <= v'.workerDropped
    && (v.dropExhausted ==> v'.dropExhausted)
    && v.executed <= v'.executed
  }

  /** Nobody else submits anything but status commands, and those are answered
      with the state after they were submitted. */
  predicate SlotFrom(v: ArenaState, v': ArenaState)
    requires Valid(v')
  {
    && (!v'.slot.Idle? && !v'.slot.command.Status? ==>
          v'.slot == v.slot || (v'.slot.Answered? && v.slot == Queued(v'.slot.command)))
    && (v'.slot.Answered? && v'.slot.command.Status? && v'.slot.answer.Ok? ==>
          v'.slot == v.slot || |v.worker.log| <= v'.slot.answer.value.activeEnd)
  }

  /** Everything the rest of the system may do while a client holds the lock or
      between two client calls: frames arrive and are dropped, the pending
      command may be executed once, its result may move to a stash, and nothing
      else is executed. */
  predicate Evolve(v: ArenaState, v': ArenaState) {
    && Grows(v, v') && SlotFrom(v, v')
    && var p, p' := PhaseOf(v), PhaseOf(v');
    if p == p' then
      FrozenKept(v.worker, v'.worker) && E.RingKept(v.worker, v'.worker) && v'.executed == v.executed
    else p.Waiting? && Carried(v, p.command, v')
  }

  predicate Carried(v: ArenaState, c: Command, v': ArenaState)
    requires Valid(v) && Valid(v')
  {
    match PhaseOf(v')
    case Quiet =>
      && !c.Release? && FrozenKept(v.worker, v'.worker) && v'.executed == v.executed
      && v'.worker.Mark() <= Max(v.worker.Mark(), if c.Freeze? then c.committed.GetOr(0) else 0)
      && (c.Freeze? && v'.slot == Answered(c, Ok(FrozenReply(None))) ==>
            |v.worker.log| <= Max(v.worker.Mark(), c.committed.GetOr(0)))
    case Waiting(_) => false
    case HeldFreeze(d) =>
      && c.Freeze? && v.worker.frozen.None?
      && E.Whole(v'.worker, d, c.committed, v.worker.Mark()) && |v.worker.log| <= d.end
      && v'.executed == v.executed + [FreezeExecuted(d)]
    case HeldClear(r) =>
      && c.Clear? && FrozenKept(v.worker, v'.worker)
      && ReportFor(c.accounting, r)
      && |v.worker.log| <= r.activeEnd <= |v'.worker.log|
      && r.activeStart == v.worker.OldestAt(r.activeEnd)
      && v'.worker.Mark() == r.activeEnd
      && c.ingressDropped + v.workerDropped <= r.cumulativeDropped <= c.ingressDropped + v'.workerDropped
      && v'.executed == v.executed + [ClearExecuted(r)]
    case ReleaseAnswered(ok) =>
      && c.Release?
      && E.RingKept(v.worker, v'.worker)
      && (ok <==> v.worker.frozen == Some(E.FrozenRecord(c.index, c.generation)))
      && (if ok then v'.worker.frozen.None? && v'.executed == v.executed + [ReleaseExecuted(c.index, c.generation)]
          else FrozenKept(v.worker, v'.worker) && v'.executed == v.executed)
  }

  lemma EvolveTransitive(u: ArenaState, v: ArenaState, w: ArenaState)
    requires Evolve(u, v) && Evolve(v, w)
    ensures Evolve(u, w)
  {
    hide E.RetainedStart, E.Epoch.Oldest, AnswerFits, SlotFrom, PhaseOf;
    SlotFromTransitive(u, v, w);
    if PhaseOf(u) == PhaseOf(v) {
      if PhaseOf(v) == PhaseOf(w) {
        hide Carried;
      } else {
        CarriedLater(u, v, w);
      }
    } else {
      assert PhaseOf(v) == PhaseOf(w) by {
        assert !PhaseOf(v).Waiting?;
      }
      StaysCarried(u, v, w);
    }
  }

  lemma CarriedLater(u: ArenaState, v: ArenaState, w: ArenaState)
    requires Evolve(u, v) && Evolve(v, w) && PhaseOf(u) == PhaseOf(v) && PhaseOf(v) != PhaseOf(w)
    ensures PhaseOf(u).Waiting? && Carried(u, PhaseOf(u).command, w)
  {
    hide E.RetainedStart, E.Epoch.Oldest, AnswerFits, SlotFrom, PhaseOf, E.Epoch.Slice;
  }

  lemma StaysCarried(u: ArenaState, v: ArenaState, w: ArenaState)
    requires Evolve(u, v) && Evolve(v, w) && PhaseOf(u) != PhaseOf(v) && PhaseOf(v) == PhaseOf(w)
    ensures PhaseOf(u).Waiting? && Carried(u, PhaseOf(u).command, w)
  {
    SlotFromTransitive(u, v, w);
    hide E.RetainedStart, E.Epoch.Oldest, AnswerFits;
  }

  lemma SlotFromTransitive(u: ArenaState, v: ArenaState, w: ArenaState)
    requires Evolve(u, v) && Evolve(v, w)
    ensures SlotFrom(u, w)
  {
    hide E.RetainedStart, E.Epoch.Oldest, Carried, FrozenKept, PhaseOf, E.RingKept;
  }

  lemma EvolveReflexive(s: ArenaState)
    requires Valid(s)
    ensures Evolve(s, s)
  {
  }

  lemma EvolveValid(u: ArenaState, v: ArenaState)
    requires Evolve(u, v)
    ensures Valid(v) && Grows(u, v)
  {
  }

  lemma ProcessFreezeEvolves(s: ArenaState)
    requires Valid(s) && s.slot.Queued? && s.slot.command.Freeze?
    ensures Evolve(s, Process(s))
  {
    hide E.RetainedStart, E.Epoch.Oldest;
    var r := E.Freeze(s.worker, s.slot.command.committed);
    if s.dropExhausted || r.1.FreezeFailed? {
      assert PhaseOf(Process(s)).Quiet?;
    } else {
      E.FreezeIsWhole(s.worker, s.slot.command.committed);
      FrozenEvolves(s, Process(s), r.1.descriptor);
    }
  }

  /** A freeze that was carried out, seen from the caller. */
  lemma FrozenEvolves(s: ArenaState, s': ArenaState, d: Option<E.Descriptor>)
    requires Valid(s) && s.slot.Queued? && s.slot.command.Freeze? && s.worker.frozen.None?
    requires s'.worker.Valid() && s'.worker.log == s.worker.log && s'.worker.geometry == s.worker.geometry
    requires s' == s.(worker := s'.worker, slot := Answered(s.slot.command, Ok(FrozenReply(d))),
                      executed := s.executed + if d.Some? then [FreezeExecuted(d.value)] else [])
    requires if d.Some? then E.Whole(s'.worker, d.value, s.slot.command.committed, s.worker.Mark())
                             && d.value.end == |s.worker.log|
             else && s'.worker.frozen.None?
                  && s'.worker.Mark() <= Max(s.slot.command.committed.GetOr(0), s.worker.Mark())
                  && |s.worker.log| <= Max(s.slot.command.committed.GetOr(0), s.worker.Mark())
    ensures Evolve(s, s')
  {
    hide E.RetainedStart, E.Epoch.Oldest;
    assert PhaseOf(s') == if d.Some? then HeldFreeze(d.value) else Quiet;
  }

  lemma ProcessClearEvolves(s: ArenaState)
    requires Valid(s) && s.slot.Queued? && s.slot.command.Clear?
    ensures Evolve(s, Process(s))
  {
    assert s.worker.ActiveStart() == s.worker.OldestAt(|s.worker.log|);
    hide E.RetainedStart, E.Epoch.Oldest;
    var report := ClearReportOf(s, s.slot.command.ingressDropped, s.slot.command.accounting);
    if !s.dropExhausted && report.Some? {
      assert PhaseOf(Process(s)) == HeldClear(report.value);
    }
  }

  lemma ProcessReleaseEvolves(s: ArenaState)
    requires Valid(s) && s.slot.Queued? && s.slot.command.Release?
    ensures Evolve(s, Process(s))
  {
    assert PhaseOf(Process(s)).ReleaseAnswered?;
  }

  lemma ProcessStatusEvolves(s: ArenaState)
    requires Valid(s) && s.slot.Queued? && s.slot.command.Status?
    ensures Evolve(s, Process(s))
  {
    assert s.worker.ActiveStart() == s.worker.OldestAt(|s.worker.log|);
    hide E.RetainedStart, E.Epoch.Oldest, Carried;
    assert PhaseOf(Process(s)) == PhaseOf(s);
  }

  lemma ProcessEvolves(s: ArenaState)
    requires Valid(s) && s.slot.Queued?
    ensures Evolve(s, Process(s)) && UnderLock(s, Process(s))
  {
    match s.slot.command
    case Freeze(_) => ProcessFreezeEvolves(s);
    case Clear(_, _) => ProcessClearEvolves(s);
    case Release(_, _) => ProcessReleaseEvolves(s);
    case Status => ProcessStatusEvolves(s);
  }

  /** While a client holds the lock only the worker touches the slot. */
  predicate UnderLock(v: ArenaState, v': ArenaState) {
    && v'.recoveredFrozen == v.recoveredFrozen && v'.recoveredClear == v.recoveredClear
    && (v'.slot == v.slot || (v.slot.Queued? && v'.slot.Answered? && v'.slot.command == v.slot.command))
  }

  /** Consuming frames and counting drops disturbs nothing. */
  lemma PushEvolves(s: ArenaState, frames: seq<Frame>)
    requires Valid(s)
    ensures var s' := s.(worker := E.Push(s.worker, frames)); Evolve(s, s') && UnderLock(s, s')
  {
    hide E.RetainedStart, E.Epoch.Oldest, Carried, E.Epoch.Slice;
    var s' := s.(worker := E.Push(s.worker, frames));
    assert E.RingKept(s.worker, s'.worker) && FrozenKept(s.worker, s'.worker);
    QuietlyEvolves(s, s');
  }

  lemma QuietlyEvolves(s: ArenaState, s': ArenaState)
    requires Valid(s) && s'.worker.Valid() && E.RingKept(s.worker, s'.worker) && FrozenKept(s.worker, s'.worker)
    requires s'.worker.nextGeneration == s.worker.nextGeneration && s.worker.log <= s'.worker.log
    requires s' == s.(worker := s'.worker, cumulativeDropped := s'.cumulativeDropped,
                      ingressDropped := s'.ingressDropped, workerDropped := s'.workerDropped,
                      dropExhausted := s'.dropExhausted)
    requires s.cumulativeDropped <= s'.cumulativeDropped && s.ingressDropped <= s'.ingressDropped
    requires s.workerDropped <= s'.workerDropped && (s.dropExhausted ==> s'.dropExhausted)
    requires s'.ingressDropped + s'.workerDropped <= s'.cumulativeDropped
    ensures Evolve(s, s') && UnderLock(s, s')
  {
    hide E.RetainedStart, Carried, E.Epoch.Slice;
    assert PhaseOf(s') == PhaseOf(s);
    if s.slot.Answered? {
      AnswerFitsStill(s, s', s.slot.command, s.slot.answer);
    }
  }

  lemma DropsEvolve(s: ArenaState, s': ArenaState)
    requires Valid(s)
    requires s' == s.(cumulativeDropped := s'.cumulativeDropped, ingressDropped := s'.ingressDropped,
                      workerDropped := s'.workerDropped, dropExhausted := s'.dropExhausted)
    requires s.cumulativeDropped <= s'.cumulativeDropped && s.ingressDropped <= s'.ingressDropped
    requires s.workerDropped <= s'.workerDropped && (s.dropExhausted ==> s'.dropExhausted)
    requires s'.ingressDropped + s'.workerDropped <= s'.cumulativeDropped
    ensures Evolve(s, s') && UnderLock(s, s')
  {
    hide E.RetainedStart, E.Epoch.Slice, Evolve, UnderLock;
    QuietlyEvolves(s, s');
  }

  lemma AnswerFitsStill(s: ArenaState, s': ArenaState, c: Command, answer: Answer)
    requires s.worker.Valid() && s'.worker.Valid() && AnswerFits(s, c, answer)
    requires E.RingKept(s.worker, s'.worker) && s'.worker.frozen == s.worker.frozen
    requires s'.worker.nextGeneration == s.worker.nextGeneration && s.worker.log <= s'.worker.log
    requires s.workerDropped <= s'.workerDropped && (s.dropExhausted ==> s'.dropExhausted)
    ensures AnswerFits(s', c, answer)
  {
    hide E.RetainedStart, E.Epoch.Slice;
  }

  /** What a call may do about clears: while a report is unclaimed it executes
      nothing and leaves the report, and a clear that was still to be executed
      ends unclaimed only as the one command executed meanwhile. */
  predicate ClearFirst(v: ArenaState, v': ArenaState) {
    && (PhaseOf(v).HeldClear? ==> PhaseOf(v') == PhaseOf(v) && v'.executed == v.executed)
    && ((PhaseOf(v).Quiet? || (PhaseOf(v).Waiting? && PhaseOf(v).command.Clear?)) && PhaseOf(v').HeldClear? ==>
          v'.executed == v.executed + [ClearExecuted(PhaseOf(v').report)])
  }

  lemma EvolveClearFirst(u: ArenaState, v: ArenaState)
    requires Evolve(u, v)
    ensures ClearFirst(u, v)
  {
    hide E.RetainedStart, E.Epoch.Oldest;
  }

  lemma ClearFirstAfter(u: ArenaState, v: ArenaState, w: ArenaState)
    requires Evolve(u, v) && ClearFirst(v, w)
    ensures ClearFirst(u, w)
  {
    hide E.RetainedStart, E.Epoch.Oldest;
  }

  // ---- situations a coordinator can be in ----
  //
  // `mark` bounds the clears that already removed frames from the active ring;
  // `counted` is what was counted by cause when the pending clear was asked for.

  /** Nobody outside holds a capability; a freeze asked from `committed` may be
      pending or unclaimed. */
  predicate Free(s: ArenaState, committed: Option<u64>, mark: nat)
    requires Valid(s)
  {
    && committed.GetOr(0) <= mark <= |s.worker.log|
    && match PhaseOf(s)
       case Quiet => s.worker.frozen.None? && s.worker.Mark() <= mark
       case Waiting(c) => c == Freeze(committed) && s.worker.frozen.None? && s.worker.Mark() <= mark
       case HeldFreeze(d) => E.Whole(s.worker, d, committed, mark) && mark <= d.end
       case _ => false
  }

  /** `d` is outside the arena, and only its own release can be pending. */
  predicate Held(s: ArenaState, d: E.Descriptor, mark: nat)
    requires Valid(s)
  {
    && s.worker.Mark() <= mark <= |s.worker.log|
    && match PhaseOf(s)
       case Quiet => E.Describes(s.worker, d)
       case Waiting(c) => c == Release(d.index, d.generation) && E.Describes(s.worker, d)
       case ReleaseAnswered(ok) => ok && s.worker.frozen.None?
       case _ => false
  }

  predicate Resting(s: ArenaState, committed: Option<u64>, cap: Option<E.Descriptor>, mark: nat)
    requires Valid(s)
  {
    match cap
    case None => Free(s, committed, mark)
    case Some(d) => PhaseOf(s).Quiet? && E.Describes(s.worker, d) && s.worker.Mark() <= mark <= |s.worker.log|
  }

  /** The clear asked with `acc` is pending or its report is unclaimed. */
  predicate Clearing(s: ArenaState, acc: Accounting, cap: Option<E.Descriptor>, mark: nat, counted: nat)
    requires Valid(s)
  {
    && (match cap
        case None => s.worker.frozen.None?
        case Some(d) => E.Describes(s.worker, d))
    && match PhaseOf(s)
       case Waiting(c) =>
         && c.Clear? && c.accounting == acc && acc.expectedStart <= |s.worker.log|
         && counted <= c.ingressDropped + s.workerDropped
         && s.worker.Mark() <= mark <= |s.worker.log|
       case HeldClear(r) =>
         && ReportFor(acc, r) && acc.expectedStart <= r.activeEnd <= |s.worker.log|
         && ReportKept(s, acc, r, mark, counted)
         && s.worker.Mark() <= r.activeEnd
       case _ => false
  }

  /** What a report counts as lost had left the ring, and its drop counter lies
      between what was counted by cause when it was asked for and the cumulative
      counter. */
  predicate ReportKept(s: ArenaState, acc: Accounting, r: ClearReport, mark: nat, counted: nat)
    requires Valid(s)
  {
    && mark <= r.activeEnd && counted <= r.cumulativeDropped <= s.cumulativeDropped
    && E.Kept(s.worker.geometry, mark, acc.expectedStart, Max(acc.expectedStart, r.activeStart), r.activeEnd)
  }

  predicate ClearSituation(s: ArenaState, acc: Accounting, committed: Option<u64>, cap: Option<E.Descriptor>,
                           mark: nat, counted: nat)
    requires Valid(s)
  {
    committed.GetOr(0) <= mark && (Clearing(s, acc, cap, mark, counted) || Resting(s, committed, cap, mark))
  }

  /** A coordinator whose own clears are all settled may ask for one. */
  predicate MayClear(s: ArenaState, acc: Accounting, committed: Option<u64>, cap: Option<E.Descriptor>, mark: nat,
                     counted: nat)
    requires Valid(s)
  {
    && Resting(s, committed, cap, mark) && acc.expectedStart <= |s.worker.log|
    && committed.GetOr(0) <= mark && counted <= s.ingressDropped + s.workerDropped
  }

  lemma FreeEvolves(v: ArenaState, v': ArenaState, committed: Option<u64>, mark: nat)
    requires Evolve(v, v') && Free(v, committed, mark)
    ensures Free(v', committed, mark)
  {
    hide E.RetainedStart, E.Epoch.Oldest;
  }

  lemma HeldEvolves(v: ArenaState, v': ArenaState, d: E.Descriptor, mark: nat)
    requires Evolve(v, v') && Held(v, d, mark)
    ensures Held(v', d, mark)
  {
    hide E.RetainedStart, E.Epoch.Oldest;
  }

  lemma RestingEvolves(v: ArenaState, v': ArenaState, committed: Option<u64>, cap: Option<E.Descriptor>, mark: nat)
    requires Evolve(v, v') && Resting(v, committed, cap, mark)
    ensures Resting(v', committed, cap, mark)
  {
    if cap.None? {
      FreeEvolves(v, v', committed, mark);
    }
  }

  lemma MayClearEvolves(v: ArenaState, v': ArenaState, acc: Accounting, committed: Option<u64>,
                        cap: Option<E.Descriptor>, mark: nat, counted: nat)
    requires Evolve(v, v') && MayClear(v, acc, committed, cap, mark, counted)
    ensures MayClear(v', acc, committed, cap, mark, counted)
  {
    RestingEvolves(v, v', committed, cap, mark);
  }

  /** Others put no command of this kind into the slot. */
  lemma SlotStays(v: ArenaState, v': ArenaState, kind: Kind)
    requires Evolve(v, v') && kind != KStatus && SlotKind(v'.slot, kind)
    ensures SlotKind(v.slot, kind)
  {
  }

  lemma ClearingEvolves(v: ArenaState, v': ArenaState, acc: Accounting, cap: Option<E.Descriptor>, mark: nat,
                        counted: nat)
    requires Evolve(v, v') && Clearing(v, acc, cap, mark, counted)
    ensures Clearing(v', acc, cap, mark, counted) || (PhaseOf(v').Quiet? && FrozenKept(v.worker, v'.worker)
                                             && v'.worker.Mark() <= mark <= |v'.worker.log|)
  {
    hide E.RetainedStart, E.Epoch.Oldest;
    if PhaseOf(v).Waiting? && PhaseOf(v').HeldClear? {
      E.OldestKept(v.worker, PhaseOf(v').report.activeEnd, acc.expectedStart, mark);
    }
  }

  lemma ClearSituationEvolves(v: ArenaState, v': ArenaState, acc: Accounting, committed: Option<u64>,
                              cap: Option<E.Descriptor>, mark: nat, counted: nat)
    requires Evolve(v, v') && ClearSituation(v, acc, committed, cap, mark, counted)
    ensures ClearSituation(v', acc, committed, cap, mark, counted)
  {
    if Resting(v, committed, cap, mark) {
      RestingEvolves(v, v', committed, cap, mark);
    } else {
      ClearingEvolves(v, v', acc, cap, mark, counted);
    }
  }

  // ---- the arena object ----

  datatype Recovery = Fresh | Recovered(answer: Answer) | Refused(error: Error)

  /** What keeps a caller away from the slot: a poll that ran out, or a result
      that only a caller of its own kind may take. */
  predicate Hindered(s: ArenaState, requested: Kind, error: Error) {
    match error
    case CommandTimedOut => !s.slot.Idle?
    case ClearResultPending => requested != KStatus && s.recoveredClear.Some?
    case FrozenResultPending => requested != KFreeze && s.recoveredFrozen.Some?
    case ReleaseResultPending => requested != KRelease && SlotKind(s.slot, KRelease)
    case _ => false
  }

  /** Why a call of one kind failed, read off the state it left; `prompt` when no
      wait ever runs out. */
  predicate Because(s: ArenaState, requested: Kind, error: Error, prompt: bool) {
    match error
    case ClientTimedOut => !prompt
    case WorkerRefused(reason) => Refuses(s, requested, reason)
    case _ => Hindered(s, requested, error) && (error.CommandTimedOut? ==> !prompt)
  }

  /** What `RecoverBefore` may leave behind, `seen` being the state its last
      look at the slot found. */
  predicate RecoveryOutcome(seen: ArenaState, requested: Kind, r: Recovery, s: ArenaState)
    requires Valid(seen) && Valid(s)
  {
    match r
    case Fresh =>
      && s == seen && s.slot.Idle? && s.recoveredFrozen.None?
      && (requested != KStatus ==> s.recoveredClear.None?)
    case Refused(error) => s == seen && Hindered(s, requested, error)
    case Recovered(answer) =>
      && (answer.Err? ==> answer.error.WorkerRefused? && Refuses(s, requested, answer.error.reason))
      && match requested
      case KFreeze =>
        if answer.Ok? && answer.value.FrozenReply? && answer.value.descriptor.Some? then
          PhaseOf(seen) == HeldFreeze(answer.value.descriptor.value)
          && s == seen.(slot := Idle, recoveredFrozen := None)
        else s == seen && PhaseOf(s).Quiet? && (answer.Ok? ==> answer.value == FrozenReply(None))
      case KRelease => PhaseOf(seen) == ReleaseAnswered(answer.Ok?) && s == seen.(slot := Idle)
                       && (answer.Ok? ==> answer.value.ReleasedReply?)
      case KClear => s == seen && answer.Err?
      case KStatus => s == seen && (answer.Ok? ==> StatusStands(s.worker, answer.value))
  }

  lemma RecoveryClearFirst(u: ArenaState, seen: ArenaState, requested: Kind, r: Recovery, s: ArenaState)
    requires Evolve(u, seen) && Valid(s) && RecoveryOutcome(seen, requested, r, s) && requested != KStatus
    ensures ClearFirst(u, s) && Grows(u, s)
    ensures r.Fresh? ==> s == seen && PhaseOf(s).Quiet? && s.slot.Idle? && s.recoveredClear.None?
  {
    hide E.RetainedStart, E.Epoch.Oldest;
  }

  lemma QueuedValid(s: ArenaState, c: Command)
    requires Valid(s) && s.slot.Idle? && s.recoveredFrozen.None?
    requires c.Status? || s.recoveredClear.None?
    requires c.Clear? ==> c.ingressDropped <= s.ingressDropped
    ensures Valid(s.(slot := Queued(c)))
  {
  }

  lemma TakenValid(s: ArenaState)
    requires Valid(s) && s.slot.Answered?
    ensures Valid(s.(slot := Idle)) && AnswerFits(s.(slot := Idle), s.slot.command, s.slot.answer)
  {
  }

  /** A status command that came and went. */
  lemma StatusTaken(v: ArenaState, seen: ArenaState, answer: Answer, s: ArenaState)
    requires Valid(v) && v.slot.Idle? && v.recoveredFrozen.None? && Valid(s)
    requires var q := v.(slot := Queued(Command.Status)); Evolve(q, seen) && UnderLock(q, seen)
    requires if answer == Err(CommandTimedOut) then s == seen
             else seen.slot == Answered(Command.Status, answer) && s == seen.(slot := Idle)
    ensures Evolve(v, s)
    ensures answer.Ok? ==> |v.worker.log| <= answer.value.activeEnd
  {
    hide E.RetainedStart, E.Epoch.Oldest, Carried, E.Describes, E.Epoch.Slice;
    assert PhaseOf(v) == PhaseOf(v.(slot := Queued(Command.Status)));
  }

  /** A fresh command in a slot that was free, and its answer taken if it came. */
  lemma SubmitClearFirst(u: ArenaState, v: ArenaState, c: Command, seen: ArenaState, answer: Answer, s: ArenaState)
    requires Evolve(u, v) && PhaseOf(v).Quiet? && v.slot.Idle? && v.recoveredFrozen.None? && v.recoveredClear.None?
    requires !c.Status? && Evolve(v.(slot := Queued(c)), seen) && UnderLock(v.(slot := Queued(c)), seen) && Valid(s)
    requires if answer == Err(CommandTimedOut) then s == seen
             else seen.slot == Answered(c, answer) && s == seen.(slot := Idle)
    ensures ClearFirst(u, s) && Grows(v, s)
  {
    hide E.RetainedStart, E.Epoch.Oldest;
    var q := v.(slot := Queued(c));
    assert PhaseOf(q) == Waiting(c);
  }

  /** A stale result is handed to a caller of its own kind, stashed when it must
      not be lost, and dropped otherwise. */
  function Settle(s: ArenaState, requested: Kind): (ArenaState, Recovery)
    requires Valid(s) && s.slot.Answered? && s.recoveredFrozen.None?
    requires s.recoveredClear.Some? ==> requested == KStatus
    requires s.slot.command.KindOf() == KRelease ==> requested == KRelease
  {
    var answer := s.slot.answer;
    var idle := s.(slot := Idle);
    match s.slot.command.KindOf()
    case KClear =>
      if answer.Ok? then
        (idle.(recoveredClear := Some(answer.value.report)),
         if requested == KStatus then Fresh else Refused(ClearResultPending))
      else (idle, if requested == KClear then Recovered(answer) else Fresh)
    case KFreeze =>
      if answer.Ok? && answer.value.descriptor.Some? then
        if requested == KFreeze then (idle, Recovered(answer))
        else (idle.(recoveredFrozen := answer.value.descriptor), Refused(FrozenResultPending))
      else (idle, if requested == KFreeze then Recovered(answer) else Fresh)
    case KRelease => (idle, Recovered(answer))
    case KStatus => (idle, if requested == KStatus then Recovered(answer) else Fresh)
  }

  /** The state the outcome is judged from: the look at the slot, or the settled
      state when nothing that matters was taken. */
  function Judged(s: ArenaState, requested: Kind): ArenaState
    requires Valid(s) && s.slot.Answered? && s.recoveredFrozen.None?
    requires s.recoveredClear.Some? ==> requested == KStatus
    requires s.slot.command.KindOf() == KRelease ==> requested == KRelease
  {
    var (s', r) := Settle(s, requested);
    if r.Recovered? && (PhaseOf(s).HeldFreeze? || PhaseOf(s).ReleaseAnswered?) then s else s'
  }

  lemma SettleIsSound(s: ArenaState, requested: Kind)
    requires Valid(s) && s.slot.Answered? && s.recoveredFrozen.None?
    requires s.recoveredClear.Some? ==> requested == KStatus
    requires s.slot.command.KindOf() == KRelease ==> requested == KRelease
    ensures var (s', r) := Settle(s, requested);
            && Valid(s') && Evolve(s, Judged(s, requested))
            && RecoveryOutcome(Judged(s, requested), requested, r, s')
            && (requested == s.slot.command.KindOf() && !PhaseOf(s).HeldClear? ==> r == Recovered(s.slot.answer))
  {
    hide E.RetainedStart, E.Epoch.Oldest;
    match s.slot.command.KindOf()
    case KClear => SettleClearIsSound(s, requested);
    case KFreeze => SettleFreezeIsSound(s, requested);
    case _ =>
  }

  lemma SettleClearIsSound(s: ArenaState, requested: Kind)
    requires Valid(s) && s.slot.Answered? && s.recoveredFrozen.None? && s.slot.command.KindOf() == KClear
    requires s.recoveredClear.Some? ==> requested == KStatus
    ensures var (s', r) := Settle(s, requested);
            && Valid(s') && Evolve(s, Judged(s, requested))
            && RecoveryOutcome(Judged(s, requested), requested, r, s')
  {
    assert if s.slot.answer.Ok? then s.slot.answer.value.ClearedReply?
           else s.slot.answer.error.WorkerRefused? && Refuses(s, KClear, s.slot.answer.error.reason);
    hide E.RetainedStart, E.Epoch.Oldest, Carried, AnswerFits, E.Describes, E.Worker.Valid;
  }

  lemma SettleFreezeIsSound(s: ArenaState, requested: Kind)
    requires Valid(s) && s.slot.Answered? && s.recoveredFrozen.None? && s.slot.command.KindOf() == KFreeze
    requires s.recoveredClear.Some? ==> requested == KStatus
    ensures var (s', r) := Settle(s, requested);
            && Valid(s') && Evolve(s, Judged(s, requested))
            && RecoveryOutcome(Judged(s, requested), requested, r, s')
  {
    TakenValid(s);
    if s.slot.answer.Ok? && s.slot.answer.value.descriptor.Some? {
      FreezeRestashed(s);
    } else {
      EmptyTaken(s);
    }
    hide E.RetainedStart, E.Epoch.Oldest, Carried, AnswerFits, E.Describes, E.Worker.Valid, SlotFrom;
  }

  lemma FreezeRestashed(s: ArenaState)
    requires Valid(s) && s.slot.Answered? && s.recoveredFrozen.None? && s.recoveredClear.None?
    requires SlotKind(s.slot, KFreeze) && s.slot.answer.Ok? && s.slot.answer.value.descriptor.Some?
    ensures var s' := s.(slot := Idle, recoveredFrozen := s.slot.answer.value.descriptor);
            Valid(s') && Evolve(s, s')
  {
    assert PhaseOf(s) == HeldFreeze(s.slot.answer.value.descriptor.value);
    hide E.RetainedStart, E.Epoch.Oldest, Carried, AnswerFits, E.Describes, E.Worker.Valid;
  }

  /** An answer nobody depends on. */
  lemma EmptyTaken(s: ArenaState)
    requires Valid(s) && s.slot.Answered? && PhaseOf(s).Quiet?
    ensures Evolve(s, s.(slot := Idle))
  {
    TakenValid(s);
    hide E.RetainedStart, E.Epoch.Oldest, Carried, AnswerFits, E.Describes, E.Worker.Valid;
  }

  /** What a freeze asked from `committed` leaves, given nobody held a
      capability before. */
  predicate FreezeDone(s: ArenaState, committed: Option<u64>, answer: Answer, mark: nat)
    requires Valid(s)
  {
    match answer
    case Err(_) => Free(s, committed, mark)
    case Ok(reply) =>
      && reply.FrozenReply? && PhaseOf(s).Quiet?
      && match reply.descriptor
         case None => Free(s, committed, mark)
         case Some(d) =>
           E.Whole(s.worker, d, committed, mark) && mark <= d.end && ExecutedLast(s, FreezeExecuted(d))
  }

  lemma FreezeRecovered(seen: ArenaState, r: Recovery, s: ArenaState, committed: Option<u64>, mark: nat)
    requires Valid(seen) && Valid(s) && RecoveryOutcome(seen, KFreeze, r, s) && Free(seen, committed, mark)
    ensures r.Recovered? ==> FreezeDone(s, committed, r.answer, mark)
    ensures r.Refused? ==> Free(s, committed, mark)
    ensures r.Fresh? ==> PhaseOf(s).Quiet? && Free(s, committed, mark)
  {
    hide E.RetainedStart, E.Epoch.Oldest;
  }

  /** What is frozen on request reaches as far as the log did. */
  lemma FreezeCovers(v: ArenaState, committed: Option<u64>, seen: ArenaState, answer: Answer)
    requires Valid(v) && v.slot.Idle? && v.recoveredFrozen.None? && v.recoveredClear.None?
    requires var q := v.(slot := Queued(Freeze(committed))); Evolve(q, seen) && UnderLock(q, seen)
    requires answer == Err(CommandTimedOut) || seen.slot == Answered(Freeze(committed), answer)
    ensures answer.Ok? && answer.value.FrozenReply? && answer.value.descriptor.Some? ==>
              |v.worker.log| <= answer.value.descriptor.value.end
  {
    hide E.RetainedStart, E.Epoch.Oldest, AnswerFits, E.Describes, E.Epoch.Slice;
    assert PhaseOf(v.(slot := Queued(Freeze(committed)))) == Waiting(Freeze(committed));
  }

  lemma FreezeNotAsked(s: ArenaState, committed: Option<u64>, mark: nat, error: Error)
    requires Valid(s) && Free(s, committed, mark)
    ensures FreezeDone(s, committed, Err(error), mark)
  {
  }

  lemma QuietStays(v: ArenaState, v': ArenaState)
    requires Evolve(v, v') && PhaseOf(v).Quiet?
    ensures PhaseOf(v').Quiet?
  {
  }

  /** With nothing pending only a wait or the worker itself can fail a call. */
  predicate Unhindered(error: Error) { error.ClientTimedOut? || error.CommandTimedOut? || error.WorkerRefused? }

  /** Why a clear failed: with nothing pending before it, only for a wait or a
      refusal, and for want of room in the loss counters only when they are full. */
  predicate ClearFailed(was: ArenaState, s: ArenaState, acc: Accounting, error: Error, prompt: bool) {
    && Because(s, KClear, error, prompt)
    && (PhaseOf(was).Quiet? ==> Unhindered(error))
    && (error == WorkerRefused(LossOverflow) && !SlotKind(was.slot, KClear) ==> Exhausted(s, acc))
  }

  lemma ClearLate(was: ArenaState, s: ArenaState, acc: Accounting)
    ensures ClearFailed(was, s, acc, ClientTimedOut, false)
  {
  }

  lemma ClearFailedSince(u: ArenaState, v: ArenaState, s: ArenaState, acc: Accounting, error: Error, prompt: bool)
    requires Evolve(u, v) && ClearFailed(v, s, acc, error, prompt)
    ensures ClearFailed(u, s, acc, error, prompt)
  {
    if SlotKind(v.slot, KClear) { SlotStays(u, v, KClear); }
    if PhaseOf(u).Quiet? { QuietStays(u, v); }
  }

  lemma QuietUnhindered(s: ArenaState, requested: Kind, error: Error)
    requires Valid(s) && PhaseOf(s).Quiet? && Hindered(s, requested, error)
    ensures Unhindered(error)
  {
  }

  /** A freeze asked for again meets nothing but a wait or the worker's refusal. */
  lemma FreeUnhindered(s: ArenaState, committed: Option<u64>, mark: nat, error: Error, prompt: bool)
    requires Valid(s) && Free(s, committed, mark) && Because(s, KFreeze, error, prompt)
    ensures Unhindered(error)
  {
  }

  lemma HeldFreezeStays(v: ArenaState, v': ArenaState)
    requires Evolve(v, v') && PhaseOf(v).HeldFreeze?
    ensures PhaseOf(v') == PhaseOf(v)
  {
  }

  lemma StashIsHeld(s: ArenaState)
    requires Valid(s) && s.recoveredFrozen.Some?
    ensures PhaseOf(s) == HeldFreeze(s.recoveredFrozen.value)
  {
  }

  lemma AnsweredReleaseStays(v: ArenaState, v': ArenaState)
    requires Evolve(v, v') && PhaseOf(v).ReleaseAnswered?
    ensures PhaseOf(v') == PhaseOf(v)
  {
  }

  lemma AnsweredReleaseIs(s: ArenaState)
    requires PhaseOf(s).ReleaseAnswered?
    ensures PhaseOf(s).ok == s.slot.answer.Ok?
  {
  }

  lemma ReleaseNotAsked(s: ArenaState, d: E.Descriptor, mark: nat)
    requires Valid(s) && Held(s, d, mark)
    ensures ReleaseDone(s, d, false, mark)
  {
  }

  lemma FreezeSubmitted(v: ArenaState, committed: Option<u64>, seen: ArenaState, answer: Answer, s: ArenaState,
                        mark: nat)
    requires Valid(v) && PhaseOf(v).Quiet? && Free(v, committed, mark)
    requires v.slot.Idle? && v.recoveredFrozen.None? && v.recoveredClear.None?
    requires var q := v.(slot := Queued(Freeze(committed))); Evolve(q, seen) && UnderLock(q, seen)
    requires Valid(s)
    requires if answer == Err(CommandTimedOut) then s == seen
             else seen.slot == Answered(Freeze(committed), answer) && s == seen.(slot := Idle)
    ensures FreezeDone(s, committed, answer, mark)
    ensures answer == Ok(FrozenReply(None)) ==> |v.worker.log| <= mark
  {
    hide E.RetainedStart, E.Epoch.Oldest;
    var q := v.(slot := Queued(Freeze(committed)));
    assert Free(q, committed, mark);
    FreeEvolves(q, seen, committed, mark);
  }

  predicate ReleaseDone(s: ArenaState, d: E.Descriptor, pass: bool, mark: nat)
    requires Valid(s)
  {
    if pass then PhaseOf(s).Quiet? && s.worker.frozen.None? && s.worker.Mark() <= mark <= |s.worker.log|
    else Held(s, d, mark)
  }

  lemma ReleaseRecovered(seen: ArenaState, r: Recovery, s: ArenaState, d: E.Descriptor, mark: nat)
    requires Valid(seen) && Valid(s) && RecoveryOutcome(seen, KRelease, r, s) && Held(seen, d, mark)
    ensures r.Recovered? ==> r.answer.Ok? && ReleaseDone(s, d, true, mark)
    ensures r.Refused? ==> ReleaseDone(s, d, false, mark) && r.error == CommandTimedOut
    ensures r.Fresh? ==> PhaseOf(s).Quiet? && Held(s, d, mark)
  {
  }

  lemma ReleaseSubmitted(v: ArenaState, d: E.Descriptor, seen: ArenaState, answer: Answer, s: ArenaState, mark: nat)
    requires Valid(v) && PhaseOf(v).Quiet? && Held(v, d, mark)
    requires v.slot.Idle? && v.recoveredFrozen.None? && v.recoveredClear.None?
    requires var q := v.(slot := Queued(Release(d.index, d.generation))); Evolve(q, seen) && UnderLock(q, seen)
    requires Valid(s)
    requires if answer == Err(CommandTimedOut) then s == seen
             else seen.slot == Answered(Release(d.index, d.generation), answer) && s == seen.(slot := Idle)
    ensures ReleaseDone(s, d, answer.Ok?, mark)
    ensures answer.Err? ==> answer == Err(CommandTimedOut)
  {
    var q := v.(slot := Queued(Release(d.index, d.generation)));
    assert Held(q, d, mark);
    HeldEvolves(q, seen, d, mark);
  }

  /** A clear report in its caller's hands: the ring is empty up to its end. */
  predicate ReportTakenOver(s: ArenaState, acc: Accounting, r: ClearReport, committed: Option<u64>,
                            cap: Option<E.Descriptor>, mark: nat, counted: nat)
    requires Valid(s)
  {
    && ExecutedLast(s, ClearExecuted(r))
    && acc.expectedStart <= r.activeEnd && ReportKept(s, acc, r, mark, counted)
    && PhaseOf(s).Quiet? && r.activeEnd <= |s.worker.log| && Resting(s, committed, cap, r.activeEnd)
  }

  /** What a clear asked with `acc` leaves. `logged` is the log length when it
      was asked. */
  predicate ClearDone(s: ArenaState, acc: Accounting, committed: Option<u64>, cap: Option<E.Descriptor>,
                      mark: nat, counted: nat, logged: nat, answer: Answer)
    requires Valid(s)
  {
    match answer
    case Ok(reply) =>
      && reply.ClearedReply? && ReportFor(acc, reply.report)
      && logged <= reply.report.activeEnd <= |s.worker.log|
      && ReportTakenOver(s, acc, reply.report, committed, cap, mark, counted)
    case Err(error) =>
      Resting(s, committed, cap, mark) || (error == CommandTimedOut && Clearing(s, acc, cap, mark, counted))
  }

  function AnswerOf(r: Result<ClearReport, Error>): Answer {
    match r
    case Ok(report) => Ok(ClearedReply(report))
    case Err(error) => Err(error)
  }

  lemma ClearDoneSince(s: ArenaState, acc: Accounting, committed: Option<u64>, cap: Option<E.Descriptor>,
                       mark: nat, counted: nat, logged: nat, since: nat, answer: Answer)
    requires Valid(s) && ClearDone(s, acc, committed, cap, mark, counted, since, answer) && logged <= since
    ensures ClearDone(s, acc, committed, cap, mark, counted, logged, answer)
  {
  }

  lemma ClearNotAsked(s: ArenaState, acc: Accounting, committed: Option<u64>, cap: Option<E.Descriptor>,
                      mark: nat, counted: nat, logged: nat, error: Error)
    requires Valid(s) && Resting(s, committed, cap, mark)
    ensures ClearDone(s, acc, committed, cap, mark, counted, logged, Err(error))
  {
  }

  /** Why a lost clear report could not be fetched. */
  predicate Unrecovered(s: ArenaState, identity: ClearIdentity, error: Error, prompt: bool) {
    match error
    case ClientTimedOut => !prompt
    case CommandTimedOut => !prompt && SlotKind(s.slot, KClear)
    case IdentityMismatch => s.recoveredClear.Some? && !identity.Matches(s.recoveredClear.value)
    case NotRecoverable => s.recoveredClear.None? && !s.slot.Idle? && !SlotKind(s.slot, KClear)
    case WorkerRefused(reason) => Refuses(s, KClear, reason)
    case _ => false
  }

  lemma HeldClearStays(v: ArenaState, v': ArenaState)
    requires Evolve(v, v') && PhaseOf(v).HeldClear?
    ensures PhaseOf(v') == PhaseOf(v)
  {
  }

  /** Where an unclaimed report is. */
  lemma HeldClearIs(s: ArenaState)
    requires Valid(s) && PhaseOf(s).HeldClear?
    ensures s.recoveredFrozen.None?
    ensures if s.recoveredClear.Some? then s.recoveredClear.value == PhaseOf(s).report
            else s.slot.Answered? && SlotKind(s.slot, KClear) && s.slot.answer == Ok(ClearedReply(PhaseOf(s).report))
  {
  }

  lemma ClearRecovered(seen: ArenaState, r: Recovery, s: ArenaState, committed: Option<u64>,
                       cap: Option<E.Descriptor>, mark: nat)
    requires Valid(seen) && Valid(s) && RecoveryOutcome(seen, KClear, r, s) && Resting(seen, committed, cap, mark)
    ensures Resting(s, committed, cap, mark)
    ensures r.Fresh? ==> PhaseOf(s).Quiet?
  {
  }

  lemma ClearSubmitted(v: ArenaState, ingress: u64, acc: Accounting, committed: Option<u64>,
                       cap: Option<E.Descriptor>, mark: nat, counted: nat, seen: ArenaState, answer: Answer,
                       s: ArenaState)
    requires Valid(v) && PhaseOf(v).Quiet? && MayClear(v, acc, committed, cap, mark, counted)
    requires v.slot.Idle? && v.recoveredFrozen.None? && v.recoveredClear.None? && ingress == v.ingressDropped
    requires var q := v.(slot := Queued(Clear(ingress, acc))); Evolve(q, seen) && UnderLock(q, seen)
    requires Valid(s)
    requires if answer == Err(CommandTimedOut) then s == seen
             else seen.slot == Answered(Clear(ingress, acc), answer) && s == seen.(slot := Idle)
    ensures ClearDone(s, acc, committed, cap, mark, counted, |v.worker.log|, answer)
  {
    var q := v.(slot := Queued(Clear(ingress, acc)));
    assert Clearing(q, acc, cap, mark, counted);
    ClearSituationEvolves(q, seen, acc, committed, cap, mark, counted);
  }

  /** What asking for a lost clear report leaves. */
  predicate ClearRecoveryDone(s: ArenaState, acc: Accounting, committed: Option<u64>, cap: Option<E.Descriptor>,
                              mark: nat, counted: nat, r: Result<Option<ClearReport>, Error>)
    requires Valid(s)
  {
    match r
    case Err(_) => ClearSituation(s, acc, committed, cap, mark, counted)
    case Ok(None) => Resting(s, committed, cap, mark)
    case Ok(Some(report)) =>
      && ReportFor(acc, report) && acc.expectedStart <= report.activeEnd <= |s.worker.log|
      && ReportTakenOver(s, acc, report, committed, cap, mark, counted)
  }

  /** A report in the slot answers the clear that is pending. */
  lemma ReportTaken(s: ArenaState, acc: Accounting, committed: Option<u64>, cap: Option<E.Descriptor>, mark: nat,
                    counted: nat)
    requires Valid(s) && s.recoveredFrozen.None? && s.recoveredClear.None?
    requires s.slot.Answered? && s.slot.command.KindOf() == KClear && s.slot.answer.Ok?
    requires ClearSituation(s, acc, committed, cap, mark, counted)
    ensures Valid(s.(slot := Idle))
    ensures ClearRecoveryDone(s.(slot := Idle), acc, committed, cap, mark, counted,
                              Ok(Some(s.slot.answer.value.report)))
  {
  }

  lemma RecoveryUnchanged(s: ArenaState, acc: Accounting, committed: Option<u64>, cap: Option<E.Descriptor>,
                          mark: nat, counted: nat)
    requires Valid(s)
    ensures ClearSituation(s, acc, committed, cap, mark, counted) ==>
              && (forall error :: ClearRecoveryDone(s, acc, committed, cap, mark, counted, Err(error)))
              && (s.slot.Idle? && s.recoveredClear.None? ==>
                    ClearRecoveryDone(s, acc, committed, cap, mark, counted, Ok(None)))
  {
  }

  lemma StashTaken(s: ArenaState, acc: Accounting, committed: Option<u64>, cap: Option<E.Descriptor>, mark: nat,
                   counted: nat)
    requires Valid(s) && s.recoveredClear.Some?
    ensures Valid(s.(recoveredClear := None)) && Grows(s, s.(recoveredClear := None))
    ensures ClearSituation(s, acc, committed, cap, mark, counted) ==>
              ClearRecoveryDone(s.(recoveredClear := None), acc, committed, cap, mark, counted, Ok(s.recoveredClear))
  {
  }

  lemma RefusalTaken(s: ArenaState)
    requires Valid(s) && s.slot.Answered? && s.slot.command.KindOf() == KClear && s.slot.answer.Err?
    requires s.recoveredFrozen.None? && s.recoveredClear.None?
    ensures Evolve(s, s.(slot := Idle))
  {
  }

  lemma ReportRestashed(s: ArenaState)
    requires Valid(s) && s.slot.Answered? && s.slot.command.KindOf() == KClear && s.slot.answer.Ok?
    requires s.recoveredFrozen.None? && s.recoveredClear.None?
    ensures Evolve(s, s.(slot := Idle, recoveredClear := Some(s.slot.answer.value.report)))
  {
  }

  class CaptureArena {
    var s: ArenaState
    const prompt: bool

    /** On a `prompt` arena no wait runs out before the worker answers. */
    constructor (runtimeId: u64, geometry: E.Geometry, prompt: bool)
      requires geometry.Valid()
      ensures this.prompt == prompt
      ensures Valid(s) && Free(s, None, 0) && PhaseOf(s) == Quiet
      ensures s.runtimeId == runtimeId && s.worker.log == [] && s.executed == [] && s.cumulativeDropped == 0
    {
      this.prompt := prompt;
      s := ArenaState(runtimeId, E.Start(geometry), false, 0, 0, 0, Idle, None, None, []);
    }

    /** The worker consumes queued frames. */
    method WorkerConsumes()
      requires Valid(s)
      modifies this
      ensures Evolve(old(s), s) && UnderLock(old(s), s)
    {
      var frames: seq<Frame> := *;
      PushEvolves(s, frames);
      s := s.(worker := E.Push(s.worker, frames));
    }

    /** Frames are dropped at ingress or by the worker: the cumulative counter
        moves first, the per-cause counters follow in a separate step. */
    method DropsCounted()
      requires Valid(s)
      modifies this
      ensures Evolve(old(s), s) && UnderLock(old(s), s)
    {
      hide Evolve, UnderLock, PhaseOf, AnswerFits, E.Describes;
      ghost var was := s;
      var n: nat, atIngress: nat, atWorker: nat := *, *, *;
      if s.cumulativeDropped + n > U64_MAX {
        s := s.(dropExhausted := true);
      } else {
        s := s.(cumulativeDropped := s.cumulativeDropped + n);
      }
      if s.ingressDropped + atIngress + s.workerDropped + atWorker <= s.cumulativeDropped {
        s := s.(ingressDropped := s.ingressDropped + atIngress, workerDropped := s.workerDropped + atWorker);
      }
      DropsEvolve(was, s);
    }

    /** The worker and the producer run for a while. */
    method WorkerRuns()
      requires Valid(s)
      modifies this
      ensures Evolve(old(s), s) && UnderLock(old(s), s)
    {
      hide E.RetainedStart, E.Epoch.Oldest;
      var steps: nat := *;
      while steps > 0
        invariant Evolve(old(s), s) && UnderLock(old(s), s)
      {
        label Step:
        if * {
          WorkerConsumes();
        } else if * {
          DropsCounted();
        } else if s.slot.Queued? {
          ProcessEvolves(s);
          s := Process(s);
        }
        EvolveTransitive(old(s), old@Step(s), s);
        steps := steps - 1;
      }
    }

    /** Polls the slot until a result is there or the deadline passes; a result
        that comes too late stays for a later caller. */
    method AwaitResult() returns (ready: bool)
      requires Valid(s) && !s.slot.Idle?
      modifies this
      ensures Evolve(old(s), s) && UnderLock(old(s), s)
      ensures ready ==> s.slot.Answered?
      ensures prompt || old(s.slot).Answered? ==> ready
    {
      hide Evolve, PhaseOf;
      WorkerRuns();
      EvolveValid(old(s), s);
      if prompt && s.slot.Queued? {
        ProcessEvolves(s);
        EvolveTransitive(old(s), s, Process(s));
        s := Process(s);
        EvolveValid(old(s), s);
      }
      ready := s.slot.Answered?;
      label Looked:
      EvolveValid(old(s), s);
      WorkerRuns();
      EvolveTransitive(old(s), old@Looked(s), s);
    }

    /** Deals with whatever an earlier caller left behind.  `Fresh` means the
        slot is free for a new command. */
    method RecoverBefore(requested: Kind) returns (r: Recovery, ghost seen: ArenaState)
      requires Valid(s)
      modifies this
      ensures Evolve(old(s), seen) && Valid(seen) && Valid(s)
      ensures RecoveryOutcome(seen, requested, r, s)
      ensures r.Refused? ==> Because(s, requested, r.error, prompt)
      ensures requested == KFreeze && old(s).recoveredFrozen.Some? && old(s).recoveredClear.None? ==>
                r == Recovered(Ok(FrozenReply(old(s).recoveredFrozen)))
      ensures requested == KFreeze && PhaseOf(old(s)).HeldFreeze? ==>
                r == Recovered(Ok(FrozenReply(Some(PhaseOf(old(s)).descriptor))))
      ensures requested == KRelease && PhaseOf(old(s)).ReleaseAnswered? ==> r == Recovered(old(s).slot.answer)
      ensures r.Recovered? ==>
                SlotKind(old(s).slot, requested) || (requested == KFreeze && old(s).recoveredFrozen.Some?)
    {
      EvolveReflexive(s);
      hide Evolve, Carried, AnswerFits, E.Describes;
      seen := s;
      if s.recoveredClear.Some? && requested != KStatus {
        return Refused(ClearResultPending), seen;
      }
      if s.recoveredFrozen.Some? {
        if requested == KFreeze {
          var answer := Ok(FrozenReply(s.recoveredFrozen));
          s := s.(recoveredFrozen := None);
          return Recovered(answer), seen;
        }
        return Refused(FrozenResultPending), seen;
      }
      if s.slot.Idle? {
        return Fresh, seen;
      }
      if SlotKind(s.slot, KRelease) && requested != KRelease {
        return Refused(ReleaseResultPending), seen;
      }
      r, seen := RecoverStale(requested);
    }

    method RecoverStale(requested: Kind) returns (r: Recovery, ghost seen: ArenaState)
      requires Valid(s) && !s.slot.Idle? && s.recoveredFrozen.None?
      requires s.recoveredClear.Some? ==> requested == KStatus
      requires SlotKind(s.slot, KRelease) ==> requested == KRelease
      modifies this
      ensures Evolve(old(s), seen) && Valid(seen) && Valid(s)
      ensures RecoveryOutcome(seen, requested, r, s)
      ensures r.Refused? ==> Because(s, requested, r.error, prompt)
      ensures old(s).slot.Answered? ==> r == Settle(old(s), requested).1
      ensures r.Recovered? ==> SlotKind(old(s).slot, requested)
    {
      hide Carried, PhaseOf, FrozenKept, AnswerFits;
      var ready := AwaitResult();
      seen := s;
      if !ready {
        return Refused(CommandTimedOut), seen;
      }
      SettleIsSound(s, requested);
      seen := Judged(s, requested);
      EvolveTransitive(old(s), s, seen);
      var settled := Settle(s, requested);
      s := settled.0;
      r := settled.1;
    }

    /** Publishes one command and waits for its result. */
    method SubmitLocked(c: Command) returns (r: Answer, ghost seen: ArenaState)
      requires Valid(s) && s.slot.Idle? && s.recoveredFrozen.None?
      requires c.Status? || s.recoveredClear.None?
      requires c.Clear? ==> c.ingressDropped <= s.ingressDropped
      modifies this
      ensures Evolve(old(s).(slot := Queued(c)), seen) && Valid(seen) && Valid(s)
      ensures if r == Err(CommandTimedOut) then !prompt && !s.slot.Idle? else AnswerFits(s, c, r)
      ensures UnderLock(old(s).(slot := Queued(c)), seen)
      ensures if r == Err(CommandTimedOut) then s == seen
              else seen.slot == Answered(c, r) && s == seen.(slot := Idle)
    {
      QueuedValid(s, c);
      hide Evolve, PhaseOf;
      s := s.(slot := Queued(c));
      var ready := AwaitResult();
      seen := s;
      if !ready {
        return Err(CommandTimedOut), seen;
      }
      EvolveValid(old(s).(slot := Queued(c)), s);
      TakenValid(s);
      r := s.slot.answer;
      s := s.(slot := Idle);
    }

    /** A status call, as any other thread may make at any time. */
    method Status() returns (r: Answer)
      requires Valid(s)
      modifies this
      ensures Evolve(old(s), s)
      ensures r.Ok? ==> StatusStands(s.worker, r.value)
      ensures r.Ok? && !SlotKind(old(s).slot, KStatus) ==> |old(s).worker.log| <= r.value.activeEnd
      ensures r.Err? ==> Because(s, KStatus, r.error, prompt)
    {
      hide E.RetainedStart, E.Epoch.Oldest, Evolve, PhaseOf, E.Describes, E.Epoch.Slice;
      var late := *;
      if late && !prompt {
        WorkerRuns();
        EvolveValid(old(s), s);
        return Err(ClientTimedOut);
      }
      var recovery, seen := RecoverBefore(KStatus);
      match recovery {
        case Refused(error) => return Err(error);
        case Recovered(answer) => return answer;
        case Fresh =>
      }
      ghost var v := s;
      EvolveValid(old(s), v);
      r, seen := SubmitLocked(Command.Status);
      StatusTaken(v, seen, r, s);
      EvolveTransitive(old(s), v, s);
    }

    /** Everything the rest of the system does between two calls of a client. */
    method Interference()
      requires Valid(s)
      modifies this
      ensures Evolve(old(s), s)
    {
      var steps: nat := *;
      while steps > 0
        invariant Evolve(old(s), s)
      {
        label Step:
        if * {
          WorkerRuns();
        } else {
          var _ := Status();
        }
        EvolveTransitive(old(s), old@Step(s), s);
        steps := steps - 1;
      }
    }

    /** Takes the client lock, unless the wait for it runs out. */
    method LockClient() returns (locked: bool)
      requires Valid(s)
      modifies this
      ensures Evolve(old(s), s) && Valid(s) && Grows(old(s), s) && ClearFirst(old(s), s)
      ensures prompt ==> locked
    {
      hide Evolve, ClearFirst;
      Interference();
      EvolveValid(old(s), s);
      EvolveClearFirst(old(s), s);
      locked := *;
      locked := locked || prompt;
    }

    method CumulativeDropped() returns (r: u64)
      requires Valid(s)
      modifies this
      ensures Evolve(old(s), s) && r == s.cumulativeDropped
    {
      Interference();
      r := s.cumulativeDropped;
    }

    /** Asks for everything since `committed`. */
    method FreezeSince(committed: Option<u64>, ghost mark: nat) returns (r: Result<Option<FrozenEpoch>, Error>)
      requires Valid(s)
      modifies this
      ensures Grows(old(s), s) && ClearFirst(old(s), s)
      ensures Free(old(s), committed, mark) ==>
                match r
                case Err(error) => FreezeDone(s, committed, Err(error), mark)
                case Ok(None) => FreezeDone(s, committed, Ok(FrozenReply(None)), mark)
                case Ok(Some(f)) =>
                  && FreezeDone(s, committed, Ok(FrozenReply(Some(f.descriptor))), mark)
                  && f == FrozenEpoch(s.runtimeId, f.descriptor, false, false)
      ensures Free(old(s), committed, mark) && r.Ok? && r.value.None? && !SlotKind(old(s).slot, KFreeze) ==>
                |old(s).worker.log| <= mark
      ensures PhaseOf(old(s)).Quiet? && r.Ok? && r.value.Some? ==> |old(s).worker.log| <= r.value.value.descriptor.end
      ensures PhaseOf(old(s)).HeldFreeze? ==>
                if r.Ok? then r.value == Some(FrozenEpoch(s.runtimeId, PhaseOf(old(s)).descriptor, false, false))
                else r.error == ClientTimedOut
      ensures r.Err? ==> Because(s, KFreeze, r.error, prompt)
    {
      hide Evolve, Free, ClearFirst, PhaseOf, E.Whole, FreezeDone;
      var locked := LockClient();
      if PhaseOf(old(s)).HeldFreeze? { HeldFreezeStays(old(s), s); }
      if SlotKind(s.slot, KFreeze) { SlotStays(old(s), s, KFreeze); }
      if PhaseOf(old(s)).Quiet? { QuietStays(old(s), s); }
      ghost var open := Free(old(s), committed, mark);
      if open {
        FreeEvolves(old(s), s, committed, mark);
        FreezeNotAsked(s, committed, mark, ClientTimedOut);
      }
      if !locked {
        return Err(ClientTimedOut);
      }
      label Locked:
      var answer := FreezeLocked(committed, mark);
      ClearFirstAfter(old(s), old@Locked(s), s);
      if answer.Err? {
        return Err(answer.error);
      }
      r := Ok(EpochOf(answer.value.descriptor));
    }

    method FreezeLocked(committed: Option<u64>, ghost mark: nat) returns (answer: Answer)
      requires Valid(s)
      modifies this
      ensures Grows(old(s), s) && ClearFirst(old(s), s)
      ensures answer.Ok? ==> answer.value.FrozenReply?
      ensures Free(old(s), committed, mark) ==> FreezeDone(s, committed, answer, mark)
      ensures Free(old(s), committed, mark) && answer == Ok(FrozenReply(None)) && !SlotKind(old(s).slot, KFreeze) ==>
                |old(s).worker.log| <= mark
      ensures PhaseOf(old(s)).Quiet? && answer.Ok? && answer.value.descriptor.Some? ==>
                |old(s).worker.log| <= answer.value.descriptor.value.end
      ensures PhaseOf(old(s)).HeldFreeze? ==> answer == Ok(FrozenReply(Some(PhaseOf(old(s)).descriptor)))
      ensures answer.Err? ==> Because(s, KFreeze, answer.error, prompt)
    {
      hide Evolve, Free, ClearFirst, PhaseOf, FreezeDone, E.Whole;
      var recovery, seen := RecoverBefore(KFreeze);
      RecoveryClearFirst(old(s), seen, KFreeze, recovery, s);
      ghost var open := Free(old(s), committed, mark);
      if open {
        FreeEvolves(old(s), seen, committed, mark);
        FreezeRecovered(seen, recovery, s, committed, mark);
      }
      match recovery {
        case Refused(error) =>
          if open { FreezeNotAsked(s, committed, mark, error); }
          return Err(error);
        case Recovered(recovered) =>
          if old(s).recoveredFrozen.Some? { StashIsHeld(old(s)); }
          if PhaseOf(old(s)).Quiet? { QuietStays(old(s), seen); }
          return recovered;
        case Fresh =>
      }
      ghost var v := s;
      answer, seen := SubmitLocked(Freeze(committed));
      SubmitClearFirst(old(s), v, Freeze(committed), seen, answer, s);
      FreezeCovers(v, committed, seen, answer);
      if open {
        FreezeSubmitted(v, committed, seen, answer, s, mark);
      }
    }

    function EpochOf(d: Option<E.Descriptor>): Option<FrozenEpoch>
      reads this
    {
      match d
      case None => None
      case Some(d) => Some(FrozenEpoch(s.runtimeId, d, false, false))
    }

    /** Gives a frozen capability back. */
    method ReleaseFrozen(f: FrozenEpoch, ghost mark: nat) returns (f': FrozenEpoch, r: Outcome<Error>)
      requires Valid(s)
      modifies this
      ensures Grows(old(s), s) && ClearFirst(old(s), s)
      ensures r.Pass? ==> f' == f.(released := true, releasePending := false)
      ensures r.Fail? ==> f' == if r.error.ForeignRuntime? || r.error.AlreadyReleased? || r.error.ClientTimedOut? then f
                                else f.(releasePending := !s.slot.Idle?)
      ensures r == Fail(ForeignRuntime) <==> f.runtimeId != old(s).runtimeId
      ensures r == Fail(AlreadyReleased) <==> f.runtimeId == old(s).runtimeId && f.released
      ensures r.Fail? && f.runtimeId == old(s).runtimeId && !f.released ==> Because(s, KRelease, r.error, prompt)
      ensures Held(old(s), f.descriptor, mark) && f.runtimeId == old(s.runtimeId) && !f.released ==>
                ReleaseDone(s, f.descriptor, r.Pass?, mark) && (prompt ==> r.Pass?)
      ensures PhaseOf(old(s)).ReleaseAnswered? && f.runtimeId == old(s).runtimeId && !f.released ==>
                r == Fail(ClientTimedOut) || (r.Pass? <==> PhaseOf(old(s)).ok)
    {
      assert ClearFirst(s, s);
      hide Evolve, Held, ClearFirst, PhaseOf, ReleaseDone;
      if f.runtimeId != s.runtimeId {
        return f, Fail(ForeignRuntime);
      }
      if f.released {
        return f, Fail(AlreadyReleased);
      }
      ghost var held := Held(s, f.descriptor, mark);
      var locked := LockClient();
      if PhaseOf(old(s)).ReleaseAnswered? { AnsweredReleaseStays(old(s), s); }
      if held { HeldEvolves(old(s), s, f.descriptor, mark); }
      if !locked {
        if held { ReleaseNotAsked(s, f.descriptor, mark); }
        return f, Fail(ClientTimedOut);
      }
      label Locked:
      var answer := ReleaseLocked(f.descriptor, mark);
      ClearFirstAfter(old(s), old@Locked(s), s);
      if answer.Err? {
        return f.(releasePending := !s.slot.Idle?), Fail(answer.error);
      }
      return f.(released := true, releasePending := false), Pass;
    }

    method ReleaseLocked(d: E.Descriptor, ghost mark: nat) returns (answer: Answer)
      requires Valid(s)
      modifies this
      ensures Grows(old(s), s) && ClearFirst(old(s), s)
      ensures Held(old(s), d, mark) ==> ReleaseDone(s, d, answer.Ok?, mark) && (prompt ==> answer.Ok?)
      ensures PhaseOf(old(s)).ReleaseAnswered? ==> (answer.Ok? <==> PhaseOf(old(s)).ok)
      ensures answer.Err? ==> Because(s, KRelease, answer.error, prompt) && !answer.error.ClientTimedOut?
    {
      hide Evolve, Held, ClearFirst, PhaseOf, ReleaseDone;
      ghost var held := Held(s, d, mark);
      var recovery, seen := RecoverBefore(KRelease);
      RecoveryClearFirst(old(s), seen, KRelease, recovery, s);
      if held {
        HeldEvolves(old(s), seen, d, mark);
        ReleaseRecovered(seen, recovery, s, d, mark);
      }
      match recovery {
        case Refused(error) => return Err(error);
        case Recovered(recovered) =>
          if PhaseOf(old(s)).ReleaseAnswered? { AnsweredReleaseIs(old(s)); }
          return recovered;
        case Fresh =>
      }
      ghost var v := s;
      answer, seen := SubmitLocked(Release(d.index, d.generation));
      SubmitClearFirst(old(s), v, Release(d.index, d.generation), seen, answer, s);
      if held {
        ReleaseSubmitted(v, d, seen, answer, s, mark);
      }
    }

    /** Clears the active epoch, accounting for what it discards. */
    method ClearActiveAccounted(acc: Accounting, ghost committed: Option<u64>, ghost cap: Option<E.Descriptor>,
                                ghost mark: nat, ghost counted: nat) returns (r: Result<ClearReport, Error>)
      requires Valid(s)
      modifies this
      ensures Grows(old(s), s) && ClearFirst(old(s), s)
      ensures MayClear(old(s), acc, committed, cap, mark, counted) ==>
                ClearDone(s, acc, committed, cap, mark, counted, |old(s).worker.log|, AnswerOf(r))
      ensures r == Err(ForeignRuntime) <==> acc.runtimeId != old(s).runtimeId
      ensures r.Err? && acc.runtimeId == old(s).runtimeId ==> ClearFailed(old(s), s, acc, r.error, prompt)
    {
      ghost var may := MayClear(s, acc, committed, cap, mark, counted);
      assert ClearFirst(s, s);
      hide Evolve, Resting, Clearing, ClearFirst, PhaseOf, ClearDone, MayClear, AnswerFits, ClearFailed;
      if acc.runtimeId != s.runtimeId {
        if may { ClearNotAsked(s, acc, committed, cap, mark, counted, |s.worker.log|, ForeignRuntime); }
        return Err(ForeignRuntime);
      }
      var locked := LockClient();
      if may { MayClearEvolves(old(s), s, acc, committed, cap, mark, counted); }
      if !locked {
        if may { ClearNotAsked(s, acc, committed, cap, mark, counted, |old(s).worker.log|, ClientTimedOut); }
        ClearLate(old(s), s, acc);
        return Err(ClientTimedOut);
      }
      label Locked:
      var answer := ClearLocked(acc, committed, cap, mark, counted);
      ClearFirstAfter(old(s), old@Locked(s), s);
      if answer.Err? { ClearFailedSince(old(s), old@Locked(s), s, acc, answer.error, prompt); }
      if may {
        ClearDoneSince(s, acc, committed, cap, mark, counted, |old(s).worker.log|, |old@Locked(s).worker.log|, answer);
      }
      return if answer.Ok? then Ok(answer.value.report) else Err(answer.error);
    }

    method ClearLocked(acc: Accounting, ghost committed: Option<u64>, ghost cap: Option<E.Descriptor>,
                       ghost mark: nat, ghost counted: nat) returns (answer: Answer)
      requires Valid(s)
      modifies this
      ensures Grows(old(s), s) && ClearFirst(old(s), s)
      ensures answer.Ok? ==> answer.value.ClearedReply?
      ensures MayClear(old(s), acc, committed, cap, mark, counted) ==>
                ClearDone(s, acc, committed, cap, mark, counted, |old(s).worker.log|, answer)
      ensures answer.Err? ==> ClearFailed(old(s), s, acc, answer.error, prompt) && !answer.error.ForeignRuntime?
    {
      hide Evolve, Resting, Clearing, ClearFirst, PhaseOf, ClearDone, Exhausted, AnswerFits;
      ghost var may := MayClear(s, acc, committed, cap, mark, counted);
      var recovery, seen := RecoverBefore(KClear);
      RecoveryClearFirst(old(s), seen, KClear, recovery, s);
      if may {
        MayClearEvolves(old(s), seen, acc, committed, cap, mark, counted);
        ClearRecovered(seen, recovery, s, committed, cap, mark);
      }
      match recovery {
        case Refused(error) =>
          if PhaseOf(old(s)).Quiet? {
            QuietStays(old(s), seen);
            QuietUnhindered(s, KClear, error);
          }
          if may { ClearNotAsked(s, acc, committed, cap, mark, counted, |old(s).worker.log|, error); }
          return Err(error);
        case Recovered(recovered) =>
          if may { ClearNotAsked(s, acc, committed, cap, mark, counted, |old(s).worker.log|, recovered.error); }
          return recovered;
        case Fresh =>
      }
      label Free:
      answer := ClearFresh(old(s), acc, committed, cap, mark, counted);
      if may {
        ClearDoneSince(s, acc, committed, cap, mark, counted, |old(s).worker.log|, |old@Free(s).worker.log|, answer);
      }
    }

    method ClearFresh(ghost u: ArenaState, acc: Accounting, ghost committed: Option<u64>,
                      ghost cap: Option<E.Descriptor>, ghost mark: nat, ghost counted: nat) returns (answer: Answer)
      requires Evolve(u, s) && PhaseOf(s).Quiet?
      requires Valid(s) && s.slot.Idle? && s.recoveredFrozen.None? && s.recoveredClear.None?
      modifies this
      ensures Grows(old(s), s) && ClearFirst(u, s)
      ensures answer.Ok? ==> answer.value.ClearedReply?
      ensures MayClear(old(s), acc, committed, cap, mark, counted) ==>
                ClearDone(s, acc, committed, cap, mark, counted, |old(s).worker.log|, answer)
      ensures answer.Err? ==> Because(s, KClear, answer.error, prompt)
      ensures answer.Err? && answer.error == WorkerRefused(LossOverflow) ==> Exhausted(s, acc)
      ensures answer.Err? ==> Unhindered(answer.error)
    {
      hide Evolve, Resting, ClearFirst, PhaseOf, MayClear;
      ghost var v := s;
      var ingress := s.ingressDropped;
      ghost var seen;
      answer, seen := SubmitLocked(Clear(ingress, acc));
      SubmitClearFirst(u, v, Clear(ingress, acc), seen, answer, s);
      if MayClear(v, acc, committed, cap, mark, counted) {
        ClearSubmitted(v, ingress, acc, committed, cap, mark, counted, seen, answer, s);
      }
    }

    /** Any schedule of freezes, releases, clears, status calls and worker steps
        while the report of an executed clear is unclaimed: nothing else is
        executed, and the report stays. */
    method UnclaimedClearBlocks(steps: nat)
      requires Valid(s) && PhaseOf(s).HeldClear?
      modifies this
      ensures Valid(s) && PhaseOf(s) == old(PhaseOf(s)) && s.executed == old(s.executed)
    {
      hide PhaseOf, Evolve;
      var n := steps;
      while n > 0
        invariant Valid(s) && PhaseOf(s) == old(PhaseOf(s)) && s.executed == old(s.executed)
      {
        label Step:
        if * {
          Interference();
          EvolveValid(old@Step(s), s);
          EvolveClearFirst(old@Step(s), s);
        } else if * {
          var committed: Option<u64> := *;
          var _ := FreezeSince(committed, 0);
        } else if * {
          var f: FrozenEpoch := *;
          var _, _ := ReleaseFrozen(f, 0);
        } else {
          var acc: Accounting := *;
          var _ := ClearActiveAccounted(acc, None, None, 0, 0);
        }
        n := n - 1;
      }
    }

    /** Fetches the report of a clear whose reply was lost. */
    method RecoverClearResult(identity: ClearIdentity, ghost acc: Accounting, ghost committed: Option<u64>,
                              ghost cap: Option<E.Descriptor>, ghost mark: nat, ghost counted: nat)
      returns (r: Result<Option<ClearReport>, Error>)
      requires Valid(s)
      modifies this
      ensures Grows(old(s), s)
      ensures ClearSituation(old(s), acc, committed, cap, mark, counted)
              && identity == ClearIdentity(acc.runtimeId, acc.coordinatorId, acc.clearId) ==>
                ClearRecoveryDone(s, acc, committed, cap, mark, counted, r)
      ensures r.Ok? && r.value.Some? ==> identity.Matches(r.value.value)
      ensures r.Ok? && r.value.None? ==> s.slot.Idle? && s.recoveredClear.None?
      ensures r == Err(ForeignRuntime) <==> identity.runtimeId != old(s).runtimeId
      ensures r.Err? && identity.runtimeId == old(s).runtimeId ==> Unrecovered(s, identity, r.error, prompt)
      ensures PhaseOf(old(s)).HeldClear? && identity.Matches(PhaseOf(old(s)).report)
              && identity.runtimeId == old(s).runtimeId ==>
                r == Err(ClientTimedOut) || r == Ok(Some(PhaseOf(old(s)).report))
    {
      hide Evolve, PhaseOf, ClearSituation, ClearRecoveryDone, AnswerFits, E.Describes, E.Epoch.Slice;
      RecoveryUnchanged(s, acc, committed, cap, mark, counted);
      ghost var pending := ClearSituation(s, acc, committed, cap, mark, counted)
                           && identity == ClearIdentity(acc.runtimeId, acc.coordinatorId, acc.clearId);
      if identity.runtimeId != s.runtimeId {
        return Err(ForeignRuntime);
      }
      var locked := LockClient();
      if PhaseOf(old(s)).HeldClear? { HeldClearStays(old(s), s); }
      if pending { ClearSituationEvolves(old(s), s, acc, committed, cap, mark, counted); }
      RecoveryUnchanged(s, acc, committed, cap, mark, counted);
      if !locked {
        return Err(ClientTimedOut);
      }
      r := RecoverClearLocked(identity, acc, committed, cap, mark, counted);
    }

    method RecoverClearLocked(identity: ClearIdentity, ghost acc: Accounting, ghost committed: Option<u64>,
                              ghost cap: Option<E.Descriptor>, ghost mark: nat, ghost counted: nat)
      returns (r: Result<Option<ClearReport>, Error>)
      requires Valid(s)
      modifies this
      ensures Grows(old(s), s)
      ensures ClearSituation(old(s), acc, committed, cap, mark, counted)
              && identity == ClearIdentity(acc.runtimeId, acc.coordinatorId, acc.clearId) ==>
                ClearRecoveryDone(s, acc, committed, cap, mark, counted, r)
      ensures r.Ok? && r.value.Some? ==> identity.Matches(r.value.value)
      ensures r.Ok? && r.value.None? ==> s.slot.Idle? && s.recoveredClear.None?
      ensures r.Err? ==> Unrecovered(s, identity, r.error, prompt)
      ensures PhaseOf(old(s)).HeldClear? && identity.Matches(PhaseOf(old(s)).report) ==>
                r == Ok(Some(PhaseOf(old(s)).report))
    {
      hide E.RetainedStart, E.Epoch.Oldest, PhaseOf, ClearSituation, ClearRecoveryDone, Carried, AnswerFits;
      if PhaseOf(s).HeldClear? { HeldClearIs(s); }
      RecoveryUnchanged(s, acc, committed, cap, mark, counted);
      if s.recoveredClear.Some? {
        if !identity.Matches(s.recoveredClear.value) {
          return Err(IdentityMismatch);
        }
        StashTaken(s, acc, committed, cap, mark, counted);
        r := Ok(s.recoveredClear);
        s := s.(recoveredClear := None);
        return;
      }
      if s.slot.Idle? {
        return Ok(None);
      }
      if !SlotKind(s.slot, KClear) {
        return Err(NotRecoverable);
      }
      assert s.recoveredFrozen.None?;
      var ready := AwaitResult();
      ghost var pending := ClearSituation(old(s), acc, committed, cap, mark, counted);
      if pending { ClearSituationEvolves(old(s), s, acc, committed, cap, mark, counted); }
      if !ready {
        RecoveryUnchanged(s, acc, committed, cap, mark, counted);
        return Err(CommandTimedOut);
      }
      r := TakeClearReport(identity, acc, committed, cap, mark, counted);
    }

    method TakeClearReport(identity: ClearIdentity, ghost acc: Accounting, ghost committed: Option<u64>,
                           ghost cap: Option<E.Descriptor>, ghost mark: nat, ghost counted: nat)
      returns (r: Result<Option<ClearReport>, Error>)
      requires Valid(s) && s.slot.Answered? && s.slot.command.KindOf() == KClear
      requires s.recoveredFrozen.None? && s.recoveredClear.None?
      modifies this
      ensures Grows(old(s), s)
      ensures ClearSituation(old(s), acc, committed, cap, mark, counted)
              && identity == ClearIdentity(acc.runtimeId, acc.coordinatorId, acc.clearId) ==>
                ClearRecoveryDone(s, acc, committed, cap, mark, counted, r)
      ensures r.Ok? && r.value.Some? ==> identity.Matches(r.value.value)
      ensures r.Err? ==> Unrecovered(s, identity, r.error, prompt)
      ensures r.Ok? ==> r.value.Some? && old(s).slot.answer == Ok(ClearedReply(r.value.value))
      ensures old(s).slot.answer.Ok? && identity.Matches(old(s).slot.answer.value.report) ==> r.Ok?
    {
      ghost var pending := ClearSituation(s, acc, committed, cap, mark, counted);
      var answer := s.slot.answer;
      if answer.Err? {
        RefusalTaken(s);
        if pending { ClearSituationEvolves(s, s.(slot := Idle), acc, committed, cap, mark, counted); }
        s := s.(slot := Idle);
        return Err(answer.error);
      }
      var report := answer.value.report;
      if !identity.Matches(report) {
        ReportRestashed(s);
        if pending { ReportTaken(s, acc, committed, cap, mark, counted); }
        s := s.(slot := Idle, recoveredClear := Some(report));
        return Err(IdentityMismatch);
      }
      if pending { ReportTaken(s, acc, committed, cap, mark, counted); }
      assert Valid(s.(slot := Idle));
      s := s.(slot := Idle);
      return Ok(Some(report));
    }
  }
}

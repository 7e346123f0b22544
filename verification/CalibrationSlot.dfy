/** The calibration slot shared by one requester at a time, any number of
    cancellers and the capture worker (src/capture_arena.rs, `CalibrationSlot`,
    `calibrate_channel_until`, the calibration part of `WorkerState`).

    One label is one access to the state word.  A request's number says how many
    began before it; numbers are history. */
module CalibrationSlot {
  import opened Base

  datatype Slot = Idle | Ready | Capturing | Complete | Leased | Preparing | Cancelled | Failed

  datatype Requester =
    | Out
    | Write
    | StoreReady
    | StoreIdle
    | Loop
    | Decide(seen: Slot)
    | TakeComplete
    | TakeFailed
    | CancelLoad
    | CancelSwap(seen: Slot)
    | TimeoutLoad
    | TimeoutSwap(seen: Slot)
    | ExitedLoad
    | ExitedStore

  datatype Worker =
    | Free
    | ReadRequest
    | Recheck(number: nat)
    | Install(number: nat)
    | ClearSwap
    | Copying
    | Metadata(number: nat)
    | FinishSwap
    | FinishCancelled
    | FailLoad(exit: bool)
    | FailSwap(seen: Slot, exit: bool)
    | Done

  datatype State = State(
    slot: Slot,
    cell: nat,               // the request written for the worker
    metadata: nat,           // the request the shared buffers and metadata describe
    lease: Option<nat>,
    requester: Requester,
    requests: nat,
    worker: Worker,
    capture: Option<nat>,    // the worker's live capture
    stateChanged: bool)      // the requester met "calibration state changed while preparing"

  function Start(): State { State(Idle, 0, 0, None, Out, 0, Free, None, false) }

  // ---- cancellers and the lease ----

  /** What `cancel` puts in the place of a state, if it cancels at all. */
  function Replacement(seen: Slot): Option<Slot> {
    match seen
    case Preparing => Some(Cancelled)
    case Capturing => Some(Cancelled)
    case Ready => Some(Slot.Idle)
    case _ => None
  }

  /** The compare-and-swap of a canceller that loaded `seen` at some time. */
  function CancelStep(s: State, seen: Slot): State {
    if s.slot == seen && Replacement(seen).Some? then s.(slot := Replacement(seen).value) else s
  }

  function DropLease(s: State): State {
    if s.lease.None? then s else s.(lease := None, slot := if s.slot == Leased then Slot.Idle else s.slot)
  }

  // ---- the requester ----

  /** What the waiting loop does about the state it loaded.  `abort` and `late`
      are its caller's predicate and its deadline. */
  function Decision(s: State, seen: Slot, abort: bool, late: bool): Requester {
    if seen != Complete && seen != Failed && abort then CancelLoad
    else if seen == Complete then TakeComplete
    else if seen == Failed then TakeFailed
    else if seen == Slot.Idle then Out
    else if (seen == Ready || seen == Capturing) && late then TimeoutLoad
    else if s.worker.Done? then ExitedLoad
    else Loop
  }

  function RequesterStep(s: State, abort: bool, late: bool): State {
    match s.requester
    case Out =>
      if s.slot == Slot.Idle then s.(slot := Preparing, requests := s.requests + 1, requester := Write) else s
    case Write => s.(cell := s.requests, requester := StoreReady)
    case StoreReady =>
      if s.slot == Preparing then s.(slot := Ready, requester := Loop)
      else if s.slot == Cancelled || s.slot == Slot.Idle then s.(requester := StoreIdle)
      else s.(requester := Out, stateChanged := true)
    case StoreIdle => s.(slot := Slot.Idle, requester := Out)
    case Loop => s.(requester := Decide(s.slot))
    case Decide(seen) => s.(requester := Decision(s, seen, abort, late))
    case TakeComplete =>
      if s.slot == Complete then s.(slot := Leased, lease := Some(s.metadata), requester := Out)
      else s.(requester := Loop)
    case TakeFailed =>
      if s.slot == Failed then s.(slot := Slot.Idle, requester := Out) else s.(requester := Loop)
    case CancelLoad =>
      s.(requester := if Replacement(s.slot).Some? then CancelSwap(s.slot) else Loop)
    case CancelSwap(seen) =>
      if s.slot == seen && Replacement(seen).Some? then s.(slot := Replacement(seen).value, requester := Out)
      else s.(requester := CancelLoad)
    case TimeoutLoad =>
      s.(requester := if s.slot == Ready || s.slot == Capturing then TimeoutSwap(s.slot) else Loop)
    case TimeoutSwap(seen) =>
      if s.slot == seen then s.(slot := if seen == Ready then Slot.Idle else Cancelled, requester := Out)
      else s.(requester := Loop)
    case ExitedLoad =>
      s.(requester := if s.slot == Ready || s.slot == Capturing || s.slot == Cancelled then ExitedStore else Loop)
    case ExitedStore => s.(slot := Slot.Idle, requester := Out)
  }

  // ---- the worker ----

  /** What the worker turns to when it is free. */
  datatype Errand = Poll | TakeReady | Copy | Fault | Exit

  function FreeStep(s: State, errand: Errand): State {
    match errand
    case Poll => if s.slot == Cancelled then s.(capture := None, worker := ClearSwap) else s
    case TakeReady => if s.slot == Ready then s.(slot := Capturing, worker := ReadRequest) else s
    case Copy =>
      if s.capture.None? then s
      else if s.slot == Cancelled then s.(capture := None, worker := ClearSwap)
      else s.(worker := Copying)
    case Fault => s.(capture := None, worker := FailLoad(false))
    case Exit => s.(capture := None, worker := FailLoad(true))
  }

  /** What a failing worker puts in the place of a state. */
  function Terminal(seen: Slot): Option<Slot> {
    match seen
    case Ready => Some(Failed)
    case Capturing => Some(Failed)
    case Cancelled => Some(Slot.Idle)
    case _ => None
  }

  /** `full` says whether the copied chunk completes the capture. */
  function WorkerStep(s: State, errand: Errand, full: bool): State {
    match s.worker
    case Free => FreeStep(s, errand)
    case ReadRequest => s.(worker := Recheck(s.cell))
    case Recheck(n) =>
      if s.slot == Capturing then s.(worker := Install(n))
      else if s.slot == Cancelled then s.(capture := None, worker := ClearSwap)
      else s.(worker := Free)
    case Install(n) => s.(capture := Some(n), worker := Free)
    case ClearSwap => s.(slot := if s.slot == Cancelled then Slot.Idle else s.slot, worker := Free)
    case Copying =>
      if full && s.capture.Some? then s.(capture := None, worker := Metadata(s.capture.value)) else s.(worker := Free)
    case Metadata(n) => s.(metadata := n, worker := FinishSwap)
    case FinishSwap =>
      if s.slot == Capturing then s.(slot := Complete, worker := Free)
      else if s.slot == Cancelled then s.(worker := FinishCancelled)
      else s.(worker := Free)
    case FinishCancelled => s.(slot := if s.slot == Cancelled then Slot.Idle else s.slot, worker := Free)
    case FailLoad(exit) =>
      if Terminal(s.slot).Some? then s.(worker := FailSwap(s.slot, exit))
      else s.(worker := if exit then Done else Free)
    case FailSwap(seen, exit) =>
      if s.slot == seen && Terminal(seen).Some? then
        s.(slot := Terminal(seen).value, worker := if exit then Done else Free)
      else s.(worker := FailLoad(exit))
    case Done => s
  }

  datatype Label = Request(abort: bool, late: bool) | Work(errand: Errand, full: bool) | Cancel(seen: Slot) | EndLease

  function Step(s: State, l: Label): State {
    match l
    case Request(abort, late) => RequesterStep(s, abort, late)
    case Work(errand, full) => WorkerStep(s, errand, full)
    case Cancel(seen) => CancelStep(s, seen)
    case EndLease => DropLease(s)
  }

  // ---- the invariant ----

  /** The worker is between taking a request and giving the slot up, and so may
      write the shared buffers. */
  predicate Writing(s: State) {
    || s.capture.Some? || s.worker.ReadRequest? || s.worker.Recheck? || s.worker.Install?
    || s.worker.Copying? || s.worker.Metadata? || s.worker.FinishSwap?
  }

  predicate Waiting(r: Requester) {
    !r.Out? && !r.Write? && !r.StoreReady? && !r.StoreIdle?
  }

  /** The request the worker is busy with. */
  function Busy(s: State): Option<nat> {
    if s.capture.Some? then s.capture
    else if s.worker.Recheck? || s.worker.Install? || s.worker.Metadata? then Some(s.worker.number)
    else None
  }

  ghost predicate Guarded(s: State) {
    && !s.stateChanged
    && (Writing(s) ==> s.slot == Capturing || s.slot == Cancelled)
    && (s.slot == Capturing ==> Writing(s) || s.worker.FailLoad? || s.worker.FailSwap?)
    && (s.capture.Some? ==> s.worker.Free? || s.worker.Copying?)
    && (s.worker.Copying? ==> s.capture.Some?)
    && (s.lease.Some? <==> s.slot == Leased)
    && (s.slot == Ready || s.slot == Capturing || s.slot == Complete || s.slot == Failed ==> Waiting(s.requester))
    && (s.slot == Preparing ==> s.requester.Write? || s.requester.StoreReady?)
    && (s.slot == Leased ==> s.requester.Out?)
    && (s.requester.Write? || s.requester.StoreReady? || s.requester.StoreIdle? ==> !Writing(s))
    && (s.requester.StoreIdle? ==> s.slot == Cancelled || s.slot == Slot.Idle)
    && (s.requester == Decide(Slot.Idle) ==> s.slot == Slot.Idle)
    && (s.requester.TimeoutSwap? ==> s.requester.seen == Ready || s.requester.seen == Capturing)
    && (s.requester.ExitedLoad? || s.requester.ExitedStore? ==> s.worker.Done?)
    && (s.requester.ExitedStore? ==> s.slot == Ready || s.slot == Cancelled || s.slot == Slot.Idle)
  }

  /** What is captured, described and leased is the request now waiting. */
  ghost predicate Own(s: State) {
    && (s.slot == Ready || s.worker.ReadRequest? || s.requester.StoreReady? ==> s.cell == s.requests)
    && (Busy(s).Some? ==> Busy(s).value == s.requests)
    && (s.worker.FinishSwap? || s.slot == Complete || s.slot == Leased ==> s.metadata == s.requests)
    && (s.lease.Some? ==> s.lease.value == s.requests)
  }

  ghost predicate Inv(s: State) { Guarded(s) && Own(s) }

  lemma BeginningKeeps(s: State, abort: bool, late: bool)
    requires Inv(s) && !Waiting(s.requester)
    ensures Inv(RequesterStep(s, abort, late))
  {
  }

  lemma WaitingKeepsGuarded(s: State, abort: bool, late: bool)
    requires Guarded(s) && Waiting(s.requester)
    ensures Guarded(RequesterStep(s, abort, late))
  {
    assert s.slot != Preparing && s.slot != Leased && s.lease.None?;
  }

  lemma WaitingKeepsOwn(s: State, abort: bool, late: bool)
    requires Inv(s) && Waiting(s.requester)
    ensures Own(RequesterStep(s, abort, late))
  {
  }

  lemma FreeKeeps(s: State, errand: Errand, full: bool)
    requires Inv(s) && s.worker.Free?
    ensures Inv(WorkerStep(s, errand, full))
  {
  }

  lemma CaptureStepsKeep(s: State, errand: Errand, full: bool)
    requires Inv(s) && Writing(s) && !s.worker.Free?
    ensures Inv(WorkerStep(s, errand, full))
  {
  }

  lemma GiveUpStepsKeep(s: State, errand: Errand, full: bool)
    requires Inv(s) && !Writing(s) && !s.worker.Free?
    ensures Inv(WorkerStep(s, errand, full))
  {
    if s.worker.FailSwap? {
      FailSwapKeeps(s);
      assert WorkerStep(s, errand, full) == WorkerStep(s, Poll, false);
      hide Inv, WorkerStep;
    }
  }

  lemma FailSwapKeeps(s: State)
    requires Inv(s) && s.worker.FailSwap?
    ensures Inv(WorkerStep(s, Poll, false))
  {
  }

  lemma OthersKeep(s: State, seen: Slot)
    requires Inv(s)
    ensures Inv(CancelStep(s, seen)) && Inv(DropLease(s))
  {
  }

  lemma StepKeeps(s: State, l: Label)
    requires Inv(s)
    ensures Inv(Step(s, l))
  {
    hide Guarded, Own, RequesterStep, WorkerStep, CancelStep, DropLease;
    match l
    case Request(abort, late) =>
      if Waiting(s.requester) {
        WaitingKeepsGuarded(s, abort, late);
        WaitingKeepsOwn(s, abort, late);
      } else {
        BeginningKeeps(s, abort, late);
      }
    case Work(errand, full) =>
      if s.worker.Free? { FreeKeeps(s, errand, full); }
      else if Writing(s) { CaptureStepsKeep(s, errand, full); }
      else { GiveUpStepsKeep(s, errand, full); }
    case Cancel(seen) => OthersKeep(s, seen);
    case EndLease => OthersKeep(s, s.slot);
  }

  // ---- every run ----

  function Run(s: State, labels: seq<Label>): State
    decreases |labels|
  {
    if labels == [] then s else Run(Step(s, labels[0]), labels[1..])
  }

  lemma {:induction false} RunKeeps(s: State, labels: seq<Label>)
    requires Inv(s)
    ensures Inv(Run(s, labels))
    decreases |labels|
  {
    if labels != [] {
      StepKeeps(s, labels[0]);
      RunKeeps(Step(s, labels[0]), labels[1..]);
    }
  }

  /** The worker writes the shared buffers only while CAPTURING or CANCELLED, a
      lease exists exactly in LEASED, so no one reads what is being written. */
  lemma {:induction false} WriterExcludesLease(labels: seq<Label>)
    ensures var s := Run(Start(), labels);
      && (Writing(s) ==> s.slot == Capturing || s.slot == Cancelled)
      && (s.lease.Some? <==> s.slot == Leased)
      && !(Writing(s) && s.lease.Some?)
  {
    RunKeeps(Start(), labels);
    hide Run;
  }

  /** A request that has returned leaves no result behind: the slot is idle,
      cancelled and waiting for the worker, or leased to it. */
  lemma {:induction false} ReturnLeavesNothing(labels: seq<Label>)
    ensures var s := Run(Start(), labels);
      s.requester.Out? ==> s.slot == Slot.Idle || s.slot == Cancelled || s.slot == Leased
  {
    RunKeeps(Start(), labels);
    hide Run;
  }

  /** A lease describes the request that was answered with it, never an earlier
      one, and no cancellation makes a request fail for a changed state. */
  lemma {:induction false} LeaseIsOwnRequest(labels: seq<Label>)
    ensures var s := Run(Start(), labels);
      && (s.lease.Some? ==> s.lease.value == s.metadata == s.requests)
      && !s.stateChanged
  {
    RunKeeps(Start(), labels);
    hide Run;
  }

  // ---- no dead ends ----

  /** An exited worker leaves a cancelled slot only to a request still at work. */
  ghost predicate Exited(s: State) {
    s.worker.Done? && s.slot == Cancelled ==> !s.requester.Out?
  }

  lemma RequesterKeepsExited(s: State, abort: bool, late: bool)
    requires Inv(s) && Exited(s)
    ensures Exited(RequesterStep(s, abort, late))
  {
    hide Own;
  }

  lemma StepKeepsExited(s: State, l: Label)
    requires Inv(s) && Exited(s)
    ensures Exited(Step(s, l))
  {
    hide Own, RequesterStep;
    if l.Request? { RequesterKeepsExited(s, l.abort, l.late); }
  }

  lemma {:induction false} RunKeepsExited(s: State, labels: seq<Label>)
    requires Inv(s) && Exited(s)
    ensures Exited(Run(s, labels))
    decreases |labels|
  {
    if labels != [] {
      StepKeeps(s, labels[0]);
      StepKeepsExited(s, labels[0]);
      hide Inv, Exited, Step;
      RunKeepsExited(Step(s, labels[0]), labels[1..]);
    }
  }

  predicate Storing(r: Requester) { r.Write? || r.StoreReady? || r.StoreIdle? }

  /** The next request may begin. */
  predicate Rested(s: State) { s.slot == Slot.Idle && s.requester.Out? }

  /** One way to get there: the worker finishes what it is at and sees a
      cancellation, the request gives up, the lease ends. */
  function Next(s: State): Label {
    if Storing(s.requester) then Request(false, false)
    else if !s.worker.Free? && !s.worker.Done? then Work(Poll, false)
    else if s.worker.Free? && s.slot == Cancelled then Work(Poll, false)
    else if s.requester.Out? then EndLease
    else Request(s.slot == Ready || s.slot == Capturing, false)
  }

  function SlotRank(slot: Slot): nat {
    match slot
    case Preparing => 5
    case Ready => 3
    case Capturing => 3
    case Complete => 2
    case Cancelled => 2
    case Leased => 1
    case Failed => 1
    case Idle => 0
  }

  function RequesterRank(s: State): nat {
    var open := s.slot == Ready || s.slot == Capturing;
    match s.requester
    case Out => 0
    case Write => 30
    case StoreReady => 29
    case StoreIdle => 28
    case Loop => 10
    case Decide(seen) => if seen == s.slot then 9 else 14
    case TakeComplete => if s.slot == Complete then 8 else 12
    case TakeFailed => if s.slot == Failed then 8 else 12
    case CancelLoad => if open then 8 else 12
    case CancelSwap(seen) => if open && seen == s.slot then 7 else 13
    case TimeoutLoad => if open then 8 else 12
    case TimeoutSwap(seen) => if seen == s.slot then 7 else 12
    case ExitedLoad => if open || s.slot == Cancelled then 8 else 12
    case ExitedStore => 7
  }

  function WorkerRank(s: State): nat {
    match s.worker
    case Done => 0
    case Free => if s.slot == Cancelled then 2 else 0
    case ClearSwap => 1
    case FinishCancelled => 1
    case Copying => 5
    case Install(_) => 5
    case FinishSwap => 5
    case Recheck(_) => 6
    case Metadata(_) => 6
    case ReadRequest => 7
    case FailLoad(_) => 7
    case FailSwap(seen, _) => if seen == s.slot && Terminal(seen).Some? then 6 else 8
  }

  function Rank(s: State): nat { 100 * SlotRank(s.slot) + RequesterRank(s) + WorkerRank(s) }

  lemma StoringAdvances(s: State)
    requires Inv(s) && Storing(s.requester)
    ensures Rank(Step(s, Next(s))) < Rank(s)
  {
    hide Own;
  }

  lemma WorkAdvances(s: State)
    requires Inv(s) && Next(s).Work?
    ensures Rank(Step(s, Next(s))) < Rank(s)
  {
    hide Own;
  }

  lemma WaitingAdvances(s: State)
    requires Inv(s) && Exited(s) && !Storing(s.requester) && !Next(s).Work? && !Rested(s)
    ensures Rank(Step(s, Next(s))) < Rank(s)
  {
    hide Own;
  }

  lemma {:induction false} ComesToRest(s: State) returns (labels: seq<Label>)
    requires Inv(s) && Exited(s)
    ensures Rested(Run(s, labels))
    decreases Rank(s)
  {
    hide Inv, Exited, Rank, Step, Rested;
    if Rested(s) {
      return [];
    }
    if Storing(s.requester) { StoringAdvances(s); }
    else if Next(s).Work? { WorkAdvances(s); }
    else { WaitingAdvances(s); }
    StepKeeps(s, Next(s));
    StepKeepsExited(s, Next(s));
    var rest := ComesToRest(Step(s, Next(s)));
    labels := [Next(s)] + rest;
    assert labels[1..] == rest;
  }

  lemma {:induction false} RunAppends(s: State, before: seq<Label>, after: seq<Label>)
    ensures Run(s, before + after) == Run(Run(s, before), after)
    decreases |before|
  {
    if before == [] {
      assert before + after == after;
    } else {
      assert (before + after)[1..] == before[1..] + after;
      RunAppends(Step(s, before[0]), before[1..], after);
    }
  }

  /** No run of requests, cancellations, time-outs, worker faults and exits leads to
      a state from which the slot cannot become idle again with no request at work. */
  lemma {:induction false} NoDeadEnd(labels: seq<Label>)
    ensures exists more :: Rested(Run(Start(), labels + more))
  {
    RunKeeps(Start(), labels);
    RunKeepsExited(Start(), labels);
    var more := ComesToRest(Run(Start(), labels));
    RunAppends(Start(), labels, more);
  }

  /** A worker with nothing to do and nothing left over. */
  predicate Unoccupied(s: State) { Rested(s) && s.worker.Free? && s.capture.None? && s.lease.None? }

  /** A request to an unoccupied worker can be answered: it ends with a lease on
      its own capture. */
  lemma RequestCanBeServed(s: State) returns (labels: seq<Label>)
    requires Inv(s) && Unoccupied(s)
    ensures var s' := Run(s, labels);
            s'.slot == Leased && s'.requester.Out? && s'.requests == s.requests + 1 && s'.lease == Some(s'.requests)
  {
    var ask, take, copy := Request(false, false), Work(TakeReady, false), Work(Copy, true);
    var asked := Stepped(s, [ask, ask, ask]);
    var taken := Stepped(asked, [take, take, take, take]);
    var copied := Stepped(taken, [copy, copy, copy, copy]);
    var leased := Stepped(copied, [ask, ask, ask]);
    labels := [ask, ask, ask] + [take, take, take, take] + [copy, copy, copy, copy] + [ask, ask, ask];
    RunAppends(s, [ask, ask, ask] + [take, take, take, take] + [copy, copy, copy, copy], [ask, ask, ask]);
    RunAppends(s, [ask, ask, ask] + [take, take, take, take], [copy, copy, copy, copy]);
    RunAppends(s, [ask, ask, ask], [take, take, take, take]);
  }

  /** A run of a few steps, one by one. */
  lemma Stepped(s: State, labels: seq<Label>) returns (s': State)
    requires 3 <= |labels| <= 4
    ensures s' == Run(s, labels)
    ensures var t := Step(Step(Step(s, labels[0]), labels[1]), labels[2]);
            s' == if |labels| == 3 then t else Step(t, labels[3])
  {
    hide Step;
    s' := Run(s, labels);
    assert labels[1..][1..] == labels[2..] && labels[2..][1..] == labels[3..];
    assert Run(s, labels) == Run(Step(s, labels[0]), labels[1..]);
    assert Run(s, labels) == Run(Step(Step(s, labels[0]), labels[1]), labels[2..]);
    assert Run(s, labels) == Run(Step(Step(Step(s, labels[0]), labels[1]), labels[2]), labels[3..]);
    if |labels| == 4 {
      assert labels[3..][1..] == [];
    }
  }
}

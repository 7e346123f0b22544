/** The one-entry command slot between callers and the capture worker
    (src/capture_arena.rs, `CommandSlot`, `submit_locked`, `recover_before`,
    `wait_slot_result`, `WorkerState::run`).

    Callers hold the client lock, so at most one is inside; it may leave after a
    time-out at any poll.  One label is one access to a shared variable.  A
    command's number says how many were submitted before it; numbers and the
    three counts are history. */
module CommandSlot {
  import opened Base

  datatype Kind = Freeze | Release | Clear | Status | Shutdown

  datatype SlotState = Idle | Preparing | Ready | Taking | Processing | ResultReady | ResultTaking

  datatype Command = Command(number: nat, kind: Kind, target: nat)

  datatype Client =
    | Away
    | CheckState(kind: Kind)
    | CheckAbandoned(kind: Kind)
    | CheckKind(kind: Kind)
    | Begin(kind: Kind)
    | StoreKind(kind: Kind)
    | StoreAbandoned(kind: Kind)
    | ReadTarget(kind: Kind)
    | WriteCommand(kind: Kind, target: nat)
    | StoreReady(kind: Kind, target: nat)
    | Poll(kind: Kind, stale: bool)
    | Abandon
    | ReadResult(kind: Kind, stale: bool)
    | ResetKind(kind: Kind, stale: bool, number: nat)
    | ResetAbandoned(kind: Kind, stale: bool, number: nat)
    | StoreIdle(kind: Kind, stale: bool, number: nat)

  datatype Worker =
    | Top
    | Check
    | Compare(target: nat)
    | Extra
    | Take
    | ReadCommand
    | Process(command: Command)
    | WriteResult(command: Command)
    | StoreResult(kind: Kind)
    | Done

  /** A command as it was carried out: after `consumed` queue slots. */
  datatype Executed = Executed(command: Command, consumed: nat)

  /** Why a step found the slot in a state its code rules out. */
  datatype Fault = BeginRefused | AlreadyPending | TakeRefused | EmptyCell | FullCell

  datatype State = State(
    slot: SlotState,
    kind: Option<Kind>,
    abandoned: bool,
    command: Option<Command>,
    result: Option<nat>,
    published: nat,
    consumed: nat,
    client: Client,
    worker: Worker,
    fault: Option<Fault>,
    submitted: nat,
    executed: seq<Executed>,
    taken: seq<nat>)

  function Start(): State {
    State(Idle, None, false, None, None, 0, 0, Away, Top, None, 0, [], [])
  }

  // ---- callers ----

  /** The caller's next access.  `choice` says whether a poll meets its deadline,
      whether a stale result sends the caller on to submit its own command, and
      whether a stale release is another's to recover. */
  function ClientStep(s: State, call: Kind, choice: bool): State {
    match s.client
    case Away => s.(client := CheckState(call))
    case CheckState(k) => s.(client := if s.slot == Idle then Begin(k) else CheckAbandoned(k))
    case CheckAbandoned(k) =>
      if s.abandoned then s.(client := CheckKind(k)) else s.(client := Away, fault := Some(AlreadyPending))
    case CheckKind(k) =>
      s.(client := if s.kind == Some(Release) && k != Release then Away else Poll(k, true))
    case Begin(k) =>
      if s.slot == Idle then s.(slot := Preparing, client := StoreKind(k))
      else s.(client := Away, fault := Some(BeginRefused))
    case StoreKind(k) => s.(kind := Some(k), client := StoreAbandoned(k))
    case StoreAbandoned(k) => s.(abandoned := false, client := ReadTarget(k))
    case ReadTarget(k) => s.(client := WriteCommand(k, s.published))
    case WriteCommand(k, target) =>
      if s.command.Some? then s.(client := Away, fault := Some(FullCell))
      else s.(command := Some(Command(s.submitted, k, target)), client := StoreReady(k, target))
    case StoreReady(k, _) => s.(slot := Ready, submitted := s.submitted + 1, client := Poll(k, false))
    case Poll(k, stale) =>
      if s.slot == ResultReady then s.(slot := ResultTaking, client := ReadResult(k, stale))
      else s.(client := if choice then Abandon else Poll(k, stale))
    case Abandon => s.(abandoned := true, client := Away)
    case ReadResult(k, stale) =>
      if s.result.None? then s.(client := Away, fault := Some(EmptyCell))
      else s.(result := None, client := ResetKind(k, stale, s.result.value))
    case ResetKind(k, stale, n) => s.(kind := None, client := ResetAbandoned(k, stale, n))
    case ResetAbandoned(k, stale, n) => s.(abandoned := false, client := StoreIdle(k, stale, n))
    case StoreIdle(k, stale, n) =>
      s.(slot := Idle, taken := s.taken + [n], client := if stale && choice then Begin(k) else Away)
  }

  // ---- the worker loop ----

  /** The load of the published head and the worker's store of its own count are
      one step: the head only grows, so what the load found stays true, and none
      of the accesses modelled here looks at the count. */
  function ConsumeOne(s: State): State {
    s.(consumed := if s.consumed < s.published then s.consumed + 1 else s.consumed, worker := Top)
  }

  function WorkerStep(s: State): State {
    match s.worker
    case Top => s.(worker := if s.slot == Preparing then Top else Check)
    case Check =>
      if s.slot != Ready then s.(worker := Extra)
      else if s.command.None? then s.(worker := Done, fault := Some(EmptyCell))
      else s.(worker := Compare(s.command.value.target))
    case Compare(target) => if s.consumed < target then ConsumeOne(s) else s.(worker := Take)
    case Extra => ConsumeOne(s)
    case Take =>
      if s.slot == Ready then s.(slot := Taking, worker := ReadCommand)
      else s.(worker := Done, fault := Some(TakeRefused))
    case ReadCommand =>
      if s.command.None? then s.(worker := Done, fault := Some(EmptyCell))
      else s.(command := None, slot := Processing, worker := Process(s.command.value))
    case Process(c) => s.(executed := s.executed + [Executed(c, s.consumed)], worker := WriteResult(c))
    case WriteResult(c) =>
      if s.result.Some? then s.(worker := Done, fault := Some(FullCell))
      else s.(result := Some(c.number), worker := StoreResult(c.kind))
    case StoreResult(k) => s.(slot := ResultReady, worker := if k == Shutdown then Done else Top)
    case Done => s
  }

  datatype Label = Call(kind: Kind, choice: bool) | Work | Publish

  function Step(s: State, l: Label): State {
    match l
    case Call(kind, choice) => ClientStep(s, kind, choice)
    case Work => WorkerStep(s)
    case Publish => s.(published := s.published + 1)
  }

  // ---- the invariant ----

  /** The worker between commands. */
  predicate Roaming(w: Worker) { w.Top? || w.Check? || w.Extra? || w.Done? }

  /** The caller is not in the middle of changing the slot. */
  predicate Outside(c: Client) {
    c.Away? || c.CheckState? || c.CheckAbandoned? || c.CheckKind? || c.Poll? || c.Abandon?
  }

  /** Where both threads are, and what the cells hold, in each slot state. */
  ghost predicate Shape(s: State) {
    match s.slot
    case Idle =>
      && (s.client.Away? || s.client.CheckState? || s.client.Begin?)
      && Roaming(s.worker) && s.command.None? && s.result.None?
    case Preparing =>
      && (s.client.StoreKind? || s.client.StoreAbandoned? || s.client.ReadTarget?
          || s.client.WriteCommand? || s.client.StoreReady?)
      && Roaming(s.worker) && s.result.None?
      && (s.client.StoreReady? <==> s.command.Some?)
      && (s.client.StoreReady? ==> s.command == Some(Command(s.submitted, s.client.kind, s.client.target)))
    case Ready =>
      && Outside(s.client) && s.command.Some? && s.result.None?
      && (Roaming(s.worker) || s.worker == Compare(s.command.value.target) || s.worker.Take?)
    case Taking => Outside(s.client) && s.command.Some? && s.result.None? && s.worker.ReadCommand?
    case Processing =>
      && Outside(s.client) && s.command.None?
      && (s.worker.Process? || s.worker.WriteResult? || s.worker.StoreResult?)
      && (s.worker.StoreResult? <==> s.result.Some?)
    case ResultReady => Outside(s.client) && s.command.None? && s.result.Some? && Roaming(s.worker)
    case ResultTaking =>
      && (s.client.ReadResult? || s.client.ResetKind? || s.client.ResetAbandoned? || s.client.StoreIdle?)
      && s.command.None? && Roaming(s.worker)
      && (s.client.ReadResult? <==> s.result.Some?)
  }

  /** The number of the command or result in the slot. */
  ghost predicate Numbered(s: State) {
    && (s.slot == Ready || s.slot == Taking ==> s.command.Some? && s.command.value.number + 1 == s.submitted)
    && (s.worker.Process? || s.worker.WriteResult? ==> s.worker.command.number + 1 == s.submitted)
    && (s.result.Some? ==> s.result.value + 1 == s.submitted)
    && (s.client.ResetKind? || s.client.ResetAbandoned? || s.client.StoreIdle? ==> s.client.number + 1 == s.submitted)
  }

  /** Submitted, executed and taken commands are the same, up to the one in the
      slot. */
  ghost predicate InOrder(s: State) {
    && (forall i :: 0 <= i < |s.executed| ==> s.executed[i].command.number == i)
    && (forall i :: 0 <= i < |s.taken| ==> s.taken[i] == i)
    && |s.taken| == (if s.slot == Idle || s.slot == Preparing then s.submitted else s.submitted - 1)
    && |s.executed| == (if s.slot == Ready || s.slot == Taking || s.worker.Process? then s.submitted - 1
                        else s.submitted)
  }

  /** The target the caller has read for the command now in the slot. */
  function Target(s: State): Option<nat> {
    if s.client.WriteCommand? || s.client.StoreReady? then Some(s.client.target)
    else if s.command.Some? then Some(s.command.value.target)
    else if s.worker.Process? then Some(s.worker.command.target)
    else None
  }

  /** The worker passes a target by at most one slot, the one it was already
      bound to consume. */
  ghost predicate Barrier(s: State) {
    && s.consumed <= s.published
    && (Target(s).Some? ==>
          var t := Target(s).value;
          && s.consumed <= (if s.worker.Extra? || (s.worker.Check? && s.slot == Preparing) then t else t + 1)
          && t <= s.published
          && (s.worker.Take? || s.worker.ReadCommand? || s.worker.Process? ==> t <= s.consumed))
    && forall i :: 0 <= i < |s.executed| ==>
         s.executed[i].command.target <= s.executed[i].consumed <= s.executed[i].command.target + 1
  }

  /** A caller that is away, or only looking, has abandoned what is in the slot. */
  ghost predicate LeftAbandoned(s: State) {
    s.slot != Idle && (s.client.Away? || s.client.CheckState? || s.client.CheckAbandoned? || s.client.CheckKind?)
    ==> s.abandoned
  }

  ghost predicate Inv(s: State) {
    Shape(s) && Numbered(s) && InOrder(s) && Barrier(s) && LeftAbandoned(s) && s.fault.None?
  }

  predicate Looking(c: Client) {
    c.Away? || c.CheckState? || c.CheckAbandoned? || c.CheckKind?
  }

  predicate Submitting(c: Client) {
    c.StoreKind? || c.StoreAbandoned? || c.ReadTarget? || c.WriteCommand? || c.StoreReady?
  }

  lemma LookingKeeps(s: State, call: Kind, choice: bool)
    requires Inv(s) && Looking(s.client)
    ensures Inv(ClientStep(s, call, choice))
  {
  }

  lemma BeginKeeps(s: State, call: Kind, choice: bool)
    requires Inv(s) && (s.client.Begin? || s.client.Abandon?)
    ensures Inv(ClientStep(s, call, choice))
  {
  }

  lemma SubmittingKeeps(s: State, call: Kind, choice: bool)
    requires Inv(s) && Submitting(s.client)
    ensures Inv(ClientStep(s, call, choice))
  {
  }

  lemma PollKeeps(s: State, call: Kind, choice: bool)
    requires Inv(s) && s.client.Poll?
    ensures Inv(ClientStep(s, call, choice))
  {
    hide Inv;
    var k, stale := s.client.kind, s.client.stale;
    if s.slot == ResultReady {
      TakenKeeps(s, ReadResult(k, stale));
    } else {
      WaitedKeeps(s, if choice then Abandon else Poll(k, stale));
    }
  }

  lemma TakenKeeps(s: State, next: Client)
    requires Inv(s) && s.client.Poll? && s.slot == ResultReady && next.ReadResult?
    ensures Inv(s.(slot := ResultTaking, client := next))
  {
  }

  lemma WaitedKeeps(s: State, next: Client)
    requires Inv(s) && s.client.Poll? && s.slot != ResultReady && (next.Abandon? || next.Poll?)
    ensures Inv(s.(client := next))
  {
  }

  lemma TakingKeeps(s: State, call: Kind, choice: bool)
    requires Inv(s) && (s.client.ReadResult? || s.client.ResetKind? || s.client.ResetAbandoned?)
    ensures Inv(ClientStep(s, call, choice))
  {
    assert s.slot.ResultTaking?;
  }

  lemma StoreIdleKeeps(s: State, call: Kind, choice: bool)
    requires Inv(s) && s.client.StoreIdle?
    ensures Inv(ClientStep(s, call, choice))
  {
    assert s.slot.ResultTaking?;
  }

  lemma WorkerKeepsShape(s: State)
    requires Inv(s)
    ensures Shape(WorkerStep(s)) && WorkerStep(s).fault.None?
  {
    hide Barrier, InOrder, LeftAbandoned;
  }

  lemma WorkerKeepsNumbered(s: State)
    requires Inv(s)
    ensures Numbered(WorkerStep(s))
  {
    hide Barrier, LeftAbandoned;
  }

  lemma WorkerKeepsInOrder(s: State)
    requires Inv(s)
    ensures InOrder(WorkerStep(s))
  {
    hide Barrier, LeftAbandoned;
  }

  lemma WorkerKeepsBarrier(s: State)
    requires Inv(s)
    ensures Barrier(WorkerStep(s))
  {
    hide InOrder, LeftAbandoned, Numbered;
  }

  lemma WorkerKeepsLeftAbandoned(s: State)
    requires Inv(s)
    ensures LeftAbandoned(WorkerStep(s))
  {
    hide Barrier, InOrder, Numbered;
  }

  lemma WorkerKeeps(s: State)
    requires Inv(s)
    ensures Inv(WorkerStep(s))
  {
    WorkerKeepsShape(s);
    WorkerKeepsNumbered(s);
    WorkerKeepsInOrder(s);
    WorkerKeepsBarrier(s);
    WorkerKeepsLeftAbandoned(s);
    hide WorkerStep, Shape, Numbered, InOrder, Barrier, LeftAbandoned;
  }

  lemma StepKeeps(s: State, l: Label)
    requires Inv(s)
    ensures Inv(Step(s, l))
  {
    match l {
      case Call(kind, choice) =>
        hide Inv, ClientStep;
        if Looking(s.client) { LookingKeeps(s, kind, choice); }
        else if s.client.Begin? || s.client.Abandon? { BeginKeeps(s, kind, choice); }
        else if Submitting(s.client) { SubmittingKeeps(s, kind, choice); }
        else if s.client.Poll? { PollKeeps(s, kind, choice); }
        else if s.client.StoreIdle? { StoreIdleKeeps(s, kind, choice); }
        else { TakingKeeps(s, kind, choice); }
      case Work =>
        hide Inv, WorkerStep;
        WorkerKeeps(s);
      case Publish =>
    }
  }

  // ---- every run ----

  /** The state after any interleaving of accesses. */
  function Run(s: State, labels: seq<Label>): State
    decreases |labels|
  {
    if labels == [] then s else Run(Step(s, labels[0]), labels[1..])
  }

  lemma {:induction false} RunKeeps(s: State, labels: seq<Label>)
    requires Inv(s)
    ensures Inv(Run(s, labels))
    decreases |labels|
  {
    if labels != [] {
      StepKeeps(s, labels[0]);
      RunKeeps(Step(s, labels[0]), labels[1..]);
    }
  }

  /** Every command is executed once and its result taken once, in the order of
      submission, however callers time out; at most the newest is outstanding. */
  lemma {:induction false} ExactlyOnce(labels: seq<Label>)
    ensures var s := Run(Start(), labels);
      && (forall i :: 0 <= i < |s.executed| ==> s.executed[i].command.number == i)
      && (forall i :: 0 <= i < |s.taken| ==> s.taken[i] == i)
      && |s.taken| <= |s.executed| <= s.submitted <= |s.taken| + 1
      && (s.slot == Idle ==> |s.taken| == |s.executed| == s.submitted)
  {
    var s := Run(Start(), labels);
    RunKeeps(Start(), labels);
    hide Run, Barrier;
  }

  /** A command runs after every slot published before it was submitted, and
      after at most one published later. */
  lemma {:induction false} CommandBarrier(labels: seq<Label>, i: nat)
    requires i < |Run(Start(), labels).executed|
    ensures var e := Run(Start(), labels).executed[i];
            e.command.target <= e.consumed <= e.command.target + 1
  {
    RunKeeps(Start(), labels);
    hide Run, Shape, InOrder, Numbered;
  }

  /** The worker's take never finds the slot changed, no cell is read empty or
      overwritten full, and a caller never finds a command that was not
      abandoned: the checks for these never fire. */
  lemma {:induction false} ChecksNeverFire(labels: seq<Label>)
    ensures Run(Start(), labels).fault.None?
  {
    RunKeeps(Start(), labels);
    hide Run, Shape, InOrder, Numbered, Barrier;
  }

  // ---- whose result a caller takes ----

  /** The command executed last. */
  ghost predicate LastKind(s: State, k: Option<Kind>) {
    s.executed != [] && k == Some(s.executed[|s.executed| - 1].command.kind)
  }

  /** A caller may take the result of a command of kind `k`: of its own command, or
      an abandoned one's, unless that is a release and the caller wants something else. */
  predicate MayTake(caller: Kind, stale: bool, k: Option<Kind>) {
    if stale then k == Some(Release) ==> caller == Release else k == Some(caller)
  }

  /** The kind word names the command in the slot. */
  ghost predicate Kinded(s: State) {
    && (s.client.StoreAbandoned? || s.client.ReadTarget? || s.client.WriteCommand? || s.client.StoreReady? ==>
          s.kind == Some(s.client.kind))
    && ((s.slot == Ready || s.slot == Taking) && s.command.Some? ==> s.kind == Some(s.command.value.kind))
    && (s.worker.Process? || s.worker.WriteResult? ==> s.kind == Some(s.worker.command.kind))
    && (s.worker.StoreResult? ==> s.kind == Some(s.worker.kind))
    && (s.worker.WriteResult? || s.worker.StoreResult? || s.slot == ResultReady || s.client.ReadResult? ==>
          LastKind(s, s.kind))
    && (s.client.Poll? || s.client.ReadResult? ==> MayTake(s.client.kind, s.client.stale, s.kind))
    && (s.client.ResetKind? || s.client.ResetAbandoned? || s.client.StoreIdle? ==>
          s.executed != []
          && MayTake(s.client.kind, s.client.stale, Some(s.executed[|s.executed| - 1].command.kind)))
  }

  lemma LookingKeepsKinded(s: State, call: Kind, choice: bool)
    requires Inv(s) && Kinded(s) && (Looking(s.client) || s.client.Begin? || s.client.Abandon?)
    ensures Kinded(ClientStep(s, call, choice))
  {
    hide Barrier, Numbered, InOrder;
  }

  lemma SubmittingKeepsKinded(s: State, call: Kind, choice: bool)
    requires Inv(s) && Kinded(s) && Submitting(s.client)
    ensures Kinded(ClientStep(s, call, choice))
  {
    hide Barrier, Numbered, InOrder;
  }

  lemma TakingKeepsKinded(s: State, call: Kind, choice: bool)
    requires Inv(s) && Kinded(s)
    requires !Looking(s.client) && !s.client.Begin? && !s.client.Abandon? && !Submitting(s.client)
    ensures Kinded(ClientStep(s, call, choice))
  {
    hide Barrier, Numbered, InOrder;
  }

  lemma CallKeepsKinded(s: State, call: Kind, choice: bool)
    requires Inv(s) && Kinded(s)
    ensures Kinded(ClientStep(s, call, choice))
  {
    hide Inv, Kinded, ClientStep;
    if Looking(s.client) || s.client.Begin? || s.client.Abandon? { LookingKeepsKinded(s, call, choice); }
    else if Submitting(s.client) { SubmittingKeepsKinded(s, call, choice); }
    else { TakingKeepsKinded(s, call, choice); }
  }

  lemma WorkKeepsKinded(s: State)
    requires Inv(s) && Kinded(s)
    ensures Kinded(WorkerStep(s))
  {
    hide Barrier, Numbered, InOrder;
  }

  lemma StepKeepsKinded(s: State, l: Label)
    requires Inv(s) && Kinded(s)
    ensures Kinded(Step(s, l))
  {
    match l {
      case Call(kind, choice) =>
        hide Inv, Kinded, ClientStep;
        CallKeepsKinded(s, kind, choice);
      case Work =>
        hide Inv, Kinded, WorkerStep;
        WorkKeepsKinded(s);
      case Publish =>
    }
  }

  lemma {:induction false} RunKeepsKinded(s: State, labels: seq<Label>)
    requires Inv(s) && Kinded(s)
    ensures Kinded(Run(s, labels))
    decreases |labels|
  {
    if labels != [] {
      StepKeeps(s, labels[0]);
      StepKeepsKinded(s, labels[0]);
      hide Inv, Kinded, Step;
      RunKeepsKinded(Step(s, labels[0]), labels[1..]);
    }
  }

  /** Whoever has just taken a result took that of its own command, or of one an
      earlier caller abandoned; a release's result goes to a release only. */
  lemma {:induction false} ResultsGoHome(labels: seq<Label>)
    ensures var s := Run(Start(), labels);
      s.client.StoreIdle? ==>
        && s.client.number < |s.executed|
        && MayTake(s.client.kind, s.client.stale, Some(s.executed[s.client.number].command.kind))
  {
    RunKeeps(Start(), labels);
    RunKeepsKinded(Start(), labels);
    hide Run, Barrier;
  }

  // ---- no dead ends ----

  /** Everything submitted was executed and taken, and the next caller may submit. */
  predicate Rested(s: State) {
    s.slot == Idle && s.client.Away? && |s.taken| == |s.executed| == s.submitted
  }

  /** A worker that has shut down serves nothing any more. */
  predicate Served(s: State) {
    s.worker.Done? ==> s.slot == ResultReady || s.slot == ResultTaking || (s.slot == Idle && s.client.Away?)
  }

  /** A caller of this kind goes on to wait for the result in the slot. */
  predicate Welcome(s: State, k: Kind) { s.kind == Some(Release) ==> k == Release }

  /** One way to get there: callers do not give up and take what was abandoned. */
  function Next(s: State): Label {
    if s.client.Poll? && s.slot != ResultReady then Work
    else Call(if s.kind == Some(Release) then Release else Status, false)
  }

  function ClientRank(s: State): nat {
    match s.client
    case Away => if s.slot == Idle then 0 else 30
    case CheckState(k) => if s.slot == Idle then 60 else if Welcome(s, k) then 29 else 33
    case CheckAbandoned(k) => if Welcome(s, k) then 28 else 32
    case CheckKind(k) => if Welcome(s, k) then 27 else 31
    case Begin(_) => 59
    case StoreKind(_) => 58
    case StoreAbandoned(_) => 57
    case ReadTarget(_) => 56
    case WriteCommand(_, _) => 55
    case StoreReady(_, _) => 54
    case Poll(_, _) => 26
    case Abandon => 31
    case ReadResult(_, _) => 4
    case ResetKind(_, _, _) => 3
    case ResetAbandoned(_, _, _) => 2
    case StoreIdle(_, _, _) => 1
  }

  function WorkerRank(w: Worker): nat {
    match w
    case Extra => 9
    case Top => 8
    case Check => 7
    case Compare(_) => 6
    case Take => 5
    case ReadCommand => 4
    case Process(_) => 3
    case WriteResult(_) => 2
    case StoreResult(_) => 1
    case Done => 0
  }

  function Rank(s: State): nat {
    ClientRank(s)
    + if s.slot == ResultReady || s.slot == ResultTaking || (s.slot == Idle && s.client.Away?) then 0
      else 10 * SatSub(s.published, s.consumed) + WorkerRank(s.worker)
  }

  lemma LookingAdvances(s: State)
    requires Inv(s) && Served(s) && !Rested(s) && (Looking(s.client) || s.client.Begin? || s.client.Abandon?)
    ensures var s' := Step(s, Next(s)); Served(s') && Rank(s') < Rank(s)
  {
    hide Barrier, Numbered, LastKind;
  }

  lemma SubmittingAdvances(s: State)
    requires Inv(s) && Served(s) && Submitting(s.client)
    ensures var s' := Step(s, Next(s)); Served(s') && Rank(s') < Rank(s)
  {
    hide Barrier, Numbered, InOrder;
  }

  lemma TakingAdvances(s: State)
    requires Inv(s) && Served(s) && Next(s).Call?
    requires !Looking(s.client) && !s.client.Begin? && !s.client.Abandon? && !Submitting(s.client)
    ensures var s' := Step(s, Next(s)); Served(s') && Rank(s') < Rank(s)
  {
    hide Barrier, Numbered, InOrder;
  }

  lemma WorkAdvances(s: State)
    requires Inv(s) && Served(s) && Next(s).Work?
    ensures var s' := Step(s, Next(s)); Served(s') && Rank(s') < Rank(s)
  {
    hide Numbered, InOrder;
  }

  lemma Advances(s: State)
    requires Inv(s) && Served(s) && !Rested(s)
    ensures var s' := Step(s, Next(s)); Served(s') && Rank(s') < Rank(s)
  {
    hide Inv, Rank, Step, Served, Rested;
    if Looking(s.client) || s.client.Begin? || s.client.Abandon? { LookingAdvances(s); }
    else if Submitting(s.client) { SubmittingAdvances(s); }
    else if Next(s).Call? { TakingAdvances(s); }
    else { WorkAdvances(s); }
  }

  lemma {:induction false} ComesToRest(s: State) returns (labels: seq<Label>)
    requires Inv(s) && Served(s)
    ensures Rested(Run(s, labels))
    decreases Rank(s)
  {
    hide Inv, Rank, Step, Next, Served, Rested;
    if Rested(s) {
      return [];
    }
    Advances(s);
    StepKeeps(s, Next(s));
    var rest := ComesToRest(Step(s, Next(s)));
    labels := [Next(s)] + rest;
    assert labels[1..] == rest;
  }

  lemma {:induction false} RunAppends(s: State, before: seq<Label>, after: seq<Label>)
    ensures Run(s, before + after) == Run(Run(s, before), after)
    decreases |before|
  {
    if before == [] {
      assert before + after == after;
    } else {
      assert (before + after)[1..] == before[1..] + after;
      RunAppends(Step(s, before[0]), before[1..], after);
    }
  }

  /** No run, however callers time out and abandon their commands, leads to a state
      from which the slot cannot be emptied again with every command executed and
      its result taken, unless the worker has shut down before a command came. */
  lemma {:induction false} NoDeadEnd(labels: seq<Label>)
    requires Served(Run(Start(), labels))
    ensures exists more :: Rested(Run(Start(), labels + more))
  {
    RunKeeps(Start(), labels);
    var more := ComesToRest(Run(Start(), labels));
    RunAppends(Start(), labels, more);
  }
}

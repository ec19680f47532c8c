/** The resumable restart of a host: the driver (providers/shared/hostsession/restart_host.go) and its journal of two
    files, one per operation and one "current" per request (executor/runtime/reboot_journal.go), as an event machine.
    A journal call writes the operation file first and the current file second; a run may die between any two events,
    a journal call may be repeated before it is acknowledged, and one driver runs at a time. */
module Reboot {

  type Id = string

  datatype Option<T> = None | Some(value: T)

  datatype Phase =
    | Planned | PrecheckComplete | TargetPrepared | RebootIssued | WaitingForReconnect
    | PostReconnectValidated | ExecutorRebootstrapped | Completed | Failed

  function Rank(p: Phase): nat {
    match p
    case Planned => 0
    case PrecheckComplete => 1
    case TargetPrepared => 2
    case RebootIssued => 3
    case WaitingForReconnect => 4
    case PostReconnectValidated => 5
    case ExecutorRebootstrapped => 6
    case Completed => 7
    case Failed => 8
  }

  predicate Less(current: Phase, target: Phase) {
    Rank(current) < Rank(target)
  }

  /** The empty string stands for a field that is not set. */
  datatype Entry = Entry(
    id: Id, phase: Phase, stableId: string, preBoot: string, postBoot: string, command: string, lastError: string)

  /** What the host says about itself; both parts are never empty. */
  datatype Proof = Proof(stableId: string, boot: string)

  datatype Update =
    | ToPhase(phase: Phase, stableId: string, preBoot: string, postBoot: string, command: string)
    | ToFailed(error: string)
    | ToCompleted(postBoot: string)

  function Pick(given: string, kept: string): string {
    if given != "" then given else kept
  }

  /** The mutation of MarkPhase, MarkFailed and MarkCompleted. */
  function Mutate(e: Entry, u: Update): Entry {
    match u
    case ToPhase(phase, stableId, preBoot, postBoot, command) =>
      e.(phase := phase, stableId := Pick(stableId, e.stableId), preBoot := Pick(preBoot, e.preBoot),
         postBoot := Pick(postBoot, e.postBoot), command := Pick(command, e.command))
    case ToFailed(error) => e.(phase := Failed, lastError := error)
    case ToCompleted(postBoot) => e.(phase := Completed, postBoot := Pick(postBoot, e.postBoot), lastError := "")
  }

  datatype Writes = NoneDone | OpDone | BothDone

  /** Where the driver stands; `e` is its own copy of the entry. */
  datatype Point =
    | Idle
    | Preparing
    | CreatingOp
    | CreatingCurrent(id: Id)
    | Advancing(e: Entry)                                        // between two phases
    | Issuing(e: Entry)                                          // about to run the reboot command
    | Seen(e: Entry, proof: Proof)                               // the host came back and proved the reboot
    | Marking(e: Entry, u: Update, proof: Proof, done: Writes)   // inside a journal call

  datatype Outcome = Outcome(id: Id, proof: Proof)

  /** `issued` lists the commands with which the issue step was entered, `returned` the successful returns: history. */
  datatype State = State(
    ops: map<Id, Entry>, current: Option<Entry>, point: Point, issued: map<Id, seq<string>>, returned: seq<Outcome>)

  datatype Event =
    | Begin
    | Die
    | Resume
    | RefuseFailed
    | DropCompleted
    | NothingCurrent
    | CreateOp(id: Id, command: string)
    | CreateCurrent
    | RepeatPrepare
    | Precheck(proof: Proof)
    | Prepare(command: string)
    | MarkIssued
    | Issue
    | Wait
    | Observe(proof: Proof)
    | Validate
    | Rebootstrap
    | Complete
    | Fail(error: string)
    | WriteOp
    | WriteCurrent
    | RepeatMark
    | Acknowledge

  const NO_PROOF := Proof("", "")

  function Mark(s: State, e: Entry, u: Update, proof: Proof): State {
    s.(point := Marking(e, u, proof, NoneDone))
  }

  function PhaseUpdate(p: Phase): Update {
    ToPhase(p, "", "", "", "")
  }

  /** prepareRebootJournal and rebootJournal.Prepare. */
  function NextPrepare(s: State, e: Event): Option<State> {
    match e
    case Resume =>
      if s.point.Preparing? && s.current.Some? && !s.current.value.phase.Completed? && !s.current.value.phase.Failed?
      then Some(s.(point := Advancing(s.current.value))) else None
    case RefuseFailed =>
      if s.point.Preparing? && s.current.Some? && s.current.value.phase.Failed? then Some(s.(point := Idle)) else None
    case DropCompleted =>
      if s.point.Preparing? && s.current.Some? && s.current.value.phase.Completed?
      then Some(s.(current := None, point := CreatingOp)) else None
    case NothingCurrent =>
      if s.point.Preparing? && s.current.None? then Some(s.(point := CreatingOp)) else None
    case CreateOp(id, command) =>
      if s.point.CreatingOp? && id !in s.ops
      then Some(s.(ops := s.ops[id := Entry(id, Planned, "", "", "", command, "")], point := CreatingCurrent(id)))
      else None
    case CreateCurrent =>
      if s.point.CreatingCurrent? && s.point.id in s.ops
      then Some(s.(current := Some(s.ops[s.point.id]), point := Advancing(s.ops[s.point.id]))) else None
    case RepeatPrepare =>
      if s.point.CreatingOp? || s.point.CreatingCurrent? then Some(s.(point := Preparing)) else None
    case _ => None
  }

  /** restartHostUnsafe up to the wait for the host. */
  function NextForward(s: State, ev: Event): Option<State> {
    if !s.point.Advancing? then None else
      var e := s.point.e;
      match ev
      case Precheck(proof) =>
        if Less(e.phase, PrecheckComplete) && proof.stableId != "" && proof.boot != ""
        then Some(Mark(s, e, ToPhase(PrecheckComplete, proof.stableId, proof.boot, "", ""), proof)) else None
      case Prepare(command) =>
        if !Less(e.phase, PrecheckComplete) && e.stableId != "" && e.preBoot != "" && Less(e.phase, TargetPrepared)
           && command != "" && (e.command != "" ==> command == e.command)
        then Some(Mark(s, e, ToPhase(TargetPrepared, "", "", "", command), NO_PROOF)) else None
      case MarkIssued =>
        if !Less(e.phase, TargetPrepared) && e.stableId != "" && e.preBoot != "" && Less(e.phase, RebootIssued)
        then Some(Mark(s, e, ToPhase(RebootIssued, "", "", "", e.command), NO_PROOF)) else None
      case Wait =>
        if !Less(e.phase, RebootIssued) && e.stableId != "" && e.preBoot != "" && Less(e.phase, WaitingForReconnect)
        then Some(Mark(s, e, PhaseUpdate(WaitingForReconnect), NO_PROOF)) else None
      case Observe(proof) =>
        if !Less(e.phase, WaitingForReconnect) && e.stableId != "" && e.preBoot != ""
           && ValidTransition(e.stableId, e.preBoot, proof)
        then Some(s.(point := Seen(e, proof))) else None
      case _ => None
  }

  /** validateRebootTransition accepts the proof read after the reconnect. */
  predicate ValidTransition(stableId: string, preBoot: string, post: Proof) {
    stableId != "" && preBoot != "" && post.stableId == stableId && post.boot != "" && post.boot != preBoot
  }

  /** The issue step, and the work after the host came back. */
  function NextAfter(s: State, ev: Event): Option<State> {
    match ev
    case Issue =>
      if s.point.Issuing? then
        var id := s.point.e.id;
        Some(s.(point := Advancing(s.point.e), issued := s.issued[id := Commands(s, id) + [s.point.e.command]]))
      else None
    case Validate =>
      if s.point.Seen? && Less(s.point.e.phase, PostReconnectValidated)
      then Some(Mark(s, s.point.e, ToPhase(PostReconnectValidated, "", "", s.point.proof.boot, ""), s.point.proof))
      else None
    case Rebootstrap =>
      if s.point.Seen? && !Less(s.point.e.phase, PostReconnectValidated)
         && Less(s.point.e.phase, ExecutorRebootstrapped)
      then Some(Mark(s, s.point.e, PhaseUpdate(ExecutorRebootstrapped), s.point.proof)) else None
    case Complete =>
      if s.point.Seen? && !Less(s.point.e.phase, ExecutorRebootstrapped)
      then Some(Mark(s, s.point.e, ToCompleted(s.point.proof.boot), s.point.proof)) else None
    case Fail(error) =>
      if s.point.Advancing? || s.point.Seen? then Some(Mark(s, s.point.e, ToFailed(error), NO_PROOF))
      else None
    case _ => None
  }

  /** The commands with which the issue step of an operation was entered. */
  function Commands(s: State, id: Id): seq<string> {
    if id in s.issued then s.issued[id] else []
  }

  function Count(s: State, id: Id): nat {
    |Commands(s, id)|
  }

  /** rebootJournal.update, and what the driver does with the answer. */
  function NextMark(s: State, ev: Event): Option<State> {
    if !s.point.Marking? then None else
      var p := s.point;
      match ev
      case WriteOp =>
        if p.done.NoneDone? && p.e.id in s.ops
        then Some(s.(ops := s.ops[p.e.id := Mutate(s.ops[p.e.id], p.u)], point := p.(done := OpDone))) else None
      case WriteCurrent =>
        if p.done.OpDone? && p.e.id in s.ops
        then Some(s.(current := if s.ops[p.e.id].phase.Completed? then None else Some(s.ops[p.e.id]),
                     point := p.(done := BothDone))) else None
      case RepeatMark => Some(s.(point := p.(done := NoneDone)))
      case Acknowledge => if p.done.BothDone? then Some(Continue(s, p)) else None
      case _ => None
  }

  function Continue(s: State, p: Point): State
    requires p.Marking?
  {
    var e := Mutate(p.e, p.u);
    if p.u.ToFailed? then s.(point := Idle)
    else if p.u.ToCompleted? then s.(point := Idle, returned := s.returned + [Outcome(e.id, p.proof)])
    else if e.phase.RebootIssued? then s.(point := Issuing(e))
    else if e.phase.PostReconnectValidated? || e.phase.ExecutorRebootstrapped? then s.(point := Seen(e, p.proof))
    else s.(point := Advancing(e))
  }

  function Next(s: State, ev: Event): Option<State> {
    match ev
    case Begin => if s.point.Idle? then Some(s.(point := Preparing)) else None
    case Die => Some(s.(point := Idle))
    case Resume | RefuseFailed | DropCompleted | NothingCurrent | CreateOp(_, _) | CreateCurrent | RepeatPrepare =>
      NextPrepare(s, ev)
    case Precheck(_) | Prepare(_) | MarkIssued | Wait | Observe(_) => NextForward(s, ev)
    case Issue | Validate | Rebootstrap | Complete | Fail(_) => NextAfter(s, ev)
    case WriteOp | WriteCurrent | RepeatMark | Acknowledge => NextMark(s, ev)
  }

  const START := State(map[], None, Idle, map[], [])

  function Exec(run: seq<Event>): Option<State> {
    if run == [] then Some(START) else
      var before := Exec(run[..|run| - 1]);
      if before.None? then None else Next(before.value, run[|run| - 1])
  }
}

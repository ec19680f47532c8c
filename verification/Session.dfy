/** The runtime of one executor session (providers/shared/hostsession/session_runtime.go) together with the code that
    uses it (providers/shared/hostsession/manager.go), as an event machine over any number of threads.
    The runtime is a monitor with a call count and two single-flight guards; BootstrapMu is a second mutex.
    Every section under the monitor lock is one event. */
module Session {

  type Tid = nat

  datatype Option<T> = None | Some(value: T)

  /** A single-flight guard: `rounds` lists the outcomes of the finished rounds (0 is success). */
  datatype Flight = Flight(busy: bool, last: int, rounds: seq<int>)

  function Started(f: Flight): Flight {
    f.(busy := true, last := 0)
  }

  function Finished(f: Flight, outcome: int): Flight {
    Flight(false, outcome, f.rounds + [outcome])
  }

  /** Where a thread stands. `held` says whether the thread came to the reset with BootstrapMu in hand, `since` how many
      rounds were over when it began to wait, `epoch` how many teardowns the session had seen when it was counted. */
  datatype Point =
    | Out
    | WantMu                              // about to lock BootstrapMu
    | Bootstrapping                       // EnsureExecutor, BootstrapMu held
    | Asking                              // EnsureExecutor found no client
    | EnsureWait(since: nat)              // follower of another ensure
    | EnsureLead                          // leader of the ensure round
    | Ready                               // bootstrap done, BootstrapMu held
    | Reserved(epoch: nat)                // call reserved, BootstrapMu still held
    | Calling(epoch: nat)                 // call in progress
    | Leased(epoch: nat)                  // counted by acquireCall
    | WantReset(held: bool)               // resetSessionSafely
    | ResetWait(held: bool, since: nat)
    | ResetLock                           // reset leader that still needs BootstrapMu
    | Drain(held: bool)                   // reset leader waiting for the calls to end
    | Teardown(held: bool)                // reset leader about to close the session
    | ResetUnlock(outcome: int)           // reset leader giving back the BootstrapMu it took
    | ResetFinish(held: bool, outcome: int)
    | Told(held: bool, outcome: int)      // follower with the answer of its round
    | Holding                             // nothing left to do under BootstrapMu

  /** What the threads share: BootstrapMu, the fields of the runtime, and the session with its client. `epoch` counts
      the teardowns so far. */
  datatype Shared = Shared(
    mu: Option<Tid>, calls: int, reset: Flight, ensure: Flight, open: bool, client: bool, epoch: nat)

  datatype State = State(threads: map<Tid, Point>, shared: Shared)

  datatype Action =
    | AskMu
    | LockMu
    | UnlockMu
    | TryAgain                     // the loop of EnsureExecutorWithReconnect
    | Reserve
    | NoClient
    | StartCall
    | EndCall
    | Acquire
    | Release
    | EnsureCheck                  // lines 295-307: drop a client without stdio, then look for a client
    | BeginEnsure
    | EnsureAnswer
    | FindClient                   // line 326: the leader finds a client after all
    | StartExecutor
    | FinishEnsure(outcome: int)
    | EnsureFails                  // discovery, a wait or a plugin upload failed: reset with BootstrapMu held
    | AskReset
    | BeginReset
    | ResetAnswer
    | ResetTimeout
    | LockForReset
    | Drained
    | DrainTimeout(error: int)
    | TearDown(outcome: int)
    | UnlockReset
    | FinishReset
    | Leave

  datatype Event = Spawn(t: Tid) | Step(t: Tid, action: Action)

  const FRESH := Shared(None, 0, Flight(false, 0, []), Flight(false, 0, []), false, false, 0)

  /** The thread owns BootstrapMu at this point. */
  predicate OwnsMu(p: Point) {
    match p
    case Bootstrapping => true
    case Asking => true
    case EnsureWait(_) => true
    case EnsureLead => true
    case Ready => true
    case Reserved(_) => true
    case WantReset(held) => held
    case ResetWait(held, _) => held
    case Drain(_) => true
    case Teardown(_) => true
    case ResetUnlock(_) => true
    case ResetFinish(held, _) => held
    case Told(held, _) => held
    case Holding => true
    case _ => false
  }

  /** The thread runs a round of the reset guard at this point. */
  predicate LeadsReset(p: Point) {
    p.ResetLock? || p.Drain? || p.Teardown? || p.ResetUnlock? || p.ResetFinish?
  }

  /** The thread is counted in activeCalls at this point. */
  predicate Counted(p: Point) {
    p.Reserved? || p.Calling? || p.Leased?
  }

  /** releaseCall never takes the count below zero. */
  function Released(h: Shared): Shared {
    if h.calls > 0 then h.(calls := h.calls - 1) else h
  }

  /** An action of thread `t` at point `p`: where it goes and what it leaves, or None when it cannot act. */
  function ActMu(a: Action, t: Tid, p: Point, h: Shared): Option<(Point, Shared)> {
    match a
    case AskMu => if p.Out? then Some((WantMu, h)) else None
    case LockMu => if p.WantMu? && h.mu.None? then Some((Bootstrapping, h.(mu := Some(t)))) else None
    case UnlockMu => if p.Holding? || p.Ready? then Some((Out, h.(mu := None))) else None
    case TryAgain => if p.Holding? then Some((Bootstrapping, h)) else None
    case _ => None
  }

  function ActCall(a: Action, p: Point, h: Shared): Option<(Point, Shared)> {
    match a
    case Reserve => if p.Ready? then Some((Reserved(h.epoch), h.(calls := h.calls + 1))) else None
    case NoClient => if p.Reserved? && !(h.open && h.client) then Some((WantReset(true), Released(h))) else None
    case StartCall => if p.Reserved? && h.open && h.client then Some((Calling(p.epoch), h.(mu := None))) else None
    case EndCall => if p.Calling? then Some((Out, Released(h))) else None
    case Acquire => if p.Out? && !h.reset.busy then Some((Leased(h.epoch), h.(calls := h.calls + 1))) else None
    case Release => if p.Leased? then Some((Out, Released(h))) else None
    case _ => None
  }

  function ActEnsure(a: Action, p: Point, h: Shared): Option<(Point, Shared)> {
    match a
    case EnsureCheck =>
      if !p.Bootstrapping? then None
      else if h.open && h.client then Some((Ready, h))
      else Some((Asking, if h.open then h else h.(client := false)))
    case BeginEnsure =>
      if !p.Asking? then None
      else if h.ensure.busy then Some((EnsureWait(|h.ensure.rounds|), h))
      else Some((EnsureLead, h.(ensure := Started(h.ensure))))
    case EnsureAnswer =>
      if p.EnsureWait? && !h.ensure.busy
      then Some((if h.ensure.last == 0 && h.client then Ready else WantReset(true), h)) else None
    case FindClient =>
      if p.EnsureLead? && h.client then Some((Ready, h.(ensure := Finished(h.ensure, 0)))) else None
    case StartExecutor => if p.EnsureLead? then Some((EnsureLead, h.(open := true))) else None
    case FinishEnsure(outcome) =>
      if p.EnsureLead? && (outcome == 0 ==> h.open)
      then Some((if outcome == 0 then Ready else WantReset(true),
                 h.(ensure := Finished(h.ensure, outcome), client := h.client || outcome == 0))) else None
    case EnsureFails =>
      if p.Bootstrapping? || p.EnsureWait? || p.Ready? then Some((WantReset(true), h)) else None
    case _ => None
  }

  function ActWait(a: Action, p: Point, h: Shared): Option<(Point, Shared)> {
    match a
    case AskReset => if p.Out? then Some((WantReset(false), h)) else None
    case BeginReset =>
      if !p.WantReset? then None
      else if h.reset.busy then Some((ResetWait(p.held, |h.reset.rounds|), h))
      else Some((if p.held then Drain(true) else ResetLock, h.(reset := Started(h.reset))))
    case ResetAnswer => if p.ResetWait? && !h.reset.busy then Some((Told(p.held, h.reset.last), h)) else None
    case ResetTimeout => if p.ResetWait? then Some((if p.held then Holding else Out, h)) else None
    case Leave => if p.Told? then Some((if p.held then Holding else Out, h)) else None
    case _ => None
  }

  /** The rest of a reset round; a deferred unlock of BootstrapMu runs before the deferred end of the round. */
  function ActRound(a: Action, t: Tid, p: Point, h: Shared): Option<(Point, Shared)> {
    match a
    case LockForReset => if p.ResetLock? && h.mu.None? then Some((Drain(false), h.(mu := Some(t)))) else None
    case Drained => if p.Drain? && h.calls == 0 then Some((Teardown(p.held), h)) else None
    case DrainTimeout(error) => if p.Drain? && error != 0 then Some((Ending(p.held, error), h)) else None
    case TearDown(outcome) =>
      if p.Teardown?
      then Some((Ending(p.held, outcome), h.(open := false, client := false, epoch := h.epoch + 1))) else None
    case UnlockReset => if p.ResetUnlock? then Some((ResetFinish(false, p.outcome), h.(mu := None))) else None
    case FinishReset =>
      if p.ResetFinish?
      then Some((if p.held then Holding else Out, h.(reset := Finished(h.reset, p.outcome)))) else None
    case _ => None
  }

  function Ending(held: bool, outcome: int): Point {
    if held then ResetFinish(true, outcome) else ResetUnlock(outcome)
  }

  function Act(a: Action, t: Tid, p: Point, h: Shared): Option<(Point, Shared)> {
    match a
    case AskMu | LockMu | UnlockMu | TryAgain => ActMu(a, t, p, h)
    case Reserve | NoClient | StartCall | EndCall | Acquire | Release => ActCall(a, p, h)
    case EnsureCheck | BeginEnsure | EnsureAnswer | FindClient | StartExecutor | FinishEnsure(_) | EnsureFails =>
      ActEnsure(a, p, h)
    case AskReset | BeginReset | ResetAnswer | ResetTimeout | Leave => ActWait(a, p, h)
    case _ => ActRound(a, t, p, h)
  }

  function Next(s: State, e: Event): Option<State> {
    match e
    case Spawn(t) => if t in s.threads then None else Some(s.(threads := s.threads[t := Out]))
    case Step(t, a) =>
      if t !in s.threads then None else
        var r := Act(a, t, s.threads[t], s.shared);
        if r.None? then None else Some(State(s.threads[t := r.value.0], r.value.1))
  }

  function Exec(run: seq<Event>): Option<State> {
    if run == [] then Some(State(map[], FRESH)) else
      var before := Exec(run[..|run| - 1]);
      if before.None? then None else Next(before.value, run[|run| - 1])
  }
}

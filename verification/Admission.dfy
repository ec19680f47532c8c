/** The admission journal of one host key as an event machine (executor/runtime/operation_journal.go).
    Every event is one file write, one file removal, one decision taken under the admission lock, or a
    change of the outside world: processes start and die, the host reboots, an I/O error ends a section. */
module Admission {
  import opened Text
  import opened Locks

  type OpId = string

  datatype Option<T> = None | Some(value: T)

  datatype Owner = Owner(pid: int, boot: string)

  datatype Status = Queued | Running | Recovering | Failed | Completed | Abandoned

  /** The part of an operation that never changes. `key` is the journal key its record is sealed with. */
  datatype Spec = Spec(owner: Owner, request: string, key: nat, locks: seq<Lock>)

  datatype Record = Record(spec: Spec, status: Status)
  datatype Index = Index(owner: Owner, request: string, status: Status)
  datatype ClaimPath = ClaimPath(op: OpId, tag: string)
  datatype Claim = Claim(op: OpId, owner: Owner, lock: Lock)

  /** The journal files of the host. */
  datatype Disk = Disk(records: map<OpId, Record>, index: map<OpId, Index>, claims: map<ClaimPath, Claim>)

  datatype Task =
    | Find(request: string, locks: seq<Lock>)  // findOrCreateOperation
    | Activate(op: OpId)                       // tryActivate
    | Finalize(op: OpId, status: Status)       // finalize

  /** How far the process inside the admission lock has come. */
  datatype Stage =
    | Stale(todo: set<OpId>)                                             // abandonStaleHostEntriesLocked
    | Erase(todo: set<OpId>, op: OpId, left: set<ClaimPath>, purge: bool)
    | EraseRec(todo: set<OpId>, op: OpId)
    | Lookup(todo: set<OpId>)                                            // findOperationByRequestIDLocked
    | Indexing(op: OpId)                                                 // record created, index still missing
    | Scan(unseen: set<ClaimPath>, clash: bool)                          // readLockClaims and conflictsLocked
    | ToRun
    | ToIndex
    | ToClaim(next: nat)
    | ToFinish
    | ToDrop(next: nat)

  datatype Section = Section(pid: int, key: nat, task: Task, stage: Stage)

  /** `specs`, `intact`, `open`, `granted` and `activated` are history: no process reads them.
      An operation is intact while the process that created it has never died, open from the moment its index
      exists until a finalize starts, granted once a grant was given, and activated if that grant came from a
      completed activation; the last three only hold intact operations. */
  datatype State = State(
    boot: string, live: set<int>, disk: Disk, section: Option<Section>,
    specs: map<OpId, Spec>, intact: set<OpId>, open: set<OpId>, granted: set<OpId>, activated: set<OpId>)

  datatype Event =
    // the outside world
    | Spawn(pid: int)
    | Die(pid: int)
    | Reboot(boot: string)
    | Abort
    // taking the admission lock
    | Enter(pid: int, key: nat, task: Task)
    // the scan for stale operations; `seen` is the boot id as the process read it
    | KeepIndex(op: OpId, seen: string)
    | DropStale(op: OpId, seen: string)
    | EraseClaim(path: ClaimPath)
    | EraseIndex
    | EraseRecord
    | EndStale
    // finding or creating the operation of a request
    | SkipIndex(op: OpId)
    | DiscardIndex(op: OpId)
    | Found(op: OpId)
    | NewRecord(op: OpId, seen: string)
    | NewIndex
    // activation
    | SweepClaim(path: ClaimPath, seen: string)
    | SeeClaim(path: ClaimPath, seen: string)
    | EndScan
    | MarkRunning
    | IndexRunning
    | PutClaim
    | Grant
    // release
    | MarkFinal
    | DropClaim
    | DropIndex

  predicate SameBoot(owner: string, current: string) {
    owner == "" || current == "" || owner == current
  }

  /** operationJournalOwnerActive, as a process that reads the boot id as `seen` evaluates it. */
  predicate OwnerActive(o: Owner, live: set<int>, seen: string) {
    o.pid != 0 && SameBoot(o.boot, seen) && o.pid in live
  }

  predicate ActiveStatus(s: Status) {
    s.Queued? || s.Running? || s.Recovering?
  }

  /** The boot id file yields the boot id, or nothing when it cannot be read. */
  predicate BootReading(s: State, seen: string) {
    seen == "" || seen == s.boot
  }

  predicate Readable(d: Disk, op: OpId, key: nat) {
    op in d.records && d.records[op].spec.key == key
  }

  function PathOf(op: OpId, l: Lock): ClaimPath {
    ClaimPath(op, Tag(l))
  }

  function PathsOf(op: OpId, locks: seq<Lock>): set<ClaimPath> {
    set i | 0 <= i < |locks| :: PathOf(op, locks[i])
  }

  function ClaimsNaming(d: Disk, op: OpId): set<ClaimPath> {
    set p | p in d.claims && d.claims[p].op == op
  }

  /** The pid that the scan treats as its own: the entry's owner when activating, else the caller. */
  function OwnPid(s: State, sec: Section): int {
    if sec.task.Activate? && sec.task.op in s.specs then s.specs[sec.task.op].owner.pid else sec.pid
  }

  predicate IsStale(s: State, sec: Section, op: OpId, seen: string)
    requires op in s.disk.index
  {
    var idx := s.disk.index[op];
    && !(idx.owner.pid == OwnPid(s, sec) && SameBoot(idx.owner.boot, seen))
    && ActiveStatus(idx.status)
    && !OwnerActive(idx.owner, s.live, seen)
  }

  predicate Clashes(c: Claim, op: OpId, locks: seq<Lock>) {
    c.op != op && exists i :: 0 <= i < |locks| && Conflict(c.lock, locks[i])
  }

  function PutRecord(d: Disk, op: OpId, spec: Spec, status: Status): Disk {
    d.(records := d.records[op := Record(spec, status)])
  }

  function PutIndex(d: Disk, op: OpId, spec: Spec, status: Status): Disk {
    d.(index := d.index[op := Index(spec.owner, spec.request, status)])
  }

  function WithClaim(d: Disk, op: OpId, owner: Owner, l: Lock): Disk {
    d.(claims := d.claims[PathOf(op, l) := Claim(op, owner, l)])
  }

  function WithoutClaim(d: Disk, path: ClaimPath): Disk {
    d.(claims := d.claims - {path})
  }

  function WithoutIndex(d: Disk, op: OpId): Disk {
    d.(index := d.index - {op})
  }

  function At(s: State, sec: Section, d: Disk, stage: Stage): State {
    s.(disk := d, section := Some(sec.(stage := stage)))
  }

  function Leave(s: State, d: Disk): State {
    s.(disk := d, section := None)
  }

  function Forget(s: State, gone: set<OpId>): State {
    s.(open := s.open - gone, granted := s.granted - gone, activated := s.activated - gone)
  }

  function OwnedBy(s: State, pid: int): set<OpId> {
    set o | o in s.specs && s.specs[o].owner.pid == pid
  }

  // One function per event: the next state, or None where the event cannot happen.

  function DoDie(s: State, pid: int): Option<State> {
    if pid !in s.live then None else
      var gone := OwnedBy(s, pid);
      Some(Forget(s, gone).(
        live := s.live - {pid}, intact := s.intact - gone,
        section := if s.section.Some? && s.section.value.pid == pid then None else s.section))
  }

  function DoReboot(s: State, boot: string): Option<State> {
    Some(s.(boot := boot, live := {}, section := None, intact := {}, open := {}, granted := {}, activated := {}))
  }

  predicate MayStart(s: State, key: nat, task: Task) {
    match task
    case Find(_, locks) => Normalized(locks)
    case Activate(op) => op in s.specs && s.specs[op].key == key
    case Finalize(op, status) => op in s.specs && s.specs[op].key == key && !ActiveStatus(status)
  }

  function DoEnter(s: State, pid: int, key: nat, task: Task): Option<State> {
    if s.section.Some? || pid !in s.live || !MayStart(s, key, task) then None
    else if task.Finalize? then Some(Forget(s, {task.op}).(section := Some(Section(pid, key, task, ToFinish))))
    else Some(s.(section := Some(Section(pid, key, task, Stale(s.disk.index.Keys)))))
  }

  function DoKeepIndex(s: State, sec: Section, op: OpId, seen: string): Option<State> {
    if sec.stage.Stale? && op in sec.stage.todo && BootReading(s, seen)
       && (op in s.disk.index ==> !IsStale(s, sec, op, seen))
    then Some(At(s, sec, s.disk, Stale(sec.stage.todo - {op})))
    else None
  }

  function DoDropStale(s: State, sec: Section, op: OpId, seen: string): Option<State> {
    if sec.stage.Stale? && op in sec.stage.todo && BootReading(s, seen)
       && op in s.disk.index && IsStale(s, sec, op, seen)
    then
      var todo := sec.stage.todo - {op};
      if Readable(s.disk, op, sec.key) then
        var spec := s.disk.records[op].spec;
        Some(At(s, sec, PutRecord(s.disk, op, spec, Abandoned), Erase(todo, op, PathsOf(op, spec.locks), false)))
      else
        Some(At(s, sec, s.disk, Erase(todo, op, ClaimsNaming(s.disk, op), true)))
    else None
  }

  function DoEraseClaim(s: State, sec: Section, path: ClaimPath): Option<State> {
    if sec.stage.Erase? && path in sec.stage.left
    then Some(At(s, sec, WithoutClaim(s.disk, path), sec.stage.(left := sec.stage.left - {path})))
    else None
  }

  function DoEraseIndex(s: State, sec: Section): Option<State> {
    if sec.stage.Erase? && sec.stage.left == {}
    then Some(At(s, sec, WithoutIndex(s.disk, sec.stage.op),
                 if sec.stage.purge then EraseRec(sec.stage.todo, sec.stage.op) else Stale(sec.stage.todo)))
    else None
  }

  function DoEraseRecord(s: State, sec: Section): Option<State> {
    if sec.stage.EraseRec?
    then Some(At(s, sec, s.disk.(records := s.disk.records - {sec.stage.op}), Stale(sec.stage.todo)))
    else None
  }

  function DoEndStale(s: State, sec: Section): Option<State> {
    if sec.stage.Stale? && sec.stage.todo == {} then
      if sec.task.Find? then
        Some(At(s, sec, s.disk, Lookup(if Trim(sec.task.request) == "" then {} else s.disk.index.Keys)))
      else Some(At(s, sec, s.disk, Scan(s.disk.claims.Keys, false)))
    else None
  }

  predicate Matches(s: State, sec: Section, op: OpId) {
    sec.task.Find? && op in s.disk.index && s.disk.index[op].request == sec.task.request
  }

  function DoSkipIndex(s: State, sec: Section, op: OpId): Option<State> {
    if sec.stage.Lookup? && op in sec.stage.todo && !Matches(s, sec, op)
    then Some(At(s, sec, s.disk, Lookup(sec.stage.todo - {op})))
    else None
  }

  function DoDiscardIndex(s: State, sec: Section, op: OpId): Option<State> {
    if sec.stage.Lookup? && op in sec.stage.todo && Matches(s, sec, op) && !Readable(s.disk, op, sec.key)
    then Some(At(s, sec, WithoutIndex(s.disk, op), Lookup(sec.stage.todo - {op})))
    else None
  }

  function DoFound(s: State, sec: Section, op: OpId): Option<State> {
    if sec.stage.Lookup? && op in sec.stage.todo && Matches(s, sec, op) && Readable(s.disk, op, sec.key)
    then Some(Leave(s, s.disk).(
                granted := if s.disk.records[op].status.Running? then s.granted + ({op} * s.intact) else s.granted))
    else None
  }

  function DoNewRecord(s: State, sec: Section, op: OpId, seen: string): Option<State> {
    if sec.stage.Lookup? && sec.stage.todo == {} && sec.task.Find? && op !in s.specs && BootReading(s, seen) then
      var spec := Spec(Owner(sec.pid, seen), sec.task.request, sec.key, sec.task.locks);
      Some(At(s, sec, PutRecord(s.disk, op, spec, Queued), Indexing(op)).(
             specs := s.specs[op := spec], intact := s.intact + {op}))
    else None
  }

  function DoNewIndex(s: State, sec: Section): Option<State> {
    if sec.stage.Indexing? && sec.stage.op in s.specs
    then Some(Leave(s, PutIndex(s.disk, sec.stage.op, s.specs[sec.stage.op], Queued)).(
                open := s.open + ({sec.stage.op} * s.intact)))
    else None
  }

  function DoSweepClaim(s: State, sec: Section, path: ClaimPath, seen: string): Option<State> {
    if sec.stage.Scan? && path in sec.stage.unseen && BootReading(s, seen) && path in s.disk.claims
       && !OwnerActive(s.disk.claims[path].owner, s.live, seen)
    then Some(At(s, sec, WithoutClaim(s.disk, path), sec.stage.(unseen := sec.stage.unseen - {path})))
    else None
  }

  function DoSeeClaim(s: State, sec: Section, path: ClaimPath, seen: string): Option<State> {
    if sec.stage.Scan? && path in sec.stage.unseen && BootReading(s, seen) && path in s.disk.claims
       && OwnerActive(s.disk.claims[path].owner, s.live, seen) && Activating(s, sec)
    then
      var clash := Clashes(s.disk.claims[path], sec.task.op, s.specs[sec.task.op].locks);
      Some(At(s, sec, s.disk, Scan(sec.stage.unseen - {path}, sec.stage.clash || clash)))
    else None
  }

  function DoEndScan(s: State, sec: Section): Option<State> {
    if sec.stage.Scan? && sec.stage.unseen == {}
    then Some(if sec.stage.clash then Leave(s, s.disk) else At(s, sec, s.disk, ToRun))
    else None
  }

  predicate Activating(s: State, sec: Section) {
    sec.task.Activate? && sec.task.op in s.specs
  }

  function DoMarkRunning(s: State, sec: Section): Option<State> {
    if sec.stage.ToRun? && Activating(s, sec)
    then Some(At(s, sec, PutRecord(s.disk, sec.task.op, s.specs[sec.task.op], Running), ToIndex))
    else None
  }

  function DoIndexRunning(s: State, sec: Section): Option<State> {
    if sec.stage.ToIndex? && Activating(s, sec)
    then Some(At(s, sec, PutIndex(s.disk, sec.task.op, s.specs[sec.task.op], Running), ToClaim(0)))
    else None
  }

  function DoPutClaim(s: State, sec: Section): Option<State> {
    if sec.stage.ToClaim? && Activating(s, sec) && sec.stage.next < |s.specs[sec.task.op].locks| then
      var spec := s.specs[sec.task.op];
      Some(At(s, sec, WithClaim(s.disk, sec.task.op, spec.owner, spec.locks[sec.stage.next]),
              ToClaim(sec.stage.next + 1)))
    else None
  }

  function DoGrant(s: State, sec: Section): Option<State> {
    if sec.stage.ToClaim? && Activating(s, sec) && sec.stage.next == |s.specs[sec.task.op].locks| then
      var given := {sec.task.op} * s.intact;
      Some(Leave(s, s.disk).(granted := s.granted + given, activated := s.activated + given))
    else None
  }

  predicate Finalizing(s: State, sec: Section) {
    sec.task.Finalize? && sec.task.op in s.specs
  }

  function DoMarkFinal(s: State, sec: Section): Option<State> {
    if sec.stage.ToFinish? && Finalizing(s, sec)
    then Some(At(s, sec, PutRecord(s.disk, sec.task.op, s.specs[sec.task.op], sec.task.status), ToDrop(0)))
    else None
  }

  function DoDropClaim(s: State, sec: Section): Option<State> {
    if sec.stage.ToDrop? && Finalizing(s, sec) && sec.stage.next < |s.specs[sec.task.op].locks|
    then Some(At(s, sec, WithoutClaim(s.disk, PathOf(sec.task.op, s.specs[sec.task.op].locks[sec.stage.next])),
                 ToDrop(sec.stage.next + 1)))
    else None
  }

  function DoDropIndex(s: State, sec: Section): Option<State> {
    if sec.stage.ToDrop? && Finalizing(s, sec) && sec.stage.next == |s.specs[sec.task.op].locks|
    then Some(Leave(s, WithoutIndex(s.disk, sec.task.op)))
    else None
  }

  function Next(s: State, e: Event): Option<State> {
    match e
    case Spawn(pid) => if pid > 0 && pid !in s.live then Some(s.(live := s.live + {pid})) else None
    case Die(pid) => DoDie(s, pid)
    case Reboot(boot) => DoReboot(s, boot)
    case Enter(pid, key, task) => DoEnter(s, pid, key, task)
    case _ => if s.section.Some? then NextInside(s, s.section.value, e) else None
  }

  function NextInside(s: State, sec: Section, e: Event): Option<State> {
    match e
    case Abort => Some(s.(section := None))
    case KeepIndex(_, _) | DropStale(_, _) | EraseClaim(_) | EraseIndex | EraseRecord | EndStale => NextStale(s, sec, e)
    case SkipIndex(_) | DiscardIndex(_) | Found(_) | NewRecord(_, _) | NewIndex => NextLookup(s, sec, e)
    case SweepClaim(_, _) | SeeClaim(_, _) | EndScan => NextScan(s, sec, e)
    case MarkRunning | IndexRunning | PutClaim | Grant => NextWrite(s, sec, e)
    case MarkFinal | DropClaim | DropIndex => NextFinish(s, sec, e)
    case _ => None
  }

  function NextStale(s: State, sec: Section, e: Event): Option<State> {
    match e
    case KeepIndex(op, seen) => DoKeepIndex(s, sec, op, seen)
    case DropStale(op, seen) => DoDropStale(s, sec, op, seen)
    case EraseClaim(path) => DoEraseClaim(s, sec, path)
    case EraseIndex => DoEraseIndex(s, sec)
    case EraseRecord => DoEraseRecord(s, sec)
    case EndStale => DoEndStale(s, sec)
    case _ => None
  }

  function NextLookup(s: State, sec: Section, e: Event): Option<State> {
    match e
    case SkipIndex(op) => DoSkipIndex(s, sec, op)
    case DiscardIndex(op) => DoDiscardIndex(s, sec, op)
    case Found(op) => DoFound(s, sec, op)
    case NewRecord(op, seen) => DoNewRecord(s, sec, op, seen)
    case NewIndex => DoNewIndex(s, sec)
    case _ => None
  }

  function NextScan(s: State, sec: Section, e: Event): Option<State> {
    match e
    case SweepClaim(path, seen) => DoSweepClaim(s, sec, path, seen)
    case SeeClaim(path, seen) => DoSeeClaim(s, sec, path, seen)
    case EndScan => DoEndScan(s, sec)
    case _ => None
  }

  function NextWrite(s: State, sec: Section, e: Event): Option<State> {
    match e
    case MarkRunning => DoMarkRunning(s, sec)
    case IndexRunning => DoIndexRunning(s, sec)
    case PutClaim => DoPutClaim(s, sec)
    case Grant => DoGrant(s, sec)
    case _ => None
  }

  function NextFinish(s: State, sec: Section, e: Event): Option<State> {
    match e
    case MarkFinal => DoMarkFinal(s, sec)
    case DropClaim => DoDropClaim(s, sec)
    case DropIndex => DoDropIndex(s, sec)
    case _ => None
  }

  /** The events of the outside world and of taking the lock. */
  predicate Outside(e: Event) {
    e.Spawn? || e.Die? || e.Reboot? || e.Enter? || e.Abort?
  }

  function Start(boot: string): State {
    State(boot, {}, Disk(map[], map[], map[]), None, map[], {}, {}, {}, {})
  }

  /** The state after a run, or None if some event of the run cannot happen where it stands. */
  function Exec(s: State, run: seq<Event>): Option<State> {
    if run == [] then Some(s) else
      var before := Exec(s, run[..|run| - 1]);
      if before.None? then None else Next(before.value, run[|run| - 1])
  }
}

/** Mutual exclusion of the admission journal, in every run. */
module AdmissionSafety {
  import opened Text
  import opened Locks
  import opened Admission

  predicate Backed(d: Disk, op: OpId, locks: seq<Lock>, upTo: nat)
    requires upTo <= |locks|
  {
    forall i :: 0 <= i < upTo ==> PathOf(op, locks[i]) in d.claims
  }

  predicate FullyBacked(s: State, op: OpId) {
    op in s.specs && Backed(s.disk, op, s.specs[op].locks, |s.specs[op].locks|)
  }

  predicate Unclaimed(s: State, op: OpId) {
    forall p :: p in s.disk.claims ==> p.op != op
  }

  /** Every process judges this owner active, however it reads the boot id. */
  predicate SurelyActive(s: State, o: Owner) {
    o.pid != 0 && o.pid in s.live && (o.boot == "" || o.boot == s.boot)
  }

  predicate FilesAgree(s: State) {
    && (forall o :: o in s.specs ==> Normalized(s.specs[o].locks))
    && (forall o :: o in s.disk.records ==> o in s.specs && s.disk.records[o].spec == s.specs[o])
    && (forall o :: o in s.disk.index ==> o in s.specs && IndexAgrees(s.disk.index[o], s.specs[o]))
    && (forall p :: p in s.disk.claims ==> ClaimAgrees(s, p, s.disk.claims[p]))
  }

  predicate IndexAgrees(idx: Index, spec: Spec) {
    idx.owner == spec.owner && idx.request == spec.request
  }

  predicate ClaimAgrees(s: State, p: ClaimPath, c: Claim) {
    && c.op == p.op && p.op in s.specs && c.owner == s.specs[p.op].owner
    && c.lock in s.specs[p.op].locks && Tag(c.lock) == p.tag
  }

  /** The inductive core: claim files of distinct operations never exclude each other, dead owners included. */
  predicate ClaimsCompatible(d: Disk) {
    forall p, q :: p in d.claims && q in d.claims && p.op != q.op ==> !Conflict(d.claims[p].lock, d.claims[q].lock)
  }

  predicate History(s: State) {
    && 0 !in s.live
    && (forall o :: o in s.intact ==> o in s.specs && SurelyActive(s, s.specs[o].owner))
    && s.open <= s.intact && s.activated <= s.granted <= s.intact
  }

  /** No claim outside `skip` stands in the way of `op`. */
  predicate Clear(s: State, op: OpId, skip: set<ClaimPath>)
    requires op in s.specs
  {
    forall p :: p in s.disk.claims && p !in skip ==> !Clashes(s.disk.claims[p], op, s.specs[op].locks)
  }

  predicate SectionOk(s: State, sec: Section) {
    && sec.pid in s.live
    && MayStart(s, sec.key, sec.task)
    && (match sec.stage
        case Stale(_) => !sec.task.Finalize?
        case Erase(_, op, left, _) => !sec.task.Finalize? && op !in s.intact && (forall p :: p in left ==> p.op == op)
        case EraseRec(_, op) => !sec.task.Finalize? && op !in s.intact
        case Lookup(_) => sec.task.Find?
        case Indexing(op) => sec.task.Find? && op in s.specs && IndexingOk(s, sec, op, s.specs[op])
        case Scan(unseen, clash) =>
          sec.task.Activate? && unseen <= s.disk.claims.Keys && (!clash ==> Clear(s, sec.task.op, unseen))
        case ToRun => sec.task.Activate? && Clear(s, sec.task.op, {})
        case ToIndex => sec.task.Activate? && Clear(s, sec.task.op, {}) && SaysRunning(s, sec.task.op)
        case ToClaim(n) =>
          && sec.task.Activate? && Clear(s, sec.task.op, {}) && SaysRunning(s, sec.task.op)
          && n <= |s.specs[sec.task.op].locks| && Backed(s.disk, sec.task.op, s.specs[sec.task.op].locks, n)
        case ToFinish => sec.task.Finalize? && sec.task.op !in s.open + s.granted
        case ToDrop(n) => sec.task.Finalize? && sec.task.op !in s.open + s.granted && n <= |s.specs[sec.task.op].locks|)
  }

  predicate SaysRunning(s: State, op: OpId) {
    op in s.disk.records && s.disk.records[op].status.Running?
  }

  predicate IndexingOk(s: State, sec: Section, op: OpId, spec: Spec)
    requires sec.task.Find?
  {
    && op !in s.granted && op !in s.disk.index
    && spec.request == sec.task.request && spec.key == sec.key && spec.locks == sec.task.locks
    && spec.owner.pid == sec.pid
  }

  predicate Inv(s: State) {
    && FilesAgree(s) && ClaimsCompatible(s.disk) && History(s)
    && (forall o :: o in s.activated ==> FullyBacked(s, o))
    && (s.section.Some? ==> SectionOk(s, s.section.value))
  }

  lemma RemovalKeepsFiles(s: State, t: State, path: ClaimPath)
    requires Inv(s) && t.specs == s.specs && t.disk == WithoutClaim(s.disk, path)
    ensures FilesAgree(t) && ClaimsCompatible(t.disk)
  {
    hide Conflict, Normalized;
  }

  /** Writing one more claim of an operation that nothing stands in the way of. */
  lemma NewClaimIsCompatible(s: State, op: OpId, owner: Owner, l: Lock)
    requires FilesAgree(s) && ClaimsCompatible(s.disk)
    requires op in s.specs && l in s.specs[op].locks && Clear(s, op, {})
    ensures ClaimsCompatible(WithClaim(s.disk, op, owner, l))
  {
    var d := WithClaim(s.disk, op, owner, l);
    forall p, q | p in d.claims && q in d.claims && p.op != q.op
      ensures !Conflict(d.claims[p].lock, d.claims[q].lock)
    {
      ConflictIsSymmetric(d.claims[p].lock, d.claims[q].lock);
      var i :| 0 <= i < |s.specs[op].locks| && s.specs[op].locks[i] == l;
      if p == PathOf(op, l) {
        assert !Clashes(s.disk.claims[q], op, s.specs[op].locks);
      } else if q == PathOf(op, l) {
        assert !Clashes(s.disk.claims[p], op, s.specs[op].locks);
      }
    }
  }

  lemma NewClaimAgrees(s: State, t: State, op: OpId, i: nat)
    requires FilesAgree(s) && t.specs == s.specs && op in s.specs && i < |s.specs[op].locks|
    requires t.disk == WithClaim(s.disk, op, s.specs[op].owner, s.specs[op].locks[i])
    ensures FilesAgree(t)
    ensures forall o :: FullyBacked(s, o) ==> FullyBacked(t, o)
    ensures Clear(s, op, {}) ==> Clear(t, op, {})
    ensures Backed(s.disk, op, s.specs[op].locks, i) ==> Backed(t.disk, op, s.specs[op].locks, i + 1)
  {
    hide Conflict, Normalized;
  }

  lemma DieKeeps(s: State, pid: int)
    requires Inv(s) && DoDie(s, pid).Some?
    ensures Inv(DoDie(s, pid).value)
  {
    hide Conflict, Normalized;
  }

  lemma RebootKeeps(s: State, boot: string)
    requires Inv(s) && DoReboot(s, boot).Some?
    ensures Inv(DoReboot(s, boot).value)
  {
    hide Conflict, Normalized;
  }

  lemma AbortKeeps(s: State)
    requires Inv(s)
    ensures Inv(s.(section := None))
  {
  }

  lemma SpawnKeeps(s: State, pid: int)
    requires Inv(s) && pid > 0
    ensures Inv(s.(live := s.live + {pid}))
  {
  }

  lemma EnterKeeps(s: State, pid: int, key: nat, task: Task)
    requires Inv(s) && DoEnter(s, pid, key, task).Some?
    ensures Inv(DoEnter(s, pid, key, task).value)
  {
    hide Conflict, Normalized;
  }

  lemma KeepIndexKeeps(s: State, sec: Section, op: OpId, seen: string)
    requires Inv(s) && s.section == Some(sec) && DoKeepIndex(s, sec, op, seen).Some?
    ensures Inv(DoKeepIndex(s, sec, op, seen).value)
  {
    hide Conflict, Normalized;
  }

  /** The scan for stale operations passes over an index only if the operation is over, its owner counts as active, or
      it is of the pid that the scan takes for its own. */
  lemma KeptIsNotDead(s: State, op: OpId, seen: string)
    requires Next(s, KeepIndex(op, seen)).Some? && op in s.disk.index
    ensures var idx := s.disk.index[op];
            || idx.status in {Failed, Completed, Abandoned}
            || OwnerActive(idx.owner, s.live, seen)
            || (s.section.Some? && idx.owner.pid == OwnPid(s, s.section.value))
  {
  }

  lemma DropStaleKeeps(s: State, sec: Section, op: OpId, seen: string)
    requires Inv(s) && s.section == Some(sec) && DoDropStale(s, sec, op, seen).Some?
    ensures Inv(DoDropStale(s, sec, op, seen).value)
  {
    hide Conflict, Normalized;
  }

  lemma EraseClaimKeeps(s: State, sec: Section, path: ClaimPath)
    requires Inv(s) && s.section == Some(sec) && DoEraseClaim(s, sec, path).Some?
    ensures Inv(DoEraseClaim(s, sec, path).value)
  {
    hide Conflict, Normalized;
    var t := DoEraseClaim(s, sec, path).value;
    RemovalKeepsFiles(s, t, path);
    forall o | o in t.activated ensures FullyBacked(t, o) {
      assert FullyBacked(s, o) && o != path.op;
    }
  }

  lemma EraseIndexKeeps(s: State, sec: Section)
    requires Inv(s) && s.section == Some(sec) && DoEraseIndex(s, sec).Some?
    ensures Inv(DoEraseIndex(s, sec).value)
  {
    hide Conflict, Normalized;
  }

  lemma EraseRecordKeeps(s: State, sec: Section)
    requires Inv(s) && s.section == Some(sec) && DoEraseRecord(s, sec).Some?
    ensures Inv(DoEraseRecord(s, sec).value)
  {
    hide Conflict, Normalized;
  }

  lemma EndStaleKeeps(s: State, sec: Section)
    requires Inv(s) && s.section == Some(sec) && DoEndStale(s, sec).Some?
    ensures Inv(DoEndStale(s, sec).value)
  {
    hide Conflict, Normalized;
  }

  lemma SkipIndexKeeps(s: State, sec: Section, op: OpId)
    requires Inv(s) && s.section == Some(sec) && DoSkipIndex(s, sec, op).Some?
    ensures Inv(DoSkipIndex(s, sec, op).value)
  {
    hide Conflict, Normalized;
  }

  lemma DiscardIndexKeeps(s: State, sec: Section, op: OpId)
    requires Inv(s) && s.section == Some(sec) && DoDiscardIndex(s, sec, op).Some?
    ensures Inv(DoDiscardIndex(s, sec, op).value)
  {
    hide Conflict, Normalized;
  }

  lemma FoundKeeps(s: State, sec: Section, op: OpId)
    requires Inv(s) && s.section == Some(sec) && DoFound(s, sec, op).Some?
    ensures Inv(DoFound(s, sec, op).value)
  {
    hide Conflict, Normalized;
  }

  lemma NewRecordKeeps(s: State, sec: Section, op: OpId, seen: string)
    requires Inv(s) && s.section == Some(sec) && DoNewRecord(s, sec, op, seen).Some?
    ensures Inv(DoNewRecord(s, sec, op, seen).value)
  {
    hide Conflict, Normalized;
  }

  lemma NewIndexKeeps(s: State, sec: Section)
    requires Inv(s) && s.section == Some(sec) && DoNewIndex(s, sec).Some?
    ensures Inv(DoNewIndex(s, sec).value)
  {
    hide Conflict, Normalized;
  }

  lemma SweepClaimKeeps(s: State, sec: Section, path: ClaimPath, seen: string)
    requires Inv(s) && s.section == Some(sec) && DoSweepClaim(s, sec, path, seen).Some?
    ensures Inv(DoSweepClaim(s, sec, path, seen).value)
  {
    hide Conflict, Normalized;
  }

  lemma SeeClaimKeeps(s: State, sec: Section, path: ClaimPath, seen: string)
    requires Inv(s) && s.section == Some(sec) && DoSeeClaim(s, sec, path, seen).Some?
    ensures Inv(DoSeeClaim(s, sec, path, seen).value)
  {
    hide Conflict, Normalized;
  }

  lemma EndScanKeeps(s: State, sec: Section)
    requires Inv(s) && s.section == Some(sec) && DoEndScan(s, sec).Some?
    ensures Inv(DoEndScan(s, sec).value)
  {
    hide Conflict, Normalized;
  }

  lemma MarkRunningKeeps(s: State, sec: Section)
    requires Inv(s) && s.section == Some(sec) && DoMarkRunning(s, sec).Some?
    ensures Inv(DoMarkRunning(s, sec).value)
  {
    hide Conflict, Normalized;
  }

  lemma IndexRunningKeeps(s: State, sec: Section)
    requires Inv(s) && s.section == Some(sec) && DoIndexRunning(s, sec).Some?
    ensures Inv(DoIndexRunning(s, sec).value)
  {
    hide Conflict, Normalized;
  }

  lemma PutClaimKeeps(s: State, sec: Section)
    requires Inv(s) && s.section == Some(sec) && DoPutClaim(s, sec).Some?
    ensures Inv(DoPutClaim(s, sec).value)
  {
    hide Conflict, Normalized, ClaimsCompatible, FilesAgree, Clashes;
    var op := sec.task.op;
    var spec := s.specs[op];
    NewClaimIsCompatible(s, op, spec.owner, spec.locks[sec.stage.next]);
    NewClaimAgrees(s, DoPutClaim(s, sec).value, op, sec.stage.next);
  }

  lemma GrantKeeps(s: State, sec: Section)
    requires Inv(s) && s.section == Some(sec) && DoGrant(s, sec).Some?
    ensures Inv(DoGrant(s, sec).value)
  {
    hide Conflict, Normalized;
  }

  lemma MarkFinalKeeps(s: State, sec: Section)
    requires Inv(s) && s.section == Some(sec) && DoMarkFinal(s, sec).Some?
    ensures Inv(DoMarkFinal(s, sec).value)
  {
    hide Conflict, Normalized;
  }

  lemma DropClaimKeeps(s: State, sec: Section)
    requires Inv(s) && s.section == Some(sec) && DoDropClaim(s, sec).Some?
    ensures Inv(DoDropClaim(s, sec).value)
  {
    hide Conflict, Normalized;
  }

  lemma DropIndexKeeps(s: State, sec: Section)
    requires Inv(s) && s.section == Some(sec) && DoDropIndex(s, sec).Some?
    ensures Inv(DoDropIndex(s, sec).value)
  {
    hide Conflict, Normalized;
  }

  lemma InsideKeeps(s: State, sec: Section, e: Event)
    requires Inv(s) && s.section == Some(sec) && NextInside(s, sec, e).Some?
    ensures Inv(NextInside(s, sec, e).value)
  {
    hide Inv;
    match e
    case Abort => AbortKeeps(s);
    case KeepIndex(op, seen) => KeepIndexKeeps(s, sec, op, seen);
    case DropStale(op, seen) => DropStaleKeeps(s, sec, op, seen);
    case EraseClaim(path) => EraseClaimKeeps(s, sec, path);
    case EraseIndex => EraseIndexKeeps(s, sec);
    case EraseRecord => EraseRecordKeeps(s, sec);
    case EndStale => EndStaleKeeps(s, sec);
    case SkipIndex(op) => SkipIndexKeeps(s, sec, op);
    case DiscardIndex(op) => DiscardIndexKeeps(s, sec, op);
    case Found(op) => FoundKeeps(s, sec, op);
    case NewRecord(op, seen) => NewRecordKeeps(s, sec, op, seen);
    case NewIndex => NewIndexKeeps(s, sec);
    case SweepClaim(path, seen) => SweepClaimKeeps(s, sec, path, seen);
    case SeeClaim(path, seen) => SeeClaimKeeps(s, sec, path, seen);
    case EndScan => EndScanKeeps(s, sec);
    case MarkRunning => MarkRunningKeeps(s, sec);
    case IndexRunning => IndexRunningKeeps(s, sec);
    case PutClaim => PutClaimKeeps(s, sec);
    case Grant => GrantKeeps(s, sec);
    case MarkFinal => MarkFinalKeeps(s, sec);
    case DropClaim => DropClaimKeeps(s, sec);
    case DropIndex => DropIndexKeeps(s, sec);
    case _ =>
  }

  lemma EventKeepsInv(s: State, e: Event)
    requires Inv(s) && Next(s, e).Some?
    ensures Inv(Next(s, e).value)
  {
    hide Inv;
    match e
    case Spawn(pid) => SpawnKeeps(s, pid);
    case Die(pid) => DieKeeps(s, pid);
    case Reboot(boot) => RebootKeeps(s, boot);
    case Enter(pid, key, task) => EnterKeeps(s, pid, key, task);
    case _ => InsideKeeps(s, s.section.value, e);
  }

  lemma {:induction false} RunKeepsInv(boot: string, run: seq<Event>)
    requires Exec(Start(boot), run).Some?
    ensures Inv(Exec(Start(boot), run).value)
  {
    if run == [] {
    } else {
      RunKeepsInv(boot, run[..|run| - 1]);
      EventKeepsInv(Exec(Start(boot), run[..|run| - 1]).value, run[|run| - 1]);
    }
  }

  /** Claim files of distinct operations never exclude each other, whether or not their owners live. */
  lemma ClaimFilesNeverConflict(boot: string, run: seq<Event>, p: ClaimPath, q: ClaimPath)
    requires Exec(Start(boot), run).Some?
    requires var d := Exec(Start(boot), run).value.disk; p in d.claims && q in d.claims && p.op != q.op
    ensures var d := Exec(Start(boot), run).value.disk; !Conflict(d.claims[p].lock, d.claims[q].lock)
  {
    RunKeepsInv(boot, run);
  }

  /** Two operations that each completed an activation, are not released, and whose owners never died
      have all their claims on disk and hold lock sets that do not exclude each other, in every run, with crashes and
      I/O errors anywhere. */
  lemma ActivatedNeverConflict(boot: string, run: seq<Event>, o: OpId, q: OpId)
    requires Exec(Start(boot), run).Some?
    requires var s := Exec(Start(boot), run).value; o in s.activated && q in s.activated && o != q
    ensures var s := Exec(Start(boot), run).value;
            && FullyBacked(s, o) && FullyBacked(s, q)
            && !SetsConflict(s.specs[o].locks, s.specs[q].locks)
  {
    RunKeepsInv(boot, run);
    BackedNeverConflict(Exec(Start(boot), run).value, o, q);
  }

  /** So, of two such operations none locks the host or its reboot if the other holds any lock, and a key that both
      hold they both hold shared. */
  lemma ActivatedMayShare(boot: string, run: seq<Event>, o: OpId, q: OpId)
    requires Exec(Start(boot), run).Some?
    requires var s := Exec(Start(boot), run).value; o in s.activated && q in s.activated && o != q
    ensures var s := Exec(Start(boot), run).value;
            o in s.specs && q in s.specs && EachMayShare(s.specs[o].locks, s.specs[q].locks)
  {
    hide Conflict, MayShare;
    RunKeepsInv(boot, run);
    var s := Exec(Start(boot), run).value;
    ActivatedNeverConflict(boot, run, o, q);
    NoConflictMeansShared(s.specs[o].locks, s.specs[q].locks);
  }

  predicate EachMayShare(xs: seq<Lock>, ys: seq<Lock>) {
    forall i, j :: 0 <= i < |xs| && 0 <= j < |ys| ==> MayShare(xs[i], ys[j])
  }

  lemma NoConflictMeansShared(xs: seq<Lock>, ys: seq<Lock>)
    requires Normalized(xs) && Normalized(ys)
    ensures !SetsConflict(xs, ys) <==> EachMayShare(xs, ys)
  {
    hide Conflict, MayShare, Tag;
    forall i, j | 0 <= i < |xs| && 0 <= j < |ys| ensures Conflict(xs[i], ys[j]) <==> !MayShare(xs[i], ys[j]) {
      ConflictExactly(xs[i], ys[j]);
    }
  }

  predicate SharableWith(l: Lock, locks: seq<Lock>) {
    forall i :: 0 <= i < |locks| ==> MayShare(l, locks[i])
  }

  /** A claim stands in nobody's way exactly if its lock may be shared with every lock asked for. */
  lemma ClashExactly(s: State, p: ClaimPath, op: OpId, locks: seq<Lock>)
    requires FilesAgree(s) && p in s.disk.claims && Normalized(locks)
    ensures !Clashes(s.disk.claims[p], op, locks) <==>
            p.op == op || SharableWith(s.disk.claims[p].lock, locks)
  {
    hide Conflict, MayShare, Tag;
    var c := s.disk.claims[p];
    assert ClaimAgrees(s, p, c);
    forall i | 0 <= i < |locks| ensures Conflict(c.lock, locks[i]) <==> !MayShare(c.lock, locks[i]) {
      ConflictExactly(c.lock, locks[i]);
    }
  }

  lemma BackedNeverConflict(s: State, o: OpId, q: OpId)
    requires Inv(s) && FullyBacked(s, o) && FullyBacked(s, q) && o != q
    ensures !SetsConflict(s.specs[o].locks, s.specs[q].locks)
  {
    var xs, ys := s.specs[o].locks, s.specs[q].locks;
    forall i, j | 0 <= i < |xs| && 0 <= j < |ys| ensures !Conflict(xs[i], ys[j]) {
      ClaimHoldsLock(s, o, i);
      ClaimHoldsLock(s, q, j);
    }
  }

  lemma ClaimHoldsLock(s: State, o: OpId, i: nat)
    requires Inv(s) && FullyBacked(s, o) && i < |s.specs[o].locks|
    ensures var p := PathOf(o, s.specs[o].locks[i]);
            p in s.disk.claims && s.disk.claims[p].lock == s.specs[o].locks[i]
  {
    var locks := s.specs[o].locks;
    var p := PathOf(o, locks[i]);
    assert ClaimAgrees(s, p, s.disk.claims[p]);
    var j :| 0 <= j < |locks| && locks[j] == s.disk.claims[p].lock;
    assert Tag(locks[j]) == Tag(locks[i]);
  }

  /** A claim of an operation that asked for the locks of a host restart. */
  predicate RestartClaim(s: State, restart: OpId, p: ClaimPath) {
    p.op == restart && restart in s.specs && s.specs[restart].locks == Dedup(false, EXCLUSIVE, RESTART_LOCKS)
  }

  /** The executor stored for the operation what the planner asked for. */
  predicate Planned(s: State, o: OpId, action: string, plan: seq<Lock>) {
    o in s.specs && s.specs[o].locks == Dedup(false, EXCLUSIVE, PlannedLocks(action, plan))
  }

  /** A claim of a restart excludes every lock of every plan. */
  lemma RestartClaimClashes(s: State, restart: OpId, p: ClaimPath, o: OpId, action: string, plan: seq<Lock>)
    requires Inv(s) && p in s.disk.claims && RestartClaim(s, restart, p) && Planned(s, o, action, plan) && o != restart
    ensures s.specs[o].locks != [] && Clashes(s.disk.claims[p], o, s.specs[o].locks)
    ensures forall i :: 0 <= i < |s.specs[o].locks| ==> Conflict(s.disk.claims[p].lock, s.specs[o].locks[i])
  {
    hide PlannedLocks, Dedup;
    ExecutorKeepsPlan(action, plan);
    PlannedIsNormalized(action, plan);
    RestartExcludesEveryPlan(action, plan);
    RestartLocksAreStored();
    assert ClaimAgrees(s, p, s.disk.claims[p]);
    var j :| 0 <= j < |RESTART_LOCKS| && RESTART_LOCKS[j] == s.disk.claims[p].lock;
    forall i | 0 <= i < |s.specs[o].locks| ensures Conflict(s.disk.claims[p].lock, s.specs[o].locks[i]) {
      assert ExcludesRestart(PlannedLocks(action, plan)[i]);
    }
    assert Conflict(s.disk.claims[p].lock, s.specs[o].locks[0]);
  }

  lemma RestartClaimExcludes(s: State, restart: OpId, p: ClaimPath, o: OpId, action: string, plan: seq<Lock>)
    requires Inv(s) && p in s.disk.claims && RestartClaim(s, restart, p) && Planned(s, o, action, plan) && o != restart
    ensures !FullyBacked(s, o)
  {
    hide Conflict;
    RestartClaimClashes(s, restart, p, o, action, plan);
    if FullyBacked(s, o) {
      ClaimHoldsLock(s, o, 0);
    }
  }

  /** While any claim file of a restart of the host is left, in any run, no other planned operation can become running:
      its activation comes neither to the record nor to the index, to a claim or to the grant. */
  lemma RestartExcludesAll(
      boot: string, run: seq<Event>, restart: OpId, p: ClaimPath, o: OpId, action: string, plan: seq<Lock>)
    requires Exec(Start(boot), run).Some?
    requires var s := Exec(Start(boot), run).value; p in s.disk.claims && RestartClaim(s, restart, p)
    requires Planned(Exec(Start(boot), run).value, o, action, plan) && o != restart
    ensures var s := Exec(Start(boot), run).value;
            && o !in s.activated
            && (s.section.Some? && s.section.value.task == Activate(o) ==>
                 && Next(s, MarkRunning).None? && Next(s, IndexRunning).None?
                 && Next(s, PutClaim).None? && Next(s, Grant).None?)
  {
    hide Next, Conflict, Clashes, Exec, FullyBacked;
    RunKeepsInv(boot, run);
    var s := Exec(Start(boot), run).value;
    RestartClaimClashes(s, restart, p, o, action, plan);
    RestartClaimExcludes(s, restart, p, o, action, plan);
    if s.section.Some? && s.section.value.task == Activate(o) {
      ClashStopsActivation(s, s.section.value, o, p);
    }
  }

  /** No activation gets past the scan beside a claim that clashes with it. */
  lemma ClashStopsActivation(s: State, sec: Section, o: OpId, p: ClaimPath)
    requires Inv(s) && s.section == Some(sec) && sec.task == Activate(o) && o in s.specs
    requires p in s.disk.claims && Clashes(s.disk.claims[p], o, s.specs[o].locks)
    ensures Next(s, MarkRunning).None? && Next(s, IndexRunning).None?
    ensures Next(s, PutClaim).None? && Next(s, Grant).None?
  {
    hide Conflict, Clashes, FilesAgree, ClaimsCompatible, History, FullyBacked;
    assert !Clear(s, o, {});
    assert !sec.stage.ToRun? && !sec.stage.ToIndex? && !sec.stage.ToClaim?;
  }
}

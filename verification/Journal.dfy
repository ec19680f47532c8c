/** The journal operations themselves, in the form the executor runs them: loops over directory listings that
    write and remove files. Every file operation is one event of the admission machine, so a call that nobody
    disturbs extends a run of that machine. */
module Journal {
  import opened Text
  import opened Locks
  import opened Admission
  import opened AdmissionSafety
  import opened AdmissionGrants

  /** The claims whose owners a process judges active. */
  function LiveClaims(claims: map<ClaimPath, Claim>, live: set<int>, seen: string): map<ClaimPath, Claim> {
    map p | p in claims && OwnerActive(claims[p].owner, live, seen) :: claims[p]
  }

  /** `after` lost some of the dead owners' claims of `before` and nothing else. */
  predicate OnlyDeadLost(before: map<ClaimPath, Claim>, after: map<ClaimPath, Claim>, live: set<int>, seen: string) {
    && (forall p :: p in after ==> p in before && after[p] == before[p])
    && (forall p :: p in before && OwnerActive(before[p].owner, live, seen) ==> p in after)
  }

  /** The indexed operations whose owners a scan judges dead, its own pid excepted. */
  function StaleOps(index: map<OpId, Index>, ownPid: int, live: set<int>, seen: string): set<OpId> {
    set op | op in index && IsGivenUp(index[op], ownPid, live, seen)
  }

  predicate IsGivenUp(idx: Index, ownPid: int, live: set<int>, seen: string) {
    !(idx.owner.pid == ownPid && SameBoot(idx.owner.boot, seen)) && ActiveStatus(idx.status)
    && !OwnerActive(idx.owner, live, seen)
  }

  /** A lookup of `request` under `key` can settle on the operation: its record can be read and it is not given up. */
  predicate Listed(d: Disk, op: OpId, key: nat, request: string, pid: int, live: set<int>, seen: string) {
    && op in d.index && d.index[op].request == request && Readable(d, op, key)
    && !IsGivenUp(d.index[op], pid, live, seen)
  }

  /** The files once the operations of `stale` are given up: no index and no claim of them is left, and their records
      are abandoned, or gone where another key sealed them. */
  function GivenUp(d: Disk, stale: set<OpId>, key: nat): Disk {
    Disk(
      map o | o in d.records && (o !in stale || d.records[o].spec.key == key) ::
        if o in stale then Record(d.records[o].spec, Abandoned) else d.records[o],
      d.index - stale,
      map p | p in d.claims && p.op !in stale :: d.claims[p])
  }

  lemma GivenUpNobody(d: Disk, key: nat)
    ensures GivenUp(d, {}, key) == d
  {
  }

  lemma GivenUpOneMore(d: Disk, stale: set<OpId>, op: OpId, key: nat)
    requires op !in stale
    ensures GivenUp(GivenUp(d, stale, key), {op}, key) == GivenUp(d, stale + {op}, key)
  {
  }

  lemma GivenUpIndex(d: Disk, stale: set<OpId>, key: nat)
    ensures GivenUp(d, stale, key).index == d.index - stale
  {
  }

  /** What is not given up stays. */
  lemma GivenUpOutside(d: Disk, stale: set<OpId>, key: nat, o: OpId)
    requires o !in stale
    ensures Same(d, GivenUp(d, stale, key), o)
  {
  }

  /** The index and the record of the operation are the same. */
  predicate Same(d: Disk, after: Disk, o: OpId) {
    && (o in after.index <==> o in d.index) && (o in d.index ==> after.index[o] == d.index[o])
    && (o in after.records <==> o in d.records) && (o in d.records ==> after.records[o] == d.records[o])
  }

  /** A scan for stale operations leaves a listed one as it is. */
  lemma ListedStays(d: Disk, key: nat, request: string, pid: int, live: set<int>, seen: string, o: OpId)
    requires Listed(d, o, key, request, pid, live, seen)
    ensures var after := GivenUp(d, StaleOps(d.index, pid, live, seen), key);
            o in after.index && after.index[o].request == request && Readable(after, o, key)
  {
  }

  lemma GivenUpOne(d: Disk, op: OpId, key: nat)
    ensures GivenUp(d, {op}, key) == Disk(
              if op in d.records && d.records[op].spec.key == key
              then d.records[op := Record(d.records[op].spec, Abandoned)] else d.records - {op},
              d.index - {op},
              map p | p in d.claims && p.op != op :: d.claims[p])
  {
  }

  /** Claims that name an operation, and claims at the paths of its locks, are the claims of the operation. */
  lemma ClaimsOfOperation(s: State, op: OpId)
    requires FilesAgree(s) && op in s.specs
    ensures s.disk.claims - ClaimsNaming(s.disk, op) == map p | p in s.disk.claims && p.op != op :: s.disk.claims[p]
    ensures s.disk.claims - PathsOf(op, s.specs[op].locks)
         == map p | p in s.disk.claims && p.op != op :: s.disk.claims[p]
  {
    hide Conflict, Normalized, Tag;
    forall p | p in s.disk.claims ensures ClaimAgrees(s, p, s.disk.claims[p]) {}
  }

  lemma InvGivesFiles(s: State)
    requires Inv(s)
    ensures FilesAgree(s)
  {
  }

  /** Giving up an operation of a dead owner costs no live claim. */
  lemma LostToTheDead(before: Disk, op: OpId, key: nat, owner: Owner, live: set<int>, seen: string)
    requires forall p :: p in before.claims && p.op == op ==> before.claims[p].owner == owner
    requires !OwnerActive(owner, live, seen)
    ensures OnlyDeadLost(before.claims, GivenUp(before, {op}, key).claims, live, seen)
  {
  }

  /** What only the dead lost has the same live claims. */
  lemma SameLive(before: map<ClaimPath, Claim>, after: map<ClaimPath, Claim>, live: set<int>, seen: string)
    requires OnlyDeadLost(before, after, live, seen)
    ensures LiveClaims(after, live, seen) == LiveClaims(before, live, seen)
  {
  }

  function ClaimsOf(op: OpId, spec: Spec, upTo: nat): map<ClaimPath, Claim>
    requires upTo <= |spec.locks|
  {
    if upTo == 0 then map[] else
      var l := spec.locks[upTo - 1];
      ClaimsOf(op, spec, upTo - 1)[PathOf(op, l) := Claim(op, spec.owner, l)]
  }

  /** Two states of one undisturbed section. */
  predicate SameWorld(s: State, t: State) {
    && s.boot == t.boot && s.live == t.live && s.specs == t.specs && s.intact == t.intact
    && s.open == t.open && s.granted == t.granted && s.activated == t.activated
  }

  /** The section has come to `stage` since `s0`, in which `sec` held the admission lock. */
  predicate Reached(s0: State, s: State, sec: Section, stage: Stage) {
    SameWorld(s0, s) && s.section == Some(sec.(stage := stage))
  }

  // What the events of one section do, one lemma per event.

  lemma StepEnter(s: State, pid: int, key: nat, task: Task)
    requires s.section.None? && pid in s.live && MayStart(s, key, task) && !task.Find?
    ensures Next(s, Enter(pid, key, task)).Some?
    ensures var t := Next(s, Enter(pid, key, task)).value;
            var stage := if task.Activate? then Stale(s.disk.index.Keys) else ToFinish;
            && t.disk == s.disk && t.section == Some(Section(pid, key, task, stage))
            && t.live == s.live && t.specs == s.specs && t.boot == s.boot && t.intact == s.intact
            && (task.Activate? ==> SameWorld(s, t))
            && (task.Finalize? ==> task.op !in t.granted + t.activated + t.open)
  {
  }

  lemma StepKeepIndex(s0: State, s: State, sec: Section, todo: set<OpId>, op: OpId, seen: string)
    requires Reached(s0, s, sec, Stale(todo))
    requires op in todo && BootReading(s, seen)
    requires op in s.disk.index ==> !IsStale(s, s.section.value, op, seen)
    ensures Next(s, KeepIndex(op, seen)).Some?
    ensures var t := Next(s, KeepIndex(op, seen)).value; t.disk == s.disk && Reached(s0, t, sec, Stale(todo - {op}))
  {
  }

  lemma StepAbandon(s0: State, s: State, sec: Section, todo: set<OpId>, op: OpId, seen: string)
    requires Reached(s0, s, sec, Stale(todo)) && op in todo && BootReading(s, seen)
    requires op in s.disk.index && IsStale(s, s.section.value, op, seen) && Readable(s.disk, op, sec.key)
    ensures Next(s, DropStale(op, seen)).Some?
    ensures var t := Next(s, DropStale(op, seen)).value;
            var spec := s.disk.records[op].spec;
            && t.disk == PutRecord(s.disk, op, spec, Abandoned)
            && Reached(s0, t, sec, Erase(todo - {op}, op, PathsOf(op, spec.locks), false))
  {
  }

  lemma StepPurge(s0: State, s: State, sec: Section, todo: set<OpId>, op: OpId, seen: string)
    requires Reached(s0, s, sec, Stale(todo)) && op in todo && BootReading(s, seen)
    requires op in s.disk.index && IsStale(s, s.section.value, op, seen) && !Readable(s.disk, op, sec.key)
    ensures Next(s, DropStale(op, seen)).Some?
    ensures var t := Next(s, DropStale(op, seen)).value;
            t.disk == s.disk && Reached(s0, t, sec, Erase(todo - {op}, op, ClaimsNaming(s.disk, op), true))
  {
  }

  lemma StepEraseClaim(
      s0: State, s: State, sec: Section, todo: set<OpId>, op: OpId, left: set<ClaimPath>, purge: bool, p: ClaimPath)
    requires Reached(s0, s, sec, Erase(todo, op, left, purge))
    requires p in left
    ensures Next(s, EraseClaim(p)).Some?
    ensures var t := Next(s, EraseClaim(p)).value;
            && t.disk == WithoutClaim(s.disk, p)
            && Reached(s0, t, sec, Erase(todo, op, left - {p}, purge))
  {
  }

  lemma StepEraseIndex(s0: State, s: State, sec: Section, todo: set<OpId>, op: OpId, purge: bool)
    requires Reached(s0, s, sec, Erase(todo, op, {}, purge))
    ensures Next(s, EraseIndex).Some?
    ensures var t := Next(s, EraseIndex).value;
            && t.disk == WithoutIndex(s.disk, op)
            && Reached(s0, t, sec, (if purge then EraseRec(todo, op) else Stale(todo)))
  {
  }

  lemma StepEraseRecord(s0: State, s: State, sec: Section, todo: set<OpId>, op: OpId)
    requires Reached(s0, s, sec, EraseRec(todo, op))
    ensures Next(s, EraseRecord).Some?
    ensures var t := Next(s, EraseRecord).value;
            && t.disk == s.disk.(records := s.disk.records - {op})
            && Reached(s0, t, sec, Stale(todo))
  {
  }

  lemma StepEndStale(s0: State, s: State, sec: Section)
    requires Reached(s0, s, sec, Stale({}))
    requires sec.task.Activate?
    ensures Next(s, EndStale).Some?
    ensures var t := Next(s, EndStale).value; t.disk == s.disk && Reached(s0, t, sec, Scan(s.disk.claims.Keys, false))
  {
  }

  lemma StepSeeClaim(
      s0: State, s: State, sec: Section, op: OpId, unseen: set<ClaimPath>, clash: bool, p: ClaimPath, seen: string)
    requires Reached(s0, s, sec, Scan(unseen, clash))
    requires sec.task == Activate(op) && op in s.specs
    requires p in unseen && BootReading(s, seen) && p in s.disk.claims
    requires OwnerActive(s.disk.claims[p].owner, s.live, seen)
    ensures Next(s, SeeClaim(p, seen)).Some?
    ensures var t := Next(s, SeeClaim(p, seen)).value;
            && t.disk == s.disk
            && Reached(s0, t, sec, Scan(unseen - {p}, clash || Clashes(s.disk.claims[p], op, s.specs[op].locks)))
  {
  }

  lemma StepSweepClaim(
      s0: State, s: State, sec: Section, unseen: set<ClaimPath>, clash: bool, p: ClaimPath, seen: string)
    requires Reached(s0, s, sec, Scan(unseen, clash))
    requires p in unseen && BootReading(s, seen) && p in s.disk.claims
    requires !OwnerActive(s.disk.claims[p].owner, s.live, seen)
    ensures Next(s, SweepClaim(p, seen)).Some?
    ensures var t := Next(s, SweepClaim(p, seen)).value;
            && t.disk == WithoutClaim(s.disk, p)
            && Reached(s0, t, sec, Scan(unseen - {p}, clash))
  {
  }

  lemma StepEndScan(s0: State, s: State, sec: Section, clash: bool)
    requires Reached(s0, s, sec, Scan({}, clash))
    ensures Next(s, EndScan).Some?
    ensures var t := Next(s, EndScan).value;
            && t.disk == s.disk
            && (if clash then SameWorld(s0, t) && t.section.None? else Reached(s0, t, sec, ToRun))
  {
  }

  lemma StepMarkRunning(s0: State, s: State, sec: Section, op: OpId)
    requires Reached(s0, s, sec, ToRun)
    requires sec.task == Activate(op) && op in s.specs
    ensures Next(s, MarkRunning).Some?
    ensures var t := Next(s, MarkRunning).value;
            && t.disk == PutRecord(s.disk, op, s.specs[op], Running)
            && Reached(s0, t, sec, ToIndex)
  {
  }

  lemma StepIndexRunning(s0: State, s: State, sec: Section, op: OpId)
    requires Reached(s0, s, sec, ToIndex)
    requires sec.task == Activate(op) && op in s.specs
    ensures Next(s, IndexRunning).Some?
    ensures var t := Next(s, IndexRunning).value;
            && t.disk == PutIndex(s.disk, op, s.specs[op], Running)
            && Reached(s0, t, sec, ToClaim(0))
  {
  }

  lemma StepPutClaim(s0: State, s: State, sec: Section, op: OpId, i: nat)
    requires Reached(s0, s, sec, ToClaim(i))
    requires sec.task == Activate(op) && op in s.specs && i < |s.specs[op].locks|
    ensures Next(s, PutClaim).Some?
    ensures var t := Next(s, PutClaim).value;
            && t.disk == WithClaim(s.disk, op, s.specs[op].owner, s.specs[op].locks[i])
            && Reached(s0, t, sec, ToClaim(i + 1))
  {
  }

  lemma StepGrant(s0: State, s: State, sec: Section, op: OpId)
    requires sec.task == Activate(op) && op in s.specs && Reached(s0, s, sec, ToClaim(|s.specs[op].locks|))
    ensures Next(s, Grant).Some?
    ensures var t := Next(s, Grant).value;
            && t.disk == s.disk && t.section.None? && t.live == s0.live && t.specs == s0.specs
            && t.activated == s0.activated + {op} * s0.intact
  {
  }

  lemma StepMarkFinal(s0: State, s: State, sec: Section)
    requires Reached(s0, s, sec, ToFinish)
    requires sec.task.Finalize? && sec.task.op in s.specs
    ensures Next(s, MarkFinal).Some?
    ensures var t := Next(s, MarkFinal).value;
            && t.disk == PutRecord(s.disk, sec.task.op, s.specs[sec.task.op], sec.task.status)
            && Reached(s0, t, sec, ToDrop(0))
  {
  }

  lemma StepDropClaim(s0: State, s: State, sec: Section, i: nat)
    requires Reached(s0, s, sec, ToDrop(i))
    requires sec.task.Finalize? && sec.task.op in s.specs && i < |s.specs[sec.task.op].locks|
    ensures Next(s, DropClaim).Some?
    ensures var t := Next(s, DropClaim).value;
            && t.disk == WithoutClaim(s.disk, PathOf(sec.task.op, s.specs[sec.task.op].locks[i]))
            && Reached(s0, t, sec, ToDrop(i + 1))
  {
  }

  lemma StepDropIndex(s0: State, s: State, sec: Section)
    requires sec.task.Finalize? && sec.task.op in s.specs
    requires Reached(s0, s, sec, ToDrop(|s.specs[sec.task.op].locks|))
    ensures Next(s, DropIndex).Some?
    ensures var t := Next(s, DropIndex).value;
            t.disk == WithoutIndex(s.disk, sec.task.op) && t.section.None? && SameWorld(s0, t)
  {
  }

  lemma StepEnterFind(s: State, pid: int, key: nat, request: string, locks: seq<Lock>)
    requires s.section.None? && pid in s.live && Normalized(locks)
    ensures Next(s, Enter(pid, key, Find(request, locks))).Some?
    ensures var t := Next(s, Enter(pid, key, Find(request, locks))).value;
            && t.disk == s.disk && SameWorld(s, t)
            && t.section == Some(Section(pid, key, Find(request, locks), Stale(s.disk.index.Keys)))
  {
  }

  lemma StepEndStaleFind(s0: State, s: State, sec: Section)
    requires Reached(s0, s, sec, Stale({})) && sec.task.Find?
    ensures Next(s, EndStale).Some?
    ensures var t := Next(s, EndStale).value;
            && t.disk == s.disk
            && Reached(s0, t, sec, Lookup(if Trim(sec.task.request) == "" then {} else s.disk.index.Keys))
  {
  }

  lemma StepSkipIndex(s0: State, s: State, sec: Section, todo: set<OpId>, op: OpId)
    requires Reached(s0, s, sec, Lookup(todo)) && sec.task.Find? && op in todo
    requires op in s.disk.index ==> s.disk.index[op].request != sec.task.request
    ensures Next(s, SkipIndex(op)).Some?
    ensures var t := Next(s, SkipIndex(op)).value; t.disk == s.disk && Reached(s0, t, sec, Lookup(todo - {op}))
  {
  }

  lemma StepDiscardIndex(s0: State, s: State, sec: Section, todo: set<OpId>, op: OpId)
    requires Reached(s0, s, sec, Lookup(todo)) && sec.task.Find? && op in todo
    requires op in s.disk.index && s.disk.index[op].request == sec.task.request && !Readable(s.disk, op, sec.key)
    ensures Next(s, DiscardIndex(op)).Some?
    ensures var t := Next(s, DiscardIndex(op)).value;
            t.disk == WithoutIndex(s.disk, op) && Reached(s0, t, sec, Lookup(todo - {op}))
  {
  }

  lemma StepFound(s0: State, s: State, sec: Section, todo: set<OpId>, op: OpId)
    requires Reached(s0, s, sec, Lookup(todo)) && sec.task.Find? && op in todo
    requires op in s.disk.index && s.disk.index[op].request == sec.task.request && Readable(s.disk, op, sec.key)
    ensures Next(s, Found(op)).Some?
    ensures var t := Next(s, Found(op)).value;
            && t.disk == s.disk && t.section.None? && t.live == s0.live && t.specs == s0.specs && t.boot == s0.boot
  {
  }

  lemma StepNewRecord(s0: State, s: State, sec: Section, op: OpId, seen: string)
    requires Reached(s0, s, sec, Lookup({})) && sec.task.Find? && op !in s.specs && BootReading(s, seen)
    ensures Next(s, NewRecord(op, seen)).Some?
    ensures var t := Next(s, NewRecord(op, seen)).value;
            var spec := Spec(Owner(sec.pid, seen), sec.task.request, sec.key, sec.task.locks);
            && t.disk == PutRecord(s.disk, op, spec, Queued) && t.section == Some(sec.(stage := Indexing(op)))
            && t.specs == s0.specs[op := spec] && t.live == s0.live && t.boot == s0.boot
  {
  }

  lemma StepNewIndex(s: State, sec: Section, op: OpId)
    requires s.section == Some(sec) && sec.stage == Indexing(op) && op in s.specs
    ensures Next(s, NewIndex).Some?
    ensures var t := Next(s, NewIndex).value;
            && t.disk == PutIndex(s.disk, op, s.specs[op], Queued) && t.section.None? && t.specs == s.specs
            && t.live == s.live && t.boot == s.boot
  {
  }

  /** What stops an activation, in terms of the locks: a live claim of another operation that may not be shared. */
  lemma ClashesAreUnsharable(s: State, op: OpId, live: set<int>, seen: string)
    requires Inv(s) && op in s.specs
    ensures var claims, locks := s.disk.claims, s.specs[op].locks;
            Obstructed(claims, op, locks, live, seen) <==> !NoneExcludes(claims, op, locks, live, seen)
  {
    hide Clashes, SharableWith, ClaimsCompatible, History, SectionOk;
    forall p | p in s.disk.claims
      ensures Clashes(s.disk.claims[p], op, s.specs[op].locks) <==>
              p.op != op && !SharableWith(s.disk.claims[p].lock, s.specs[op].locks)
    {
      ClashExactly(s, p, op, s.specs[op].locks);
    }
  }

  /** The conflict scan finds a claim of a live owner in the way. */
  predicate Obstructed(claims: map<ClaimPath, Claim>, op: OpId, locks: seq<Lock>, live: set<int>, seen: string) {
    exists p :: p in claims && OwnerActive(claims[p].owner, live, seen) && Clashes(claims[p], op, locks)
  }

  lemma ScanIsExact(
      before: map<ClaimPath, Claim>, after: map<ClaimPath, Claim>, op: OpId, locks: seq<Lock>, live: set<int>,
      seen: string)
    requires after == LiveClaims(before, live, seen)
    ensures Obstructed(before, op, locks, live, seen) <==> exists p :: p in after && Clashes(after[p], op, locks)
  {
    hide Clashes, OwnerActive;
    assert forall p :: p in before && OwnerActive(before[p].owner, live, seen) <==> p in after;
  }

  /** Every claim of a live owner that is not of the operation itself may be shared with all of its locks. */
  predicate NoneExcludes(
      claims: map<ClaimPath, Claim>, op: OpId, locks: seq<Lock>, live: set<int>, seen: string)
  {
    forall p :: p in claims && p.op != op && OwnerActive(claims[p].owner, live, seen) ==>
      SharableWith(claims[p].lock, locks)
  }

  /** A running operation whose owner never died keeps its whole claim set while only the dead lose claims. */
  lemma StaysBacked(s: State, t: State, op: OpId, live: set<int>, seen: string)
    requires GrantInv(Tidy, s) && s.section.None? && SaysRunning(s, op) && op in s.intact
    requires op in t.specs && op in s.specs && t.specs[op] == s.specs[op]
    requires live == s.live && BootReading(s, seen) && OnlyDeadLost(s.disk.claims, t.disk.claims, live, seen)
    ensures FullyBacked(t, op)
  {
    hide Conflict, Normalized, ClaimsCompatible;
    assert Good(Tidy, s, op);
    forall i | 0 <= i < |s.specs[op].locks| ensures PathOf(op, s.specs[op].locks[i]) in t.disk.claims {
      var p := PathOf(op, s.specs[op].locks[i]);
      assert ClaimAgrees(s, p, s.disk.claims[p]);
    }
  }

  class OperationJournal {
    var records: map<OpId, Record>
    var index: map<OpId, Index>
    var claims: map<ClaimPath, Claim>

    ghost var boot0: string
    ghost var run: seq<Event>
    ghost var state: State

    /** The three directories. */
    ghost function Files(): Disk
      reads this
    {
      Disk(records, index, claims)
    }

    ghost predicate Valid()
      reads this
    {
      Exec(Start(boot0), run) == Some(state) && state.disk == Disk(records, index, claims)
    }

    constructor (ghost boot: string)
      ensures Valid() && state == Start(boot)
    {
      records, index, claims := map[], map[], map[];
      boot0, run, state := boot, [], Start(boot);
    }

    lemma Reachable()
      requires Valid()
      ensures Inv(state)
    {
      RunKeepsInv(boot0, run);
    }

    lemma FilesDoAgree()
      requires Valid()
      ensures forall p :: p in claims ==> ClaimAgrees(state, p, claims[p])
      ensures forall o :: o in index ==> o in state.specs && IndexAgrees(index[o], state.specs[o])
      ensures forall o :: o in records ==> o in state.specs && records[o].spec == state.specs[o]
    {
      Reachable();
    }

    /** One event of the machine that changes no file. */
    ghost method Note(e: Event)
      requires Valid() && Next(state, e).Some? && Next(state, e).value.disk == state.disk
      modifies this`run, this`state
      ensures Valid() && boot0 == old(boot0) && state == Next(old(state), e).value && run == old(run) + [e]
    {
      Extend(e);
      state := Next(state, e).value;
      run := run + [e];
    }

    lemma Extend(e: Event)
      requires Valid()
      ensures Exec(Start(boot0), run + [e]) == Next(state, e)
    {
      assert (run + [e])[..|run|] == run;
    }

    method WriteRecord(op: OpId, spec: Spec, status: Status, ghost e: Event)
      requires Valid() && Next(state, e).Some? && Next(state, e).value.disk == PutRecord(state.disk, op, spec, status)
      modifies this
      ensures Valid() && boot0 == old(boot0) && state == Next(old(state), e).value && run == old(run) + [e]
      ensures records == old(records)[op := Record(spec, status)] && index == old(index) && claims == old(claims)
    {
      records := records[op := Record(spec, status)];
      Advance(e);
    }

    method WriteIndex(op: OpId, spec: Spec, status: Status, ghost e: Event)
      requires Valid() && Next(state, e).Some? && Next(state, e).value.disk == PutIndex(state.disk, op, spec, status)
      modifies this
      ensures Valid() && boot0 == old(boot0) && state == Next(old(state), e).value && run == old(run) + [e]
      ensures records == old(records) && claims == old(claims)
      ensures index == old(index)[op := Index(spec.owner, spec.request, status)]
    {
      index := index[op := Index(spec.owner, spec.request, status)];
      Advance(e);
    }

    method WriteClaim(op: OpId, owner: Owner, l: Lock, ghost e: Event)
      requires Valid() && Next(state, e).Some? && Next(state, e).value.disk == WithClaim(state.disk, op, owner, l)
      modifies this
      ensures Valid() && boot0 == old(boot0) && state == Next(old(state), e).value && run == old(run) + [e]
      ensures records == old(records) && index == old(index)
      ensures claims == old(claims)[PathOf(op, l) := Claim(op, owner, l)]
    {
      claims := claims[PathOf(op, l) := Claim(op, owner, l)];
      Advance(e);
    }

    method RemoveClaim(p: ClaimPath, ghost e: Event)
      requires Valid() && Next(state, e).Some? && Next(state, e).value.disk == WithoutClaim(state.disk, p)
      modifies this
      ensures Valid() && boot0 == old(boot0) && state == Next(old(state), e).value && run == old(run) + [e]
      ensures records == old(records) && index == old(index) && claims == old(claims) - {p}
    {
      claims := claims - {p};
      Advance(e);
    }

    method RemoveIndex(op: OpId, ghost e: Event)
      requires Valid() && Next(state, e).Some? && Next(state, e).value.disk == WithoutIndex(state.disk, op)
      modifies this
      ensures Valid() && boot0 == old(boot0) && state == Next(old(state), e).value && run == old(run) + [e]
      ensures records == old(records) && index == old(index) - {op} && claims == old(claims)
    {
      index := index - {op};
      Advance(e);
    }

    method RemoveRecord(op: OpId, ghost e: Event)
      requires Valid() && Next(state, e).Some?
      requires Next(state, e).value.disk == state.disk.(records := state.disk.records - {op})
      modifies this
      ensures Valid() && boot0 == old(boot0) && state == Next(old(state), e).value && run == old(run) + [e]
      ensures records == old(records) - {op} && index == old(index) && claims == old(claims)
    {
      records := records - {op};
      Advance(e);
    }

    ghost method Advance(e: Event)
      requires Exec(Start(boot0), run) == Some(state) && Next(state, e).Some?
      requires Next(state, e).value.disk == Disk(records, index, claims)
      modifies this`run, this`state
      ensures Valid() && state == Next(old(state), e).value && run == old(run) + [e]
    {
      assert (run + [e])[..|run|] == run;
      state := Next(state, e).value;
      run := run + [e];
    }

    /** removal of the claims of one stale operation */
    method EraseClaims(
        paths: set<ClaimPath>, ghost s0: State, ghost sec: Section, ghost todo: set<OpId>, ghost op: OpId,
        ghost purge: bool)
      requires Valid() && Reached(s0, state, sec, Erase(todo, op, paths, purge))
      modifies this
      ensures Valid() && boot0 == old(boot0) && old(run) <= run && Reached(s0, state, sec, Erase(todo, op, {}, purge))
      ensures records == old(records) && index == old(index) && claims == old(claims) - paths
    {
      hide Next, Exec, Inv, Conflict, Clashes;
      var left := paths;
      while left != {}
        invariant Valid() && boot0 == old(boot0) && old(run) <= run
        invariant Reached(s0, state, sec, Erase(todo, op, left, purge))
        invariant left <= paths && records == old(records) && index == old(index)
        invariant claims == old(claims) - (paths - left)
      {
        var p :| p in left;
        StepEraseClaim(s0, state, sec, todo, op, left, purge, p);
        RemoveClaim(p, EraseClaim(p));
        left := left - {p};
      }
    }

    /** abandonStaleHostEntriesLocked: give up the operations of dead owners. */
    method AbandonStale(ownPid: int, key: nat, live: set<int>, seen: string, ghost s0: State, ghost sec: Section)
      requires Valid() && Reached(s0, state, sec, Stale(index.Keys)) && s0 == state
      requires live == state.live && BootReading(state, seen) && ownPid == OwnPid(state, sec) && key == sec.key
      modifies this
      ensures Valid() && boot0 == old(boot0) && old(run) <= run && Reached(s0, state, sec, Stale({}))
      ensures Files() == GivenUp(old(Files()), StaleOps(old(index), ownPid, live, seen), key)
      ensures OnlyDeadLost(old(claims), claims, live, seen)
      ensures forall o :: o in index && index[o].status in {Queued, Running, Recovering} ==>
                index[o].owner.pid == ownPid || OwnerActive(index[o].owner, live, seen)
    {
      hide Next, Exec, Inv, Conflict, Clashes, GivenUp;
      var todo := index.Keys;
      ghost var stale := StaleOps(index, ownPid, live, seen);
      ghost var done: set<OpId> := {};
      GivenUpNobody(Files(), key);
      while todo != {}
        invariant Valid() && boot0 == old(boot0) && old(run) <= run && Reached(s0, state, sec, Stale(todo))
        invariant OnlyDeadLost(old(claims), claims, live, seen)
        invariant done == stale - todo && Files() == GivenUp(old(Files()), done, key)
        invariant todo <= index.Keys && index == old(index) - done
      {
        var op :| op in todo;
        if IsGivenUp(index[op], ownPid, live, seen) {
          GivenUpOneMore(old(Files()), done, op, key);
          GivenUpIndex(Files(), {op}, key);
          done := done + {op};
          GiveUp(op, key, live, seen, s0, sec, todo);
        } else {
          StepKeepIndex(s0, state, sec, todo, op, seen);
          Note(KeepIndex(op, seen));
        }
        todo := todo - {op};
      }
      assert done == stale;
    }

    method GiveUp(
        op: OpId, key: nat, live: set<int>, seen: string, ghost s0: State, ghost sec: Section,
        ghost todo: set<OpId>)
      requires Valid() && Reached(s0, state, sec, Stale(todo)) && op in todo
      requires live == state.live && BootReading(state, seen) && key == sec.key
      requires op in index && IsStale(state, state.section.value, op, seen)
      modifies this
      ensures Valid() && boot0 == old(boot0) && old(run) <= run && Reached(s0, state, sec, Stale(todo - {op}))
      ensures Files() == GivenUp(old(Files()), {op}, key)
      ensures OnlyDeadLost(old(claims), claims, live, seen)
    {
      hide Next, Exec, Inv, GivenUp;
      OwnersAgree(op);
      if op in records && records[op].spec.key == key {
        Abandon(op, key, seen, s0, sec, todo);
      } else {
        Purge(op, key, seen, s0, sec, todo);
      }
      LostToTheDead(old(Files()), op, key, old(index)[op].owner, live, seen);
    }

    /** The claims of an indexed operation, found by name or by the paths of its locks. */
    lemma ClaimsAre(op: OpId)
      requires Valid() && op in index
      ensures op in records ==> op in state.specs && records[op].spec == state.specs[op]
      ensures claims - ClaimsNaming(state.disk, op) == map p | p in claims && p.op != op :: claims[p]
      ensures op in records ==>
                claims - PathsOf(op, records[op].spec.locks) == map p | p in claims && p.op != op :: claims[p]
    {
      hide Exec, Next, FilesAgree;
      FilesDoAgree();
      Reachable();
      InvGivesFiles(state);
      ClaimsOfOperation(state, op);
    }

    /** A claim has the owner of the index of its operation. */
    lemma OwnersAgree(op: OpId)
      requires Valid() && op in index
      ensures forall p :: p in claims && p.op == op ==> claims[p].owner == index[op].owner
    {
      FilesDoAgree();
    }

    /** A stale operation whose record can be read is recorded as abandoned. */
    method Abandon(op: OpId, key: nat, seen: string, ghost s0: State, ghost sec: Section, ghost todo: set<OpId>)
      requires Valid() && Reached(s0, state, sec, Stale(todo)) && op in todo
      requires BootReading(state, seen) && key == sec.key
      requires op in index && IsStale(state, state.section.value, op, seen)
      requires op in records && records[op].spec.key == key
      modifies this
      ensures Valid() && boot0 == old(boot0) && old(run) <= run && Reached(s0, state, sec, Stale(todo - {op}))
      ensures Files() == GivenUp(old(Files()), {op}, key)
    {
      hide Next, Exec, Inv, IsStale, FilesAgree, GivenUp;
      GivenUpOne(Files(), op, key);
      StepAbandon(s0, state, sec, todo, op, seen);
      ClaimsAre(op);
      var spec := records[op].spec;
      WriteRecord(op, spec, Abandoned, DropStale(op, seen));
      EraseClaims(PathsOf(op, spec.locks), s0, sec, todo - {op}, op, false);
      StepEraseIndex(s0, state, sec, todo - {op}, op, false);
      RemoveIndex(op, EraseIndex);
    }

    /** One whose record another key sealed is removed with all files that name it. */
    method Purge(op: OpId, key: nat, seen: string, ghost s0: State, ghost sec: Section, ghost todo: set<OpId>)
      requires Valid() && Reached(s0, state, sec, Stale(todo)) && op in todo
      requires BootReading(state, seen) && key == sec.key
      requires op in index && IsStale(state, state.section.value, op, seen)
      requires !(op in records && records[op].spec.key == key)
      modifies this
      ensures Valid() && boot0 == old(boot0) && old(run) <= run && Reached(s0, state, sec, Stale(todo - {op}))
      ensures Files() == GivenUp(old(Files()), {op}, key)
    {
      hide Next, Exec, Inv, IsStale, FilesAgree, GivenUp;
      GivenUpOne(Files(), op, key);
      StepPurge(s0, state, sec, todo, op, seen);
      ClaimsAre(op);
      var paths := set p | p in claims && claims[p].op == op;
      assert paths == ClaimsNaming(state.disk, op);
      hide ClaimsNaming;
      Note(DropStale(op, seen));
      EraseClaims(paths, s0, sec, todo - {op}, op, true);
      StepEraseIndex(s0, state, sec, todo - {op}, op, true);
      RemoveIndex(op, EraseIndex);
      StepEraseRecord(s0, state, sec, todo - {op}, op);
      RemoveRecord(op, EraseRecord);
    }

    /** readLockClaims and conflictsLocked: drop what the dead left, then look for a conflict. */
    method ConflictsLocked(
        op: OpId, locks: seq<Lock>, live: set<int>, seen: string, ghost s0: State, ghost sec: Section)
      returns (clash: bool)
      requires Valid() && Reached(s0, state, sec, Scan(claims.Keys, false))
      requires live == state.live && BootReading(state, seen)
      requires sec.task == Activate(op) && op in state.specs && state.specs[op].locks == locks
      modifies this
      ensures Valid() && boot0 == old(boot0) && old(run) <= run && Reached(s0, state, sec, Scan({}, clash))
      ensures claims == LiveClaims(old(claims), live, seen) && records == old(records) && index == old(index)
      ensures clash <==> exists p :: p in claims && Clashes(claims[p], op, locks)
    {
      hide Next, Exec, Inv, Conflict, Clashes;
      var unseen := claims.Keys;
      clash := false;
      while unseen != {}
        invariant Valid() && boot0 == old(boot0) && old(run) <= run && Reached(s0, state, sec, Scan(unseen, clash))
        invariant records == old(records) && index == old(index)
        invariant unseen <= claims.Keys
        invariant OnlyDeadLost(old(claims), claims, live, seen)
        invariant forall p :: p in claims && p !in unseen ==> OwnerActive(claims[p].owner, live, seen)
        invariant clash <==> exists p :: p in claims && p !in unseen && Clashes(claims[p], op, locks)
      {
        var p :| p in unseen;
        if OwnerActive(claims[p].owner, live, seen) {
          StepSeeClaim(s0, state, sec, op, unseen, clash, p, seen);
          Note(SeeClaim(p, seen));
          clash := clash || Clashes(claims[p], op, locks);
        } else {
          StepSweepClaim(s0, state, sec, unseen, clash, p, seen);
          RemoveClaim(p, SweepClaim(p, seen));
        }
        unseen := unseen - {p};
      }
    }

    lemma WhatStops(op: OpId, live: set<int>, seen: string)
      requires Valid() && op in state.specs
      ensures var locks := state.specs[op].locks;
              Obstructed(claims, op, locks, live, seen) <==> !NoneExcludes(claims, op, locks, live, seen)
    {
      Reachable();
      ClashesAreUnsharable(state, op, live, seen);
    }

    /** tryActivate, undisturbed: granted exactly if no claim of a live owner stands in the way, and then with the
        whole lock set on disk; either way every dead owner's claim is gone. */
    method TryActivate(pid: int, key: nat, op: OpId, spec: Spec, live: set<int>, seen: string) returns (granted: bool)
      requires Valid() && state.section.None? && pid in live && live == state.live && BootReading(state, seen)
      requires op in state.specs && state.specs[op] == spec && spec.key == key
      modifies this
      ensures Valid() && boot0 == old(boot0) && old(run) <= run
      ensures state.section.None? && state.live == live && state.specs == old(state).specs
      ensures granted <==> !Obstructed(old(claims), op, spec.locks, live, seen)
      ensures granted <==> NoneExcludes(old(claims), op, spec.locks, live, seen)
      ensures claims == LiveClaims(old(claims), live, seen)
                        + (if granted then ClaimsOf(op, spec, |spec.locks|) else map[])
      ensures var d := GivenUp(old(Files()), StaleOps(old(index), spec.owner.pid, live, seen), key);
              && records == (if granted then d.records[op := Record(spec, Running)] else d.records)
              && index == (if granted then d.index[op := Index(spec.owner, spec.request, Running)] else d.index)
      ensures granted ==> op in records && records[op].status.Running? && op in index && FullyBacked(state, op)
      ensures state.activated == old(state).activated + (if granted then {op} * old(state).intact else {})
    {
      hide Next, Exec, Inv, Conflict, Clashes, GivenUp, StaleOps, OnlyDeadLost, Obstructed, NoneExcludes;
      WhatStops(op, live, seen);
      ghost var sec := Section(pid, key, Activate(op), Stale(index.Keys));
      StepEnter(state, pid, key, Activate(op));
      Note(Enter(pid, key, Activate(op)));
      ghost var s1 := state;
      AbandonStale(spec.owner.pid, key, live, seen, s1, sec);
      SameLive(old(claims), claims, live, seen);
      StepEndStale(s1, state, sec);
      Note(EndStale);
      var clash := ConflictsLocked(op, spec.locks, live, seen, s1, sec);
      StepEndScan(s1, state, sec, clash);
      Note(EndScan);
      granted := !clash;
      ScanIsExact(old(claims), claims, op, spec.locks, live, seen);
      if granted {
        WriteLocks(op, spec, s1, sec);
      }
    }

    /** The write half of tryActivate. */
    method WriteLocks(op: OpId, spec: Spec, ghost s0: State, ghost sec: Section)
      requires Valid() && Reached(s0, state, sec, ToRun)
      requires sec.task == Activate(op) && op in state.specs && state.specs[op] == spec
      modifies this
      ensures Valid() && boot0 == old(boot0) && old(run) <= run && state.section.None?
      ensures state.live == s0.live && state.specs == s0.specs
      ensures claims == old(claims) + ClaimsOf(op, spec, |spec.locks|)
      ensures records == old(records)[op := Record(spec, Running)]
      ensures index == old(index)[op := Index(spec.owner, spec.request, Running)]
      ensures op in records && records[op].status.Running? && op in index && FullyBacked(state, op)
      ensures state.activated == s0.activated + {op} * s0.intact
    {
      hide Next, Exec, Conflict, Clashes, ClaimsCompatible, FilesAgree;
      StepMarkRunning(s0, state, sec, op);
      WriteRecord(op, spec, Running, MarkRunning);
      StepIndexRunning(s0, state, sec, op);
      WriteIndex(op, spec, Running, IndexRunning);
      for i := 0 to |spec.locks|
        invariant Valid() && boot0 == old(boot0) && old(run) <= run && Reached(s0, state, sec, ToClaim(i))
        invariant claims == old(claims) + ClaimsOf(op, spec, i)
        invariant records == old(records)[op := Record(spec, Running)]
        invariant index == old(index)[op := Index(spec.owner, spec.request, Running)]
      {
        StepPutClaim(s0, state, sec, op, i);
        WriteClaim(op, spec.owner, spec.locks[i], PutClaim);
      }
      Reachable();
      StepGrant(s0, state, sec, op);
      Note(Grant);
    }

    /** findOperationByRequestIDLocked: an index whose record another key sealed is removed on the way. */
    method FindByRequest(key: nat, request: string, ghost s0: State, ghost sec: Section) returns (op: Option<OpId>)
      requires Valid() && Reached(s0, state, sec, Lookup(index.Keys))
      requires sec.task.Find? && sec.task.request == request && sec.key == key
      modifies this
      ensures Valid() && boot0 == old(boot0) && old(run) <= run && records == old(records) && claims == old(claims)
      ensures op.None? ==>
                && Reached(s0, state, sec, Lookup({})) && (forall o :: o in index ==> index[o].request != request)
                && forall o :: o in old(index) && old(index)[o].request == request ==> !Readable(old(Files()), o, key)
      ensures op.Some? ==>
                && state.section.None? && state.live == s0.live && state.specs == s0.specs && state.boot == s0.boot
                && op.value in index && index[op.value].request == request && Readable(state.disk, op.value, key)
      ensures forall o :: o in index ==> o in old(index) && index[o] == old(index)[o]
    {
      hide Next, Exec, Inv, Conflict, Clashes;
      var todo := index.Keys;
      while todo != {}
        invariant Valid() && boot0 == old(boot0) && old(run) <= run && records == old(records) && claims == old(claims)
        invariant Reached(s0, state, sec, Lookup(todo))
        invariant forall o :: o in index && o !in todo ==> index[o].request != request
        invariant forall o :: o in index ==> o in old(index) && index[o] == old(index)[o]
        invariant forall o :: o in old(index) && o !in index ==> o !in todo && !Readable(old(Files()), o, key)
      {
        var o :| o in todo;
        if o !in index || index[o].request != request {
          StepSkipIndex(s0, state, sec, todo, o);
          Note(SkipIndex(o));
        } else if o in records && records[o].spec.key == key {
          StepFound(s0, state, sec, todo, o);
          Note(Found(o));
          return Some(o);
        } else {
          StepDiscardIndex(s0, state, sec, todo, o);
          RemoveIndex(o, DiscardIndex(o));
        }
        todo := todo - {o};
      }
      op := None;
    }

    /** findOrCreateOperation, undisturbed: the operation of the request, or else a new one, queued under `newId`; a new
        one only if no index of the host carries the request any more. */
    method FindOrCreate(
        pid: int, key: nat, request: string, wanted: seq<Lock>, live: set<int>, seen: string, newId: OpId)
      returns (op: OpId, ghost created: bool)
      requires Valid() && state.section.None? && pid in live && live == state.live && BootReading(state, seen)
      requires newId !in state.specs
      modifies this
      ensures Valid() && boot0 == old(boot0) && old(run) <= run
      ensures state.section.None? && state.live == live && state.boot == old(state).boot
      ensures op in records && op in state.specs && records[op].spec == state.specs[op]
      ensures state.specs[op].key == key && state.specs[op].request == request
      ensures OnlyDeadLost(old(claims), claims, live, seen)
      ensures !created ==> op in old(state).specs && state.specs == old(state).specs && Trim(request) != ""
      ensures !created ==> op in old(index) && old(index)[op].request == request
      ensures !created ==> op in old(records) && records[op] == old(records)[op]
      ensures Trim(request) != "" && (exists o :: Listed(old(Files()), o, key, request, pid, live, seen)) ==> !created
      ensures created ==>
                var spec := Spec(Owner(pid, seen), request, key, Dedup(false, EXCLUSIVE, wanted));
                && op == newId && state.specs == old(state).specs[op := spec] && records[op] == Record(spec, Queued)
                && (Trim(request) != "" ==> forall o :: o in index && o != op ==> index[o].request != request)
    {
      hide Next, Exec, Inv, Conflict, Clashes, Trim, Normalized, Dedup, GivenUp, StaleOps, OnlyDeadLost, Listed;
      var locks := DedupLocks(false, EXCLUSIVE, wanted);
      DedupIsNormalized(false, EXCLUSIVE, wanted);
      ghost var sec := Section(pid, key, Find(request, locks), Stale(index.Keys));
      StepEnterFind(state, pid, key, request, locks);
      Note(Enter(pid, key, Find(request, locks)));
      ghost var s1 := state;
      ghost var stale := StaleOps(index, pid, live, seen);
      AbandonStale(pid, key, live, seen, s1, sec);
      StepEndStaleFind(s1, state, sec);
      Note(EndStale);
      FilesDoAgree();
      GivenUpIndex(old(Files()), stale, key);
      forall o | o !in stale ensures Same(old(Files()), Files(), o) { GivenUpOutside(old(Files()), stale, key, o); }
      if Trim(request) != "" {
        var existing := FindByRequest(key, request, s1, sec);
        if existing.Some? {
          FilesDoAgree();
          return existing.value, false;
        }
        forall o | Listed(old(Files()), o, key, request, pid, live, seen) ensures false {
          ListedStays(old(Files()), key, request, pid, live, seen, o);
        }
      }
      NewOperation(pid, key, request, locks, seen, newId, s1, sec);
      return newId, true;
    }

    method NewOperation(
        pid: int, key: nat, request: string, locks: seq<Lock>, seen: string, op: OpId, ghost s1: State,
        ghost sec: Section)
      requires Valid() && Reached(s1, state, sec, Lookup({})) && BootReading(state, seen) && op !in state.specs
      requires sec.task == Find(request, locks) && sec.pid == pid && sec.key == key
      modifies this
      ensures Valid() && boot0 == old(boot0) && old(run) <= run
      ensures state.section.None? && state.live == s1.live && state.boot == s1.boot
      ensures var spec := Spec(Owner(pid, seen), request, key, locks);
              && state.specs == s1.specs[op := spec] && records == old(records)[op := Record(spec, Queued)]
              && index == old(index)[op := Index(spec.owner, request, Queued)] && claims == old(claims)
    {
      hide Next, Exec, Inv, Conflict, Clashes, Trim;
      var spec := Spec(Owner(pid, seen), request, key, locks);
      StepNewRecord(s1, state, sec, op, seen);
      WriteRecord(op, spec, Queued, NewRecord(op, seen));
      StepNewIndex(state, sec.(stage := Indexing(op)), op);
      WriteIndex(op, spec, Queued, NewIndex);
    }

    /** Acquire, undisturbed: a running operation is granted at once; a cancelled caller leaves its operation failed;
        otherwise the operation is granted exactly if no claim of a live owner stands in its way. */
    method Acquire(
        pid: int, key: nat, request: string, wanted: seq<Lock>, live: set<int>, seen: string, newId: OpId,
        cancelled: bool)
      returns (op: OpId, granted: bool, ghost resumed: bool, ghost before: map<ClaimPath, Claim>)
      requires Valid() && state.section.None? && pid in live && live == state.live && BootReading(state, seen)
      requires newId !in state.specs
      modifies this
      ensures Valid() && boot0 == old(boot0) && old(run) <= run && state.section.None? && op in state.specs
      ensures state.specs[op].key == key && state.specs[op].request == request
      ensures op in old(state).specs ==> state.specs == old(state).specs
      ensures op !in old(state).specs ==>
                && op == newId && state.specs.Keys == old(state).specs.Keys + {op}
                && state.specs[op].locks == Dedup(false, EXCLUSIVE, wanted)
      ensures granted ==> op in records && records[op].status.Running?
      ensures resumed <==> SaysRunning(old(state), op)
      ensures resumed ==> granted && claims == before && op in old(state).specs
      ensures OnlyDeadLost(old(claims), before, live, seen)
      ensures Trim(request) != "" && (exists o :: Listed(old(Files()), o, key, request, pid, live, seen)) ==>
                op in old(index) && old(index)[op].request == request
      ensures !resumed && cancelled ==> !granted && op in records && records[op].status.Failed? && op !in index
      ensures !resumed && !cancelled ==>
                (granted <==> NoneExcludes(before, op, state.specs[op].locks, live, seen))
      ensures !resumed && granted ==> FullyBacked(state, op)
    {
      hide Next, Exec, Inv, Conflict, Clashes, Trim;
      ghost var created;
      FilesDoAgree();
      op, created := FindOrCreate(pid, key, request, wanted, live, seen, newId);
      before := claims;
      var record := records[op];
      if record.status.Running? {
        return op, true, true, before;
      }
      if cancelled {
        Finish(pid, key, op, record.spec, Failed);
        return op, false, false, before;
      }
      resumed := false;
      granted := TryActivate(pid, key, op, record.spec, live, seen);
    }

    /** A poll for an operation of the request, after all others that held claims released or died: it is granted, and
        the operation has its whole claim set unless it is one of a dead owner that said running before. */
    method Poll(
        pid: int, key: nat, request: string, wanted: seq<Lock>, live: set<int>, seen: string, newId: OpId)
      returns (op: OpId)
      requires Valid() && state.section.None? && pid in live && live == state.live && BootReading(state, seen)
      requires newId !in state.specs && Trim(request) != ""
      requires exists o :: Listed(Files(), o, key, request, pid, live, seen)
      requires CleanRun(Tidy, Start(boot0), run)
      requires forall o :: o in index && index[o].request == request ==> NobodyHolds(state, o, seen)
      modifies this
      ensures Valid() && boot0 == old(boot0) && old(run) <= run && state.section.None?
      ensures op in old(index) && old(index)[op].request == request
      ensures op in records && records[op].status.Running?
      ensures op in old(state).intact || !SaysRunning(old(state), op) ==> FullyBacked(state, op)
    {
      hide Next, Exec, Inv, Conflict, Clashes, CleanRun, NobodyHolds, Trim, GrantInv;
      ghost var s0 := state;
      CleanRunKeepsGrantInv(Tidy, boot0, run);
      Reachable();
      forall o | o in index && index[o].request == request ensures AloneWithClaims(s0, o, seen) {
        NobodyElseClaims(boot0, run, o, seen);
      }
      var granted;
      ghost var resumed, before;
      op, granted, resumed, before := Acquire(pid, key, request, wanted, live, seen, newId, false);
      assert granted;
      if resumed && op in s0.intact {
        StaysBacked(s0, state, op, live, seen);
      }
    }

    /** The lock loop of finalize. */
    method DropClaims(op: OpId, spec: Spec, ghost s1: State, ghost sec: Section)
      requires Valid() && Reached(s1, state, sec, ToDrop(0)) && sec.task.Finalize? && sec.task.op == op
      requires op in s1.specs && s1.specs[op] == spec
      modifies this
      ensures Valid() && boot0 == old(boot0) && old(run) <= run && Reached(s1, state, sec, ToDrop(|spec.locks|))
      ensures records == old(records) && index == old(index)
      ensures claims == old(claims) - (set j | 0 <= j < |spec.locks| :: PathOf(op, spec.locks[j]))
    {
      hide Next, Exec, Inv, Conflict, Clashes;
      for i := 0 to |spec.locks|
        invariant Valid() && boot0 == old(boot0) && old(run) <= run && Reached(s1, state, sec, ToDrop(i))
        invariant records == old(records) && index == old(index)
        invariant claims == old(claims) - (set j | 0 <= j < i :: PathOf(op, spec.locks[j]))
      {
        StepDropClaim(s1, state, sec, i);
        RemoveClaim(PathOf(op, spec.locks[i]), DropClaim);
      }
    }

    /** finalize, undisturbed: the claims and the index of the operation are gone, everything else stays. */
    method Finish(pid: int, key: nat, op: OpId, spec: Spec, status: Status)
      requires Valid() && state.section.None? && pid in state.live && !ActiveStatus(status)
      requires op in state.specs && state.specs[op] == spec && spec.key == key
      modifies this
      ensures Valid() && boot0 == old(boot0) && old(run) <= run
      ensures state.section.None? && state.specs == old(state).specs
      ensures records == old(records)[op := Record(spec, status)] && index == old(index) - {op}
      ensures claims == map p | p in old(claims) && p.op != op :: old(claims)[p]
      ensures op !in state.granted && op !in state.activated && op !in state.open
    {
      hide Next, Exec, Inv, Conflict, Clashes;
      ghost var task := Finalize(op, status);
      ghost var sec := Section(pid, key, task, ToFinish);
      FilesDoAgree();
      StepEnter(state, pid, key, task);
      Note(Enter(pid, key, task));
      ghost var s1 := state;
      StepMarkFinal(s1, state, sec);
      WriteRecord(op, spec, status, MarkFinal);
      DropClaims(op, spec, s1, sec);
      StepDropIndex(s1, state, sec);
      RemoveIndex(op, DropIndex);
    }
  }
}

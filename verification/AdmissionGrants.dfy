/** Grants by record, all-or-nothing admission, and what a released operation leaves behind. */
module AdmissionGrants {
  import opened Text
  import opened Locks
  import opened Admission
  import opened AdmissionSafety

  /** The operation whose record and claim files the section is in the middle of changing. */
  function WorkingOn(s: State): Option<OpId> {
    if s.section.None? then None else
      var sec := s.section.value;
      if (sec.stage.ToIndex? || sec.stage.ToClaim?) && sec.task.Activate? then Some(sec.task.op)
      else if sec.stage.ToDrop? && sec.task.Finalize? then Some(sec.task.op)
      else None
  }

  /** How much is asked of the files of an operation that nobody works on: that a running record is backed by the whole
      claim set; besides, that the claims are none or the whole set; or, that only a running record has claims. */
  datatype Level = Backing | Whole | Tidy

  predicate Good(level: Level, s: State, op: OpId) {
    && (SaysRunning(s, op) ==> FullyBacked(s, op))
    && (level.Whole? ==> Unclaimed(s, op) || FullyBacked(s, op))
    && (level.Tidy? ==> SaysRunning(s, op) || Unclaimed(s, op))
  }

  /** The event ends a section that works on an operation whose owner lives on: an I/O error, or the death of a process
      that works on an operation of another process. */
  predicate CutsShort(s: State, e: Event) {
    && WorkingOn(s).Some? && WorkingOn(s).value in s.intact && WorkingOn(s).value in s.specs
    && (e.Abort? || (e.Die? && e.pid == s.section.value.pid && s.specs[WorkingOn(s).value].owner.pid != e.pid))
  }

  predicate SomeClaimed(s: State, op: OpId)
    requires op in s.specs
  {
    exists i :: 0 <= i < |s.specs[op].locks| && PathOf(op, s.specs[op].locks[i]) in s.disk.claims
  }

  predicate SomeUnclaimed(s: State, op: OpId)
    requires op in s.specs
  {
    exists i :: 0 <= i < |s.specs[op].locks| && PathOf(op, s.specs[op].locks[i]) !in s.disk.claims
  }

  /** Where a cut does harm: in an activation, while a lock has no claim file yet; in a release, while claim files are
      left beside locks that have none, or, if a release is to leave nothing behind, while any are left. */
  predicate HarmfulPoint(level: Level, s: State) {
    && WorkingOn(s).Some? && WorkingOn(s).value in s.specs
    && var op := WorkingOn(s).value;
    if s.section.value.task.Activate? then SomeUnclaimed(s, op)
    else
      match level
      case Backing => false
      case Whole => SomeClaimed(s, op) && SomeUnclaimed(s, op)
      case Tidy => SomeClaimed(s, op)
  }

  predicate Clean(level: Level, s: State, e: Event) {
    !(CutsShort(s, e) && HarmfulPoint(level, s))
  }

  predicate CleanRun(level: Level, s: State, run: seq<Event>) {
    run == [] || (
      && CleanRun(level, s, run[..|run| - 1])
      && Exec(s, run[..|run| - 1]).Some?
      && Clean(level, Exec(s, run[..|run| - 1]).value, run[|run| - 1]))
  }

  predicate Dropped(s: State, op: OpId, upTo: nat)
    requires op in s.specs && upTo <= |s.specs[op].locks|
  {
    forall i :: 0 <= i < upTo ==> PathOf(op, s.specs[op].locks[i]) !in s.disk.claims
  }

  predicate GrantInv(level: Level, s: State) {
    && Inv(s)
    && (forall o :: o in s.intact && WorkingOn(s) != Some(o) ==> Good(level, s, o))
    && (forall o :: o in s.granted ==> FullyBacked(s, o))
    && (s.section.Some? && s.section.value.stage.ToDrop? ==> DropOk(s, s.section.value))
  }

  predicate DropOk(s: State, sec: Section)
    requires Inv(s) && s.section == Some(sec) && sec.stage.ToDrop?
  {
    && Dropped(s, sec.task.op, sec.stage.next)
    && sec.task.op in s.disk.records && !s.disk.records[sec.task.op].status.Running?
  }

  /** The event leaves the claims and the record of `o` as they are. */
  ghost predicate Untouched(s: State, t: State, o: OpId) {
    && o in s.specs && o in t.specs && s.specs[o] == t.specs[o]
    && (forall p: ClaimPath :: p.op == o ==> (p in s.disk.claims <==> p in t.disk.claims))
    && (o in t.disk.records <==> o in s.disk.records)
    && (o in t.disk.records ==> s.disk.records[o].status == t.disk.records[o].status)
  }

  lemma UntouchedStays(level: Level, s: State, t: State, o: OpId)
    requires Untouched(s, t, o)
    ensures FullyBacked(s, o) <==> FullyBacked(t, o)
    ensures Good(level, s, o) <==> Good(level, t, o)
  {
    hide Conflict, Normalized, ClaimsCompatible, Clear;
  }

  lemma TouchStale(s: State, sec: Section, e: Event, o: OpId)
    requires Inv(s) && s.section == Some(sec) && o in s.intact && NextStale(s, sec, e).Some?
    requires WorkingOn(s) != Some(o) && WorkingOn(NextStale(s, sec, e).value) != Some(o)
    ensures Untouched(s, NextStale(s, sec, e).value, o)
  {
    hide Conflict, Normalized, ClaimsCompatible, Clear;
  }

  lemma TouchLookup(s: State, sec: Section, e: Event, o: OpId)
    requires Inv(s) && s.section == Some(sec) && o in s.intact && NextLookup(s, sec, e).Some?
    requires WorkingOn(s) != Some(o) && WorkingOn(NextLookup(s, sec, e).value) != Some(o)
    ensures Untouched(s, NextLookup(s, sec, e).value, o)
  {
    hide Conflict, Normalized, ClaimsCompatible, Clear;
  }

  lemma TouchScan(s: State, sec: Section, e: Event, o: OpId)
    requires Inv(s) && s.section == Some(sec) && o in s.intact && NextScan(s, sec, e).Some?
    requires WorkingOn(s) != Some(o) && WorkingOn(NextScan(s, sec, e).value) != Some(o)
    ensures Untouched(s, NextScan(s, sec, e).value, o)
  {
    hide Conflict, Normalized, ClaimsCompatible, Clear;
    if e.SweepClaim? {
      assert ClaimAgrees(s, e.path, s.disk.claims[e.path]);
    }
  }

  lemma TouchWrite(s: State, sec: Section, e: Event, o: OpId)
    requires Inv(s) && s.section == Some(sec) && o in s.intact && NextWrite(s, sec, e).Some?
    requires WorkingOn(s) != Some(o) && WorkingOn(NextWrite(s, sec, e).value) != Some(o)
    ensures Untouched(s, NextWrite(s, sec, e).value, o)
  {
    hide Conflict, Normalized, ClaimsCompatible, Clear;
  }

  lemma TouchFinish(s: State, sec: Section, e: Event, o: OpId)
    requires Inv(s) && s.section == Some(sec) && o in s.intact && NextFinish(s, sec, e).Some?
    requires WorkingOn(s) != Some(o) && WorkingOn(NextFinish(s, sec, e).value) != Some(o)
    ensures Untouched(s, NextFinish(s, sec, e).value, o)
  {
    hide Conflict, Normalized, ClaimsCompatible, Clear;
  }

  /** What one event can do to the files of an operation whose owner never died. */
  lemma EventTouches(s: State, e: Event, o: OpId)
    requires Inv(s) && Next(s, e).Some? && o in s.intact
    requires WorkingOn(s) != Some(o) && WorkingOn(Next(s, e).value) != Some(o)
    ensures Untouched(s, Next(s, e).value, o)
  {
    hide NextStale, NextLookup, NextScan, NextWrite, NextFinish, Conflict, Normalized, ClaimsCompatible, Clear,
      SectionOk;
    if Outside(e) {
      assert Next(s, e).value.disk == s.disk && Next(s, e).value.specs == s.specs;
    } else {
      var sec := s.section.value;
      match e
      case KeepIndex(_, _) | DropStale(_, _) | EraseClaim(_) | EraseIndex | EraseRecord | EndStale =>
        TouchStale(s, sec, e, o);
      case SkipIndex(_) | DiscardIndex(_) | Found(_) | NewRecord(_, _) | NewIndex => TouchLookup(s, sec, e, o);
      case SweepClaim(_, _) | SeeClaim(_, _) | EndScan => TouchScan(s, sec, e, o);
      case MarkRunning | IndexRunning | PutClaim | Grant => TouchWrite(s, sec, e, o);
      case MarkFinal | DropClaim | DropIndex => TouchFinish(s, sec, e, o);
      case _ =>
    }
  }

  lemma ActivationOnlyAdds(s: State, sec: Section, e: Event, o: OpId)
    requires Inv(s) && s.section == Some(sec) && NextWrite(s, sec, e).Some? && FullyBacked(s, o)
    ensures FullyBacked(NextWrite(s, sec, e).value, o)
  {
    hide Conflict, Normalized, ClaimsCompatible, Clear, FilesAgree;
    assert s.disk.claims.Keys <= NextWrite(s, sec, e).value.disk.claims.Keys by {
      if e.PutClaim? { assert DoPutClaim(s, sec).Some?; }
    }
  }

  lemma GrantedWorkIsActivation(s: State, o: OpId)
    requires Inv(s) && WorkingOn(s) == Some(o) && o in s.granted
    ensures s.section.value.task.Activate? && (s.section.value.stage.ToIndex? || s.section.value.stage.ToClaim?)
  {
    hide Conflict, Normalized, ClaimsCompatible, Clear, FilesAgree;
  }

  lemma WorkBegins(s: State, e: Event, o: OpId)
    requires Next(s, e).Some? && WorkingOn(s) != Some(o) && WorkingOn(Next(s, e).value) == Some(o)
    ensures e.MarkRunning? || (e.MarkFinal? && s.section.value.task.Finalize? && s.section.value.task.op == o)
    ensures s.section.Some?
  {
  }

  /** Claims of a granted operation are only ever added to. */
  lemma GrantedStayBacked(s: State, e: Event, o: OpId)
    requires Inv(s) && Next(s, e).Some? && o in s.granted && FullyBacked(s, o)
    ensures FullyBacked(Next(s, e).value, o)
  {
    hide Conflict, Normalized, ClaimsCompatible, Clear, FilesAgree, NextStale, NextLookup, NextScan, NextWrite,
      NextFinish;
    var t := Next(s, e).value;
    if WorkingOn(s) == Some(o) || WorkingOn(t) == Some(o) {
      if WorkingOn(s) == Some(o) { GrantedWorkIsActivation(s, o); } else { WorkBegins(s, e, o); }
      if !Outside(e) {
        var sec := s.section.value;
        NotFinishing(s, sec, e, o);
        ActivationOnlyAdds(s, sec, e, o);
      }
    } else {
      EventTouches(s, e, o);
      UntouchedStays(Backing, s, t, o);
    }
  }

  lemma NotFinishing(s: State, sec: Section, e: Event, o: OpId)
    requires Inv(s) && s.section == Some(sec) && NextInside(s, sec, e).Some? && !Outside(e) && o in s.granted
    requires e.MarkRunning? || (e.MarkFinal? && sec.task.Finalize? && sec.task.op == o)
          || (sec.task.Activate? && (sec.stage.ToIndex? || sec.stage.ToClaim?))
    ensures NextInside(s, sec, e) == NextWrite(s, sec, e)
  {
    hide Conflict, Normalized, ClaimsCompatible, Clear, FilesAgree;
  }

  lemma GrantsComeFrom(s: State, e: Event, o: OpId)
    requires Next(s, e).Some? && o !in s.granted && o in Next(s, e).value.granted
    ensures s.section.Some?
    ensures || (e.Found? && Next(s, e) == DoFound(s, s.section.value, e.op))
            || (e.Grant? && Next(s, e) == DoGrant(s, s.section.value))
  {
    hide NextStale, NextScan, NextFinish;
    if !Outside(e) && !e.Found? && !e.Grant? {
      GrantedOnlyThere(s, s.section.value, e);
    }
  }

  lemma GrantedOnlyThere(s: State, sec: Section, e: Event)
    requires NextInside(s, sec, e).Some? && !e.Found? && !e.Grant?
    ensures NextInside(s, sec, e).value.granted == s.granted
  {
  }

  lemma NewGrantIsBacked(level: Level, s: State, e: Event, o: OpId)
    requires GrantInv(level, s) && Next(s, e).Some? && o !in s.granted && o in Next(s, e).value.granted
    ensures FullyBacked(Next(s, e).value, o)
  {
    hide Conflict, Normalized, ClaimsCompatible, Clear, FilesAgree, NextStale, NextLookup, NextScan, NextWrite,
      NextFinish;
    GrantsComeFrom(s, e, o);
    if e.Found? {
      assert Good(level, s, o);
    }
  }

  /** Work on an operation whose owner lives on ends with a grant, with the removal of the index, or by a cut. */
  lemma WorkEnds(s: State, e: Event, o: OpId)
    requires Next(s, e).Some? && o in s.specs && o in s.intact
    requires WorkingOn(s) == Some(o) && WorkingOn(Next(s, e).value) != Some(o) && o in Next(s, e).value.intact
    ensures || (e.Grant? && DoGrant(s, s.section.value).Some?)
            || (e.DropIndex? && DoDropIndex(s, s.section.value).Some?)
            || CutsShort(s, e)
  {
  }

  lemma IntactIsKnown(s: State, o: OpId)
    requires Inv(s) && o in s.intact
    ensures o in s.specs
  {
  }

  /** A cut changes no file, and the operation is then at rest. */
  lemma CutLeaves(s: State, e: Event)
    requires Next(s, e).Some? && CutsShort(s, e)
    ensures var t := Next(s, e).value;
            && t.disk == s.disk && t.specs == s.specs && t.section.None?
            && WorkingOn(s).value in t.intact && WorkingOn(t).None?
  {
    hide NextStale, NextLookup, NextScan, NextWrite, NextFinish;
  }

  lemma ClaimsAreOfLocks(s: State, o: OpId)
    requires FilesAgree(s) && o in s.specs
    ensures Unclaimed(s, o) <==> !SomeClaimed(s, o)
    ensures FullyBacked(s, o) <==> !SomeUnclaimed(s, o)
  {
    hide Conflict, Normalized, Tag;
    forall p | p in s.disk.claims && p.op == o ensures SomeClaimed(s, o) {
      assert ClaimAgrees(s, p, s.disk.claims[p]);
      var i :| 0 <= i < |s.specs[o].locks| && s.specs[o].locks[i] == s.disk.claims[p].lock;
      assert PathOf(o, s.specs[o].locks[i]) == p;
    }
    if SomeClaimed(s, o) {
      var i :| 0 <= i < |s.specs[o].locks| && PathOf(o, s.specs[o].locks[i]) in s.disk.claims;
      assert PathOf(o, s.specs[o].locks[i]).op == o;
    }
  }

  /** At the moment of a cut the operation is as the level wants it exactly if the point does no harm. */
  lemma CutHarmsExactly(level: Level, s: State, e: Event)
    requires GrantInv(level, s) && CutsShort(s, e)
    ensures Good(level, s, WorkingOn(s).value) <==> !HarmfulPoint(level, s)
  {
    hide Conflict, Normalized, ClaimsCompatible, Clear, FullyBacked, Unclaimed, SomeClaimed, SomeUnclaimed, Dropped;
    ClaimsAreOfLocks(s, WorkingOn(s).value);
  }

  lemma FinishedWork(level: Level, s: State, e: Event, o: OpId)
    requires GrantInv(level, s) && Next(s, e).Some? && Clean(level, s, e)
    requires WorkingOn(s) == Some(o) && WorkingOn(Next(s, e).value) != Some(o)
    requires o in s.intact && o in Next(s, e).value.intact
    ensures Good(level, Next(s, e).value, o)
  {
    hide Next, DoGrant, DoDropIndex, Inv, Good, HarmfulPoint, FullyBacked;
    IntactIsKnown(s, o);
    WorkEnds(s, e, o);
    var t := Next(s, e).value;
    var sec := s.section.value;
    if CutsShort(s, e) {
      CutHarmsExactly(level, s, e);
      CutLeaves(s, e);
      SameFilesSameGood(level, s, t, o);
    } else if e.Grant? {
      GrantedIsGood(level, s, sec, o);
    } else {
      ReleasedIsGood(level, s, sec, o);
    }
  }

  lemma GrantedIsGood(level: Level, s: State, sec: Section, o: OpId)
    requires Inv(s) && s.section == Some(sec) && WorkingOn(s) == Some(o) && DoGrant(s, sec).Some?
    ensures Next(s, Grant) == DoGrant(s, sec) && Good(level, DoGrant(s, sec).value, o)
  {
    hide Conflict, Normalized, ClaimsCompatible, Clear, FilesAgree;
    var t := DoGrant(s, sec).value;
    assert FullyBacked(t, o) && SaysRunning(t, o);
  }

  lemma ReleasedIsGood(level: Level, s: State, sec: Section, o: OpId)
    requires GrantInv(level, s) && s.section == Some(sec) && WorkingOn(s) == Some(o) && DoDropIndex(s, sec).Some?
    ensures Next(s, DropIndex) == DoDropIndex(s, sec) && Good(level, DoDropIndex(s, sec).value, o)
  {
    hide Conflict, Normalized, ClaimsCompatible, Clear;
    var t := DoDropIndex(s, sec).value;
    assert DropOk(s, sec);
    forall p | p in t.disk.claims ensures p.op != o {
      assert ClaimAgrees(s, p, s.disk.claims[p]);
    }
  }

  lemma BecomesIntact(level: Level, s: State, e: Event, o: OpId)
    requires Inv(s) && Next(s, e).Some? && o !in s.intact && o in Next(s, e).value.intact
    ensures Good(level, Next(s, e).value, o)
  {
    hide Conflict, Normalized, ClaimsCompatible, Clear, NextInside;
    if !e.Spawn? && !e.Die? && !e.Reboot? && !e.Enter? {
      var sec := s.section.value;
      if e.NewRecord? { NewIsUnclaimed(level, s, sec, e, o); } else { IntactOnlyThere(s, sec, e); }
    }
  }

  lemma IntactOnlyThere(s: State, sec: Section, e: Event)
    requires NextInside(s, sec, e).Some? && !e.NewRecord?
    ensures NextInside(s, sec, e).value.intact == s.intact
  {
  }

  lemma NewIsUnclaimed(level: Level, s: State, sec: Section, e: Event, o: OpId)
    requires Inv(s) && s.section == Some(sec) && e.NewRecord? && NextInside(s, sec, e).Some?
    requires o !in s.intact && o in NextInside(s, sec, e).value.intact
    ensures Good(level, NextInside(s, sec, e).value, o)
  {
    hide Conflict, Normalized, ClaimsCompatible, Clear, SectionOk;
    assert NextInside(s, sec, e) == DoNewRecord(s, sec, e.op, e.seen);
    assert Unclaimed(NextInside(s, sec, e).value, o);
  }

  lemma EventKeepsGood(level: Level, s: State, e: Event, o: OpId)
    requires GrantInv(level, s) && Next(s, e).Some? && Clean(level, s, e)
    requires o in Next(s, e).value.intact && WorkingOn(Next(s, e).value) != Some(o)
    ensures Good(level, Next(s, e).value, o)
  {
    hide Conflict, Normalized, ClaimsCompatible, Clear, NextStale, NextLookup, NextScan, NextWrite, NextFinish,
      Untouched, WorkingOn, Clean;
    var t := Next(s, e).value;
    if o !in s.intact {
      BecomesIntact(level, s, e, o);
    } else if WorkingOn(s) == Some(o) {
      FinishedWork(level, s, e, o);
    } else {
      EventTouches(s, e, o);
      UntouchedStays(level, s, t, o);
    }
  }

  lemma FinishKeepsDropOk(level: Level, s: State, sec: Section, e: Event)
    requires GrantInv(level, s) && s.section == Some(sec)
    requires NextFinish(s, sec, e).Some? && Inv(NextFinish(s, sec, e).value)
    requires e.MarkFinal? || e.DropClaim?
    ensures DropOk(NextFinish(s, sec, e).value, NextFinish(s, sec, e).value.section.value)
  {
    hide Conflict, Normalized, ClaimsCompatible, Clear, FilesAgree, Good, FullyBacked;
  }

  lemma DropStageFrom(s: State, e: Event)
    requires Next(s, e).Some?
    requires var t := Next(s, e).value; t.section.Some? && t.section.value.stage.ToDrop?
    ensures s.section.Some?
    ensures if e.MarkFinal? || e.DropClaim? then Next(s, e) == NextFinish(s, s.section.value, e)
            else Next(s, e).value.disk == s.disk && Next(s, e).value.section == s.section
                 && Next(s, e).value.specs == s.specs
  {
    hide NextInside, NextFinish, OwnedBy, MayStart;
    if !e.Spawn? && !e.Die? && !e.Reboot? && !e.Enter? { InsideDropStage(s, s.section.value, e); }
  }

  lemma InsideDropStage(s: State, sec: Section, e: Event)
    requires NextInside(s, sec, e).Some?
    requires var t := NextInside(s, sec, e).value; t.section.Some? && t.section.value.stage.ToDrop?
    ensures (e.MarkFinal? || e.DropClaim?) && NextInside(s, sec, e) == NextFinish(s, sec, e)
  {
    hide PutRecord, PutIndex, WithClaim, WithoutClaim, WithoutIndex, IsStale, Clashes, PathsOf, ClaimsNaming,
      BootReading, OwnerActive, Readable, Trim;
  }

  lemma EventKeepsDropOk(level: Level, s: State, e: Event)
    requires GrantInv(level, s) && Next(s, e).Some? && Inv(Next(s, e).value)
    requires var t := Next(s, e).value; t.section.Some? && t.section.value.stage.ToDrop?
    ensures DropOk(Next(s, e).value, Next(s, e).value.section.value)
  {
    hide Next, Conflict, Normalized, ClaimsCompatible, Clear, FilesAgree, Good, FullyBacked;
    DropStageFrom(s, e);
    if e.MarkFinal? || e.DropClaim? {
      FinishKeepsDropOk(level, s, s.section.value, e);
    }
  }

  lemma EventKeepsGrantInv(level: Level, s: State, e: Event)
    requires GrantInv(level, s) && Next(s, e).Some? && Clean(level, s, e)
    ensures GrantInv(level, Next(s, e).value)
  {
    hide Conflict, Normalized, ClaimsCompatible, Clear, Clean, Good;
    var t := Next(s, e).value;
    EventKeepsInv(s, e);
    forall o | o in t.intact && WorkingOn(t) != Some(o) ensures Good(level, t, o) {
      EventKeepsGood(level, s, e, o);
    }
    forall o | o in t.granted ensures FullyBacked(t, o) {
      if o in s.granted { GrantedStayBacked(s, e, o); } else { NewGrantIsBacked(level, s, e, o); }
    }
    if t.section.Some? && t.section.value.stage.ToDrop? {
      EventKeepsDropOk(level, s, e);
    }
  }

  /** At every level an event keeps the invariant exactly if it is clean. */
  lemma CleanIsExact(level: Level, s: State, e: Event)
    requires GrantInv(level, s) && Next(s, e).Some?
    ensures GrantInv(level, Next(s, e).value) <==> Clean(level, s, e)
  {
    hide Next, Inv, Good, HarmfulPoint, FullyBacked, DropOk;
    if Clean(level, s, e) {
      EventKeepsGrantInv(level, s, e);
    } else {
      var t, op := Next(s, e).value, WorkingOn(s).value;
      CutHarmsExactly(level, s, e);
      CutLeaves(s, e);
      SameFilesSameGood(level, s, t, op);
    }
  }

  lemma SameFilesSameGood(level: Level, s: State, t: State, op: OpId)
    requires t.disk == s.disk && t.specs == s.specs
    ensures Good(level, t, op) <==> Good(level, s, op)
  {
  }

  lemma {:induction false} CleanRunFrom(level: Level, s: State, run: seq<Event>)
    requires GrantInv(level, s) && Exec(s, run).Some? && CleanRun(level, s, run)
    ensures GrantInv(level, Exec(s, run).value)
  {
    if run == [] {
    } else {
      hide Next, GrantInv, Clean;
      CleanRunFrom(level, s, run[..|run| - 1]);
      EventKeepsGrantInv(level, Exec(s, run[..|run| - 1]).value, run[|run| - 1]);
    }
  }

  lemma CleanRunKeepsGrantInv(level: Level, boot: string, run: seq<Event>)
    requires Exec(Start(boot), run).Some? && CleanRun(level, Start(boot), run)
    ensures GrantInv(level, Exec(Start(boot), run).value)
  {
    hide Next, Exec, CleanRun;
    CleanRunFrom(level, Start(boot), run);
  }

  /** Where no activation is cut short at a lock without claim file, this holds of every grant, also of one given
      because the record already said running. */
  lemma GrantedNeverConflict(boot: string, run: seq<Event>, o: OpId, q: OpId)
    requires Exec(Start(boot), run).Some? && CleanRun(Backing, Start(boot), run)
    requires var s := Exec(Start(boot), run).value; o in s.granted && q in s.granted && o != q
    ensures var s := Exec(Start(boot), run).value;
            && FullyBacked(s, o) && FullyBacked(s, q)
            && !SetsConflict(s.specs[o].locks, s.specs[q].locks)
            && EachMayShare(s.specs[o].locks, s.specs[q].locks)
  {
    hide Next, Exec, Conflict, MayShare, EachMayShare, SetsConflict;
    CleanRunKeepsGrantInv(Backing, boot, run);
    var s := Exec(Start(boot), run).value;
    BackedNeverConflict(s, o, q);
    NoConflictMeansShared(s.specs[o].locks, s.specs[q].locks);
  }

  /** Outside the admission lock the claims of an operation are none, or exactly its lock set, or its owner has died; a
      running record of a living owner has the whole set. */
  lemma AdmissionIsAllOrNothing(boot: string, run: seq<Event>, o: OpId)
    requires Exec(Start(boot), run).Some? && CleanRun(Whole, Start(boot), run)
    requires var s := Exec(Start(boot), run).value; s.section.None? && o in s.specs && o in s.intact
    ensures var s := Exec(Start(boot), run).value;
            var claimed := ClaimsNaming(s.disk, o);
            && (claimed == {} || claimed == PathsOf(o, s.specs[o].locks))
            && (SaysRunning(s, o) ==> claimed == PathsOf(o, s.specs[o].locks))
  {
    hide Next;
    CleanRunKeepsGrantInv(Whole, boot, run);
    ClaimsAsSets(Exec(Start(boot), run).value, o);
  }

  lemma ClaimsAsSets(s: State, o: OpId)
    requires FilesAgree(s) && o in s.specs
    ensures Unclaimed(s, o) ==> ClaimsNaming(s.disk, o) == {}
    ensures FullyBacked(s, o) ==> ClaimsNaming(s.disk, o) == PathsOf(o, s.specs[o].locks)
  {
    hide Conflict, Normalized, Tag;
    assert forall p :: p in s.disk.claims ==> ClaimAgrees(s, p, s.disk.claims[p]);
  }

  /** And if releases leave nothing behind, it is the running record that decides which of the two. */
  lemma ClaimsFollowTheRecord(boot: string, run: seq<Event>, o: OpId)
    requires Exec(Start(boot), run).Some? && CleanRun(Tidy, Start(boot), run)
    requires var s := Exec(Start(boot), run).value; s.section.None? && o in s.specs && o in s.intact
    ensures var s := Exec(Start(boot), run).value;
            ClaimsNaming(s.disk, o) == if SaysRunning(s, o) then PathsOf(o, s.specs[o].locks) else {}
  {
    hide Next;
    CleanRunKeepsGrantInv(Tidy, boot, run);
    ClaimsAsSets(Exec(Start(boot), run).value, o);
  }

  /** A claim that stops an activation. */
  predicate InTheWay(s: State, op: OpId, p: ClaimPath, seen: string)
    requires op in s.specs
  {
    && p in s.disk.claims && OwnerActive(s.disk.claims[p].owner, s.live, seen)
    && Clashes(s.disk.claims[p], op, s.specs[op].locks)
  }

  /** Only a running operation, or a dead one whose owner passes for active, is in the way of an activation. */
  lemma OnlyRunningOperationsAreInTheWay(boot: string, run: seq<Event>, op: OpId, p: ClaimPath, seen: string)
    requires Exec(Start(boot), run).Some? && CleanRun(Tidy, Start(boot), run)
    requires var s := Exec(Start(boot), run).value; s.section.None? && op in s.specs && InTheWay(s, op, p, seen)
    ensures var s := Exec(Start(boot), run).value;
            && p.op != op && p.op in s.specs
            && (p.op in s.intact ==> SaysRunning(s, p.op) && p in PathsOf(p.op, s.specs[p.op].locks))
  {
    hide Next, Conflict;
    CleanRunKeepsGrantInv(Tidy, boot, run);
    var s := Exec(Start(boot), run).value;
    assert ClaimAgrees(s, p, s.disk.claims[p]);
    if p.op in s.intact {
      ClaimsFollowTheRecord(boot, run, p.op);
      assert p in ClaimsNaming(s.disk, p.op);
    }
  }

  /** All claim holders released or died for good: no other operation with a living owner says running, and no claim of
      a dead owner passes for active. */
  predicate NobodyHolds(s: State, op: OpId, seen: string) {
    && (forall o :: o in s.intact && o != op ==> !SaysRunning(s, o))
    && (forall p :: p in s.disk.claims && p.op !in s.intact ==> !OwnerActive(s.disk.claims[p].owner, s.live, seen))
  }

  /** Every claim of an active owner is one of `op`. */
  predicate AloneWithClaims(s: State, op: OpId, seen: string) {
    forall p :: p in s.disk.claims && OwnerActive(s.disk.claims[p].owner, s.live, seen) ==> p.op == op
  }

  /** Then nobody else has a claim that counts. */
  lemma NobodyElseClaims(boot: string, run: seq<Event>, op: OpId, seen: string)
    requires Exec(Start(boot), run).Some? && CleanRun(Tidy, Start(boot), run)
    requires var s := Exec(Start(boot), run).value; s.section.None? && NobodyHolds(s, op, seen)
    ensures AloneWithClaims(Exec(Start(boot), run).value, op, seen)
  {
    hide Next, Conflict, Exec, CleanRun, Normalized, ClaimsCompatible;
    CleanRunKeepsGrantInv(Tidy, boot, run);
    var s := Exec(Start(boot), run).value;
    forall p | p in s.disk.claims && p.op in s.intact ensures SaysRunning(s, p.op) {
      assert Good(Tidy, s, p.op);
    }
  }

  /** And nothing is in the way of the operation: its next poll is granted (`Poll` of the journal). */
  lemma NothingInTheWay(boot: string, run: seq<Event>, op: OpId, seen: string)
    requires Exec(Start(boot), run).Some? && CleanRun(Tidy, Start(boot), run)
    requires var s := Exec(Start(boot), run).value; s.section.None? && op in s.specs && NobodyHolds(s, op, seen)
    ensures forall p :: !InTheWay(Exec(Start(boot), run).value, op, p, seen)
  {
    hide Next, Conflict, Exec, CleanRun;
    var s := Exec(Start(boot), run).value;
    CleanRunKeepsGrantInv(Tidy, boot, run);
    NobodyElseClaims(boot, run, op, seen);
    assert forall p :: p in s.disk.claims ==> ClaimAgrees(s, p, s.disk.claims[p]);
  }

  lemma EventKeepsSpecs(s: State, e: Event, o: OpId)
    requires Next(s, e).Some? && o in s.specs
    ensures var t := Next(s, e).value; o in t.specs && t.specs[o] == s.specs[o] && (!e.Reboot? ==> t.boot == s.boot)
  {
    hide NextInside, OwnedBy, MayStart;
    if !e.Spawn? && !e.Die? && !e.Reboot? && !e.Enter? { InsideKeepsSpecs(s, s.section.value, e, o); }
  }

  /** No step inside the admission lock changes who lives, the boot, or what an operation was created with. */
  lemma InsideKeepsSpecs(s: State, sec: Section, e: Event, o: OpId)
    requires NextInside(s, sec, e).Some?
    ensures var t := NextInside(s, sec, e).value;
            t.boot == s.boot && t.live == s.live && (o in s.specs ==> o in t.specs && t.specs[o] == s.specs[o])
  {
    hide PutRecord, PutIndex, WithClaim, WithoutClaim, WithoutIndex, IsStale, Clashes, PathsOf, ClaimsNaming, OwnedBy,
      BootReading, OwnerActive, Readable, MayStart, Trim;
  }

  /** A reboot frees the host: no claim of an operation from before it is in anybody's way afterwards, even if its
      owner's pid is in use again, as long as the boot ids can be read; and no process outlives it. */
  lemma {:induction false} RebootFreesTheHost(
      boot: string, run: seq<Event>, b: string, more: seq<Event>, o: OpId)
    requires Exec(Start(boot), run).Some? && Exec(Start(boot), run + [Reboot(b)] + more).Some?
    requires forall i :: 0 <= i < |more| ==> !more[i].Reboot?
    requires var s := Exec(Start(boot), run).value; o in s.specs && s.specs[o].owner.boot !in {"", b} && b != ""
    ensures var t := Exec(Start(boot), run + [Reboot(b)] + more).value;
            && t.boot == b && o in t.specs && t.specs[o] == Exec(Start(boot), run).value.specs[o]
            && (forall p: ClaimPath, q :: q in t.specs && p.op == o ==> !InTheWay(t, q, p, b))
            && ((forall i :: 0 <= i < |more| ==> more[i] != Spawn(t.specs[o].owner.pid)) ==>
                  t.specs[o].owner.pid !in t.live)
  {
    hide Next, Conflict, Clashes;
    var rebooted := run + [Reboot(b)];
    RunKeepsInv(boot, rebooted + more);
    if more == [] {
      assert rebooted + more == rebooted && rebooted[..|rebooted| - 1] == run;
      RebootSetsBoot(Exec(Start(boot), run).value, b);
    } else {
      var front, e := more[..|more| - 1], more[|more| - 1];
      assert (rebooted + more)[..|rebooted + more| - 1] == rebooted + front;
      assert e == more[|more| - 1] && !e.Reboot?;
      RebootFreesTheHost(boot, run, b, front, o);
      EventKeepsSpecs(Exec(Start(boot), rebooted + front).value, e, o);
      LiveOnlyBySpawn(Exec(Start(boot), rebooted + front).value, e, Exec(Start(boot), run).value.specs[o].owner.pid);
    }
    ClaimsAreOwned(Exec(Start(boot), rebooted + more).value, o);
  }

  /** A death frees what the process held: until its pid is taken again no claim of its operations is in anybody's way,
      however the boot id is read. */
  lemma {:induction false} DeathFreesItsClaims(boot: string, run: seq<Event>, pid: int, more: seq<Event>, o: OpId)
    requires Exec(Start(boot), run + [Die(pid)] + more).Some?
    requires forall i :: 0 <= i < |more| ==> more[i] != Spawn(pid)
    requires var s := Exec(Start(boot), run + [Die(pid)] + more).value; o in s.specs && s.specs[o].owner.pid == pid
    ensures var t := Exec(Start(boot), run + [Die(pid)] + more).value;
            && pid !in t.live
            && forall p: ClaimPath, q, seen :: q in t.specs && p.op == o ==> !InTheWay(t, q, p, seen)
  {
    hide Next, Conflict, Clashes;
    PidStaysAway(boot, run, pid, more);
    RunKeepsInv(boot, run + [Die(pid)] + more);
    ClaimsAreOwned(Exec(Start(boot), run + [Die(pid)] + more).value, o);
  }

  lemma {:induction false} PidStaysAway(boot: string, run: seq<Event>, pid: int, more: seq<Event>)
    requires Exec(Start(boot), run + [Die(pid)] + more).Some?
    requires forall i :: 0 <= i < |more| ==> more[i] != Spawn(pid)
    ensures pid !in Exec(Start(boot), run + [Die(pid)] + more).value.live
  {
    hide Next;
    var died := run + [Die(pid)];
    if more == [] {
      assert died + more == died && died[..|died| - 1] == run;
      LiveOnlyBySpawn(Exec(Start(boot), run).value, Die(pid), pid);
    } else {
      var front, e := more[..|more| - 1], more[|more| - 1];
      assert (died + more)[..|died + more| - 1] == died + front;
      assert e == more[|more| - 1];
      PidStaysAway(boot, run, pid, front);
      LiveOnlyBySpawn(Exec(Start(boot), died + front).value, e, pid);
    }
  }

  lemma LiveOnlyBySpawn(s: State, e: Event, pid: int)
    requires Next(s, e).Some?
    ensures pid in Next(s, e).value.live ==> e != Die(pid) && (pid in s.live || e == Spawn(pid))
  {
    hide NextInside, OwnedBy, MayStart;
    if !e.Spawn? && !e.Die? && !e.Reboot? && !e.Enter? { InsideKeepsSpecs(s, s.section.value, e, ""); }
  }

  lemma RebootSetsBoot(s: State, b: string)
    ensures Next(s, Reboot(b)).Some?
    ensures var t := Next(s, Reboot(b)).value; t.boot == b && t.specs == s.specs && t.live == {}
  {
  }

  lemma ClaimsAreOwned(s: State, o: OpId)
    requires Inv(s)
    ensures forall p :: p in s.disk.claims && p.op == o ==> o in s.specs && s.disk.claims[p].owner == s.specs[o].owner
  {
    hide Conflict, Normalized, ClaimsCompatible, SectionOk;
    forall p | p in s.disk.claims ensures ClaimAgrees(s, p, s.disk.claims[p]) {}
  }

  // Without these conditions both properties fail: a cut that is not clean leaves an operation at rest with part of
  // its claims; such claims, and those of a dead owner whose pid is in use again, are in the way of others.

  /** The first event that is not clean leaves an operation of a living owner whose claims are neither none nor the
      whole set, or whose record says running without the whole set. */
  lemma CutBreaksAllOrNothing(s: State, e: Event) returns (o: OpId)
    requires GrantInv(Whole, s) && Next(s, e).Some? && !Clean(Whole, s, e)
    ensures var t := Next(s, e).value;
            var claimed := ClaimsNaming(t.disk, o);
            && t.section.None? && o in t.specs && o in t.intact && WorkingOn(s) == Some(o)
            && claimed != PathsOf(o, t.specs[o].locks) && (claimed == {} ==> SaysRunning(t, o))
  {
    hide Next, Conflict, Normalized, ClaimsCompatible, Clear;
    o := WorkingOn(s).value;
    CutLeaves(s, e);
    ClaimsAreOfLocks(s, o);
    PartIsNotTheWhole(s, o);
  }

  lemma PartIsNotTheWhole(s: State, o: OpId)
    requires o in s.specs
    ensures SomeUnclaimed(s, o) ==> ClaimsNaming(s.disk, o) != PathsOf(o, s.specs[o].locks)
    ensures FilesAgree(s) && SomeClaimed(s, o) ==> ClaimsNaming(s.disk, o) != {}
  {
    hide Conflict, Normalized;
    if SomeUnclaimed(s, o) {
      var i :| 0 <= i < |s.specs[o].locks| && PathOf(o, s.specs[o].locks[i]) !in s.disk.claims;
      assert PathOf(o, s.specs[o].locks[i]) in PathsOf(o, s.specs[o].locks);
    }
    if FilesAgree(s) && SomeClaimed(s, o) {
      var i :| 0 <= i < |s.specs[o].locks| && PathOf(o, s.specs[o].locks[i]) in s.disk.claims;
      assert PathOf(o, s.specs[o].locks[i]) in ClaimsNaming(s.disk, o);
    }
  }

  /** A release cut with a claim file left leaves that claim in the way of every operation it excludes, although the
      record of the released operation no longer says running. */
  lemma CutReleaseIsInTheWay(s: State, e: Event, seen: string) returns (p: ClaimPath)
    requires GrantInv(Tidy, s) && Next(s, e).Some? && !Clean(Tidy, s, e) && s.section.value.task.Finalize?
    requires BootReading(Next(s, e).value, seen)
    ensures var t := Next(s, e).value;
            && t.section.None? && p.op in t.intact && !SaysRunning(t, p.op) && p in t.disk.claims
            && forall q :: q in t.specs && Clashes(t.disk.claims[p], q, t.specs[q].locks) ==> InTheWay(t, q, p, seen)
  {
    hide Next, Conflict, Normalized, ClaimsCompatible, Clear, Clashes;
    var o := WorkingOn(s).value;
    var i :| 0 <= i < |s.specs[o].locks| && PathOf(o, s.specs[o].locks[i]) in s.disk.claims;
    p := PathOf(o, s.specs[o].locks[i]);
    CutLeaves(s, e);
    EventKeepsInv(s, e);
    assert ClaimAgrees(s, p, s.disk.claims[p]);
    assert SurelyActive(Next(s, e).value, s.specs[o].owner);
  }

  /** The owner of a running operation dies and its pid is taken again in the same boot: the claims of the dead
      operation are in the way of every operation that its locks exclude. */
  lemma ReusedPidIsInTheWay(s: State, o: OpId, q: OpId, seen: string) returns (p: ClaimPath)
    requires GrantInv(Backing, s) && o in s.intact && SaysRunning(s, o) && WorkingOn(s) != Some(o)
    requires q in s.specs && q != o && SetsConflict(s.specs[o].locks, s.specs[q].locks)
    requires s.specs[o].owner.pid > 0 && BootReading(s, seen)
    ensures var pid := s.specs[o].owner.pid;
            var dead := Next(s, Die(pid));
            && dead.Some? && Next(dead.value, Spawn(pid)).Some?
            && var t := Next(dead.value, Spawn(pid)).value; o !in t.intact && p.op == o && InTheWay(t, q, p, seen)
  {
    hide Conflict, Normalized, ClaimsCompatible, Clear;
    var xs, ys := s.specs[o].locks, s.specs[q].locks;
    var i, j :| 0 <= i < |xs| && 0 <= j < |ys| && Conflict(xs[i], ys[j]);
    p := PathOf(o, xs[i]);
    assert Good(Backing, s, o);
    ClaimHoldsLock(s, o, i);
    assert ClaimAgrees(s, p, s.disk.claims[p]);
    assert Clashes(s.disk.claims[p], q, ys);
  }

  /** While any claim file of a restart of the host is left, no other planned operation is granted in any way, not by
      its record either, and no record of such an operation with a living owner says running. */
  lemma RestartExcludesGrants(
      boot: string, run: seq<Event>, restart: OpId, p: ClaimPath, o: OpId, action: string, plan: seq<Lock>)
    requires Exec(Start(boot), run).Some? && CleanRun(Backing, Start(boot), run)
    requires var s := Exec(Start(boot), run).value; p in s.disk.claims && RestartClaim(s, restart, p)
    requires Planned(Exec(Start(boot), run).value, o, action, plan) && o != restart
    ensures var s := Exec(Start(boot), run).value;
            o !in s.granted && (o in s.intact && WorkingOn(s) != Some(o) ==> !SaysRunning(s, o))
  {
    hide Next, Conflict;
    CleanRunKeepsGrantInv(Backing, boot, run);
    var s := Exec(Start(boot), run).value;
    if FullyBacked(s, o) {
      RestartClaimExcludes(s, restart, p, o, action, plan);
    }
  }
}

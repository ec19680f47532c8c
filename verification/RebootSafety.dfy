/** What every run of the restart protocol keeps. */
module RebootSafety {
  import opened Reboot

  /** The host proof taken before the reboot is on record, in both files alike. */
  predicate Proved(s: State, c: Entry) {
    c.stableId != "" && c.preBoot != "" && c.id in s.ops
    && s.ops[c.id].stableId == c.stableId && s.ops[c.id].preBoot == c.preBoot
  }

  /** The command is on record, in both files alike. */
  predicate Armed(s: State, c: Entry) {
    c.command != "" && c.id in s.ops && s.ops[c.id].command == c.command
  }

  predicate FilesOk(s: State) {
    && (forall id :: id in s.ops ==> s.ops[id].id == id)
    && (s.current.Some? ==>
          var c := s.current.value;
          && c.id in s.ops && !c.phase.Completed? && (!c.phase.Planned? && !c.phase.Failed? ==> Proved(s, c))
          && (c.phase.Planned? ==> s.ops[c.id].command == c.command)
          && (!Less(c.phase, TargetPrepared) && !c.phase.Failed? ==> Armed(s, c)))
  }

  /** The driver's copy agrees with the current file. */
  predicate InStep(s: State, e: Entry) {
    && s.current.Some? && s.current.value.id == e.id && s.current.value.phase == e.phase
    && s.current.value.stableId == e.stableId && s.current.value.preBoot == e.preBoot
    && s.current.value.command == e.command && !e.phase.Failed?
  }

  function Target(u: Update): Phase {
    match u
    case ToPhase(phase, _, _, _, _) => phase
    case ToFailed(_) => Failed
    case ToCompleted(_) => Completed
  }

  predicate UpdateOk(s: State, e: Entry, u: Update, proof: Proof) {
    match u
    case ToPhase(phase, stableId, preBoot, _, command) =>
      && (phase.PrecheckComplete? || Less(RebootIssued, phase) ==> command == "")
      && (phase.TargetPrepared? ==> command != "" && (e.command != "" ==> command == e.command))
      && (Less(TargetPrepared, phase) ==> e.command != "" && (command == "" || command == e.command))
      && Rank(phase) == Rank(e.phase) + 1 && !phase.Failed? && !phase.Completed?
      && (phase.PrecheckComplete? ==> stableId != "" && preBoot != "")
      && (!phase.PrecheckComplete? ==> stableId == "" && preBoot == "" && !e.phase.Planned?)
      && (phase.RebootIssued? ==> Count(s, e.id) == 0)
      && (Less(RebootIssued, phase) ==> Count(s, e.id) == 0 || !Less(e.phase, RebootIssued))
      && (phase.PostReconnectValidated? || phase.ExecutorRebootstrapped? ==>
            ValidTransition(e.stableId, e.preBoot, proof) && !Less(e.phase, WaitingForReconnect))
    case ToFailed(_) => true
    case ToCompleted(postBoot) =>
      ValidTransition(e.stableId, e.preBoot, proof) && postBoot == proof.boot && e.phase.ExecutorRebootstrapped?
  }

  /** The current file after the whole journal call. */
  predicate Landed(s: State, e: Entry, u: Update, proof: Proof) {
    match u
    case ToCompleted(_) => s.current.None? && CompletedWell(s, e.id, proof)
    case ToFailed(_) => s.current.Some? && s.current.value.id == e.id && s.current.value.phase.Failed?
    case ToPhase(_, _, _, _, _) => InStep(s, Mutate(e, u))
  }

  predicate CompletedWell(s: State, id: Id, proof: Proof) {
    && id in s.ops && s.ops[id].phase.Completed?
    && s.ops[id].stableId == proof.stableId && s.ops[id].postBoot == proof.boot
    && s.ops[id].preBoot != s.ops[id].postBoot && s.ops[id].lastError == ""
  }

  predicate MarkOk(s: State, p: Point)
    requires p.Marking?
  {
    && p.e.id in s.ops && UpdateOk(s, p.e, p.u, p.proof)
    && !p.e.phase.Failed? && !p.e.phase.Completed?
    && (InStep(s, p.e) || Landed(s, p.e, p.u, p.proof))
    && (p.u.ToCompleted? || (p.u.ToPhase? && !p.u.phase.PrecheckComplete?) ==>
          s.ops[p.e.id].stableId == p.e.stableId && s.ops[p.e.id].preBoot == p.e.preBoot)
    && (p.u.ToCompleted? || (p.u.ToPhase? && !p.u.phase.TargetPrepared?) ==> s.ops[p.e.id].command == p.e.command)
    && (!p.done.NoneDone? ==> s.ops[p.e.id].phase == Target(p.u))
    && (p.done.OpDone? && p.u.ToPhase? ==>
          var e := Mutate(p.e, p.u);
          s.ops[p.e.id].stableId == e.stableId && s.ops[p.e.id].preBoot == e.preBoot
          && s.ops[p.e.id].command == e.command)
    && (p.done.OpDone? && p.u.ToCompleted? ==> CompletedWell(s, p.e.id, p.proof))
    && (p.done.BothDone? ==> Landed(s, p.e, p.u, p.proof))
  }

  predicate PointOk(s: State) {
    match s.point
    case Idle => true
    case Preparing => true
    case CreatingOp => s.current.None?
    case CreatingCurrent(id) =>
      s.current.None? && id in s.ops && s.ops[id].phase.Planned? && Count(s, id) == 0 && !Returned(s, id)
    case Advancing(e) => InStep(s, e)
    case Issuing(e) =>
      && InStep(s, e) && e.phase.RebootIssued? && Count(s, e.id) == 0
      && s.current.value.id in s.ops && s.ops[e.id].phase.RebootIssued?
    case Seen(e, proof) =>
      InStep(s, e) && !Less(e.phase, WaitingForReconnect) && ValidTransition(e.stableId, e.preBoot, proof)
    case Marking(e, u, proof, done) => MarkOk(s, s.point) && !Returned(s, e.id)
  }

  predicate Returned(s: State, id: Id) {
    exists i :: 0 <= i < |s.returned| && s.returned[i].id == id
  }

  /** An operation whose reboot was issued can only be resumed after the issue step. */
  predicate IssuedOnce(s: State) {
    && (forall id :: id in s.issued ==>
          id in s.ops && s.issued[id] == [s.ops[id].command] && s.ops[id].command != "")
    && (s.current.Some? && s.current.value.id in s.issued ==> !Less(s.current.value.phase, RebootIssued))
    && (s.point.Marking? && s.point.e.id in s.issued ==> !Less(s.point.e.phase, RebootIssued))
  }

  predicate ReturnedWell(s: State) {
    && (forall i :: 0 <= i < |s.returned| ==> CompletedWell(s, s.returned[i].id, s.returned[i].proof))
    && (s.current.Some? ==> !Returned(s, s.current.value.id))
  }

  predicate Inv(s: State) {
    FilesOk(s) && PointOk(s) && IssuedOnce(s) && ReturnedWell(s)
  }

  lemma PrepareKeeps(s: State, ev: Event)
    requires Inv(s) && NextPrepare(s, ev).Some?
    ensures Inv(NextPrepare(s, ev).value)
  {
  }

  lemma ForwardKeeps(s: State, ev: Event)
    requires Inv(s) && NextForward(s, ev).Some?
    ensures Inv(NextForward(s, ev).value)
  {
  }

  lemma IssueKeeps(s: State)
    requires Inv(s) && NextAfter(s, Issue).Some?
    ensures Inv(NextAfter(s, Issue).value)
  {
  }

  lemma FailKeeps(s: State, error: string)
    requires Inv(s) && NextAfter(s, Fail(error)).Some?
    ensures Inv(NextAfter(s, Fail(error)).value)
  {
  }

  lemma AfterKeeps(s: State, ev: Event)
    requires Inv(s) && !ev.Issue? && !ev.Fail? && NextAfter(s, ev).Some?
    ensures Inv(NextAfter(s, ev).value)
  {
  }

  lemma WriteOpKeeps(s: State)
    requires Inv(s) && NextMark(s, WriteOp).Some?
    ensures Inv(NextMark(s, WriteOp).value)
  {
  }

  lemma WriteCurrentKeeps(s: State)
    requires Inv(s) && NextMark(s, WriteCurrent).Some?
    ensures Inv(NextMark(s, WriteCurrent).value)
  {
  }

  lemma RepeatKeeps(s: State)
    requires Inv(s) && NextMark(s, RepeatMark).Some?
    ensures Inv(NextMark(s, RepeatMark).value)
  {
  }

  lemma AcknowledgeKeeps(s: State)
    requires Inv(s) && NextMark(s, Acknowledge).Some?
    ensures Inv(NextMark(s, Acknowledge).value)
  {
    var p := s.point;
    assert Landed(s, p.e, p.u, p.proof);
    if p.u.ToCompleted? {
      var t := Continue(s, p);
      assert forall id :: Returned(t, id) ==> Returned(s, id) || id == p.e.id;
      assert FilesOk(t) && IssuedOnce(t) && ReturnedWell(t);
    }
  }

  lemma EventKeepsInv(s: State, ev: Event)
    requires Inv(s) && Next(s, ev).Some?
    ensures Inv(Next(s, ev).value)
  {
    hide Inv, NextPrepare, NextForward, NextAfter, NextMark;
    match ev
    case Begin => IdleKeeps(s);
    case Die => IdleKeeps(s);
    case Resume | RefuseFailed | DropCompleted | NothingCurrent | CreateOp(_, _) | CreateCurrent | RepeatPrepare =>
      PrepareKeeps(s, ev);
    case Precheck(_) | Prepare(_) | MarkIssued | Wait | Observe(_) => ForwardKeeps(s, ev);
    case Issue => IssueKeeps(s);
    case Fail(error) => FailKeeps(s, error);
    case Validate | Rebootstrap | Complete => AfterKeeps(s, ev);
    case WriteOp => WriteOpKeeps(s);
    case WriteCurrent => WriteCurrentKeeps(s);
    case RepeatMark => RepeatKeeps(s);
    case Acknowledge => AcknowledgeKeeps(s);
  }

  lemma IdleKeeps(s: State)
    requires Inv(s)
    ensures Inv(s.(point := Idle)) && Inv(s.(point := Preparing))
  {
  }

  lemma {:induction false} RunKeepsInv(run: seq<Event>)
    requires Exec(run).Some?
    ensures Inv(Exec(run).value)
  {
    if run == [] {
    } else {
      RunKeepsInv(run[..|run| - 1]);
      EventKeepsInv(Exec(run[..|run| - 1]).value, run[|run| - 1]);
    }
  }

  /** Over any number of aborted and resumed runs the issue step is entered at most once per operation. */
  lemma IssuedAtMostOnce(run: seq<Event>, id: Id)
    requires Exec(run).Some?
    ensures Count(Exec(run).value, id) <= 1
  {
    RunKeepsInv(run);
  }

  /** It is entered only with the proof taken before the reboot, the phase itself and the command in both files; the
      command is the one that is run. */
  lemma IssueFollowsProof(run: seq<Event>)
    requires Exec(run).Some? && Exec(run).value.point.Issuing?
    ensures var s := Exec(run).value; var e := s.point.e;
            && s.current.Some? && s.current.value.id == e.id && e.id in s.ops
            && s.current.value.phase.RebootIssued? && s.ops[e.id].phase.RebootIssued?
            && Proved(s, s.current.value) && e.stableId == s.current.value.stableId
            && e.preBoot == s.current.value.preBoot && Count(s, e.id) == 0
            && e.command != "" && s.current.value.command == e.command && s.ops[e.id].command == e.command
            && Next(s, Issue).Some? && Commands(Next(s, Issue).value, e.id) == [e.command]
  {
    RunKeepsInv(run);
  }

  /** Every success leaves a completed record whose host came back with another boot id and the proved identity;
      and nothing later changes that. */
  lemma SuccessIsProved(run: seq<Event>, i: nat)
    requires Exec(run).Some? && i < |Exec(run).value.returned|
    ensures var s := Exec(run).value; CompletedWell(s, s.returned[i].id, s.returned[i].proof)
  {
    RunKeepsInv(run);
  }

  /** Every copy of the entry of the operation holds the command that was asked for. */
  predicate Requested(u: State, id: Id, command: string) {
    && id in u.ops && u.ops[id].command == command
    && (u.current.Some? && u.current.value.id == id ==> u.current.value.command == command)
    && (u.point.Advancing? || u.point.Issuing? || u.point.Seen? || u.point.Marking? ==>
          (u.point.e.id == id ==> u.point.e.command == command))
    && (u.point.Marking? && u.point.e.id == id && u.point.u.ToPhase? ==> u.point.u.command in {"", command})
  }

  lemma EventKeepsRequested(u: State, ev: Event, id: Id, command: string)
    requires (forall o :: o in u.ops ==> u.ops[o].id == o) && Requested(u, id, command) && command != ""
    requires Next(u, ev).Some?
    ensures Requested(Next(u, ev).value, id, command)
  {
    hide NextPrepare, NextForward, NextAfter, NextMark;
    if NextPrepare(u, ev).Some? { PrepareKeepsRequested(u, ev, id, command); }
    if NextForward(u, ev).Some? { DriverKeepsRequested(u, ev, id, command); }
    if NextAfter(u, ev).Some? { DriverKeepsRequested(u, ev, id, command); }
    if NextMark(u, ev).Some? { MarkKeepsRequested(u, ev, id, command); }
  }

  lemma PrepareKeepsRequested(u: State, ev: Event, id: Id, command: string)
    requires (forall o :: o in u.ops ==> u.ops[o].id == o) && Requested(u, id, command)
    requires NextPrepare(u, ev).Some?
    ensures Requested(NextPrepare(u, ev).value, id, command)
  {
  }

  lemma DriverKeepsRequested(u: State, ev: Event, id: Id, command: string)
    requires Requested(u, id, command) && command != ""
    ensures NextForward(u, ev).Some? ==> Requested(NextForward(u, ev).value, id, command)
    ensures NextAfter(u, ev).Some? ==> Requested(NextAfter(u, ev).value, id, command)
  {
    hide Less, ValidTransition;
  }

  lemma MarkKeepsRequested(u: State, ev: Event, id: Id, command: string)
    requires (forall o :: o in u.ops ==> u.ops[o].id == o) && Requested(u, id, command)
    requires NextMark(u, ev).Some?
    ensures Requested(NextMark(u, ev).value, id, command)
  {
  }

  /** A command that the request names is the one that is issued, if any is, over any number of runs; only where it
      names none does the host choose. */
  lemma {:induction false} RequestedCommandIsIssued(run: seq<Event>, id: Id, command: string, more: seq<Event>)
    requires Exec(run).Some? && Next(Exec(run).value, CreateOp(id, command)).Some? && command != ""
    requires Exec(run + [CreateOp(id, command)] + more).Some?
    ensures var t := Exec(run + [CreateOp(id, command)] + more).value;
            Requested(t, id, command) && Commands(t, id) <= [command]
  {
    var create := run + [CreateOp(id, command)];
    RunKeepsInv(create + more);
    if more == [] {
      assert create + more == create && create[..|create| - 1] == run;
      RunKeepsInv(run);
    } else {
      var shorter := create + more[..|more| - 1];
      assert (create + more)[..|create + more| - 1] == shorter;
      RequestedCommandIsIssued(run, id, command, more[..|more| - 1]);
      RunKeepsInv(shorter);
      EventKeepsRequested(Exec(shorter).value, more[|more| - 1], id, command);
    }
  }

  /** `u` is a state after one in which the current file held `c`. */
  predicate After(c: Entry, u: State) {
    && c.id in u.ops
    && (u.current.Some? && u.current.value.id == c.id ==>
          Rank(c.phase) <= Rank(u.current.value.phase))
    && (u.point.CreatingCurrent? ==> u.point.id != c.id)
  }

  lemma EventKeepsAfter(c: Entry, u: State, ev: Event)
    requires Inv(u) && After(c, u) && Next(u, ev).Some?
    ensures After(c, Next(u, ev).value)
  {
    hide ReturnedWell, IssuedOnce, InStep, Landed, Proved, CompletedWell, UpdateOk;
    if ev.WriteCurrent? {
      hide Next;
      assert Next(u, ev) == NextMark(u, WriteCurrent) by { WriteIsMark(u); }
      WriteKeepsAfter(c, u);
    } else {
      hide NextForward, NextAfter, NextPrepare, NextMark;
      OtherFilesStay(u, ev);
      if NextPrepare(u, ev).Some? { PrepareKeepsAfter(c, u, ev); }
      if NextMark(u, ev).Some? { MarkKeepsAfter(c, u, ev); }
    }
  }

  lemma PrepareKeepsAfter(c: Entry, u: State, ev: Event)
    requires Inv(u) && After(c, u) && NextPrepare(u, ev).Some?
    ensures After(c, NextPrepare(u, ev).value)
  {
    hide ReturnedWell, IssuedOnce, InStep, Landed, Proved, CompletedWell, UpdateOk;
  }

  lemma MarkKeepsAfter(c: Entry, u: State, ev: Event)
    requires Inv(u) && After(c, u) && NextMark(u, ev).Some? && !ev.WriteCurrent?
    ensures After(c, NextMark(u, ev).value)
  {
    hide ReturnedWell, IssuedOnce, InStep, Landed, Proved, CompletedWell, UpdateOk;
  }

  lemma WriteIsMark(u: State)
    ensures Next(u, WriteCurrent) == NextMark(u, WriteCurrent)
  {}

  lemma WriteKeepsAfter(c: Entry, u: State)
    requires Inv(u) && After(c, u) && NextMark(u, WriteCurrent).Some?
    ensures After(c, NextMark(u, WriteCurrent).value)
  {
    hide ReturnedWell, IssuedOnce, CompletedWell;
    assert MarkOk(u, u.point);
  }

  /** Steps of the driver between its journal calls touch no file. */
  lemma OtherFilesStay(u: State, ev: Event)
    ensures NextForward(u, ev).Some? ==>
              NextForward(u, ev).value.ops == u.ops && NextForward(u, ev).value.current == u.current
              && !NextForward(u, ev).value.point.CreatingCurrent?
    ensures NextAfter(u, ev).Some? ==>
              NextAfter(u, ev).value.ops == u.ops && NextAfter(u, ev).value.current == u.current
              && !NextAfter(u, ev).value.point.CreatingCurrent?
  {
    hide Less, Count, ValidTransition;
  }

  /** The phase rank of a current record never falls, over any number of runs, up to its removal;
      in particular a failed one stays failed. */
  lemma {:induction false} RankNeverFalls(run: seq<Event>, more: seq<Event>)
    requires Exec(run).Some? && Exec(run).value.current.Some? && Exec(run + more).Some?
    ensures After(Exec(run).value.current.value, Exec(run + more).value)
  {
    if more == [] {
      assert run + more == run;
      RunKeepsInv(run);
    } else {
      var shorter := run + more[..|more| - 1];
      assert (run + more)[..|run + more| - 1] == shorter;
      RankNeverFalls(run, more[..|more| - 1]);
      RunKeepsInv(shorter);
      EventKeepsAfter(Exec(run).value.current.value, Exec(shorter).value, more[|more| - 1]);
    }
  }

  /** What a journal call has written so far stays as it is when it is written again. */
  predicate WrittenOnce(s: State) {
    s.point.Marking? ==>
      var id, u := s.point.e.id, s.point.u;
      && (!s.point.done.NoneDone? ==> id in s.ops && Mutate(s.ops[id], u) == s.ops[id])
      && (s.point.done.BothDone? ==> s.current == if s.ops[id].phase.Completed? then None else Some(s.ops[id]))
  }

  lemma {:induction false} RunKeepsWrittenOnce(run: seq<Event>)
    requires Exec(run).Some?
    ensures WrittenOnce(Exec(run).value)
  {
    if run == [] {
    } else {
      hide NextPrepare, NextForward, NextAfter, NextMark, WrittenOnce;
      var s, ev := Exec(run[..|run| - 1]).value, run[|run| - 1];
      RunKeepsWrittenOnce(run[..|run| - 1]);
      StepsKeepWrittenOnce(s, ev);
      if ev.Begin? || ev.Die? { NotMarking(Exec(run).value); }
    }
  }

  lemma NotMarking(s: State)
    ensures !s.point.Marking? ==> WrittenOnce(s)
  {
  }

  lemma StepsKeepWrittenOnce(s: State, ev: Event)
    requires WrittenOnce(s)
    ensures NextPrepare(s, ev).Some? ==> WrittenOnce(NextPrepare(s, ev).value)
    ensures NextForward(s, ev).Some? ==> WrittenOnce(NextForward(s, ev).value)
    ensures NextAfter(s, ev).Some? ==> WrittenOnce(NextAfter(s, ev).value)
    ensures NextMark(s, ev).Some? ==> WrittenOnce(NextMark(s, ev).value)
  {
    hide Less, ValidTransition, Count;
  }

  /** A journal call that is repeated because its answer was lost changes nothing: both writes give the same files. */
  lemma RepeatedCallChangesNothing(run: seq<Event>)
    requires Exec(run).Some? && Exec(run).value.point.Marking? && Exec(run).value.point.done.BothDone?
    ensures Exec(run + [RepeatMark, WriteOp, WriteCurrent]) == Exec(run)
  {
    hide Exec;
    RunKeepsWrittenOnce(run);
    var s := Exec(run).value;
    var id := s.point.e.id;
    var s1 := s.(point := s.point.(done := NoneDone));
    var s2 := s.(point := s.point.(done := OpDone));
    assert s.ops[id := s.ops[id]] == s.ops;
    OneMore(run, RepeatMark, s, s1);
    OneMore(run + [RepeatMark], WriteOp, s1, s2);
    OneMore(run + [RepeatMark] + [WriteOp], WriteCurrent, s2, s);
    assert run + [RepeatMark] + [WriteOp] + [WriteCurrent] == run + [RepeatMark, WriteOp, WriteCurrent];
  }

  lemma OneMore(run: seq<Event>, ev: Event, s: State, t: State)
    requires Exec(run) == Some(s) && Next(s, ev) == Some(t)
    ensures Exec(run + [ev]) == Some(t)
  {
    assert (run + [ev])[..|run|] == run;
  }

  /** A prepare call that is repeated before its answer finds no current record and can create one. */
  lemma RepeatedPrepareStartsOver(run: seq<Event>)
    requires Exec(run).Some? && (Exec(run).value.point.CreatingOp? || Exec(run).value.point.CreatingCurrent?)
    ensures Exec(run + [RepeatPrepare, NothingCurrent]) == Some(Exec(run).value.(point := CreatingOp))
  {
    hide Exec;
    RunKeepsInv(run);
    var s := Exec(run).value;
    OneMore(run, RepeatPrepare, s, s.(point := Preparing));
    OneMore(run + [RepeatPrepare], NothingCurrent, s.(point := Preparing), s.(point := CreatingOp));
    assert run + [RepeatPrepare] + [NothingCurrent] == run + [RepeatPrepare, NothingCurrent];
  }

  /** The order of the phases. */
  lemma PhasesAreInOrder(i: nat, j: nat)
    requires i < |PHASES| && j < |PHASES|
    ensures Less(PHASES[i], PHASES[j]) <==> i < j
  {
    assert forall k :: 0 <= k < |PHASES| ==> Rank(PHASES[k]) == k;
  }

  const PHASES := [
    Planned, PrecheckComplete, TargetPrepared, RebootIssued, WaitingForReconnect, PostReconnectValidated,
    ExecutorRebootstrapped, Completed, Failed]

  /** No phase is skipped: the current record moves to the next phase or to failed, and it is completed from the last
      phase only. */
  lemma NoPhaseIsSkipped(run: seq<Event>, ev: Event)
    requires Exec(run).Some? && Next(Exec(run).value, ev).Some? && Exec(run).value.current.Some?
    ensures var c, after := Exec(run).value.current.value, Next(Exec(run).value, ev).value.current;
            if after.None? then c.phase.ExecutorRebootstrapped?
            else
              && after.value.id == c.id
              && (after.value.phase == c.phase || after.value.phase.Failed?
                  || Rank(after.value.phase) == Rank(c.phase) + 1)
  {
    hide NextForward, NextAfter, ReturnedWell, IssuedOnce, Exec, CompletedWell;
    RunKeepsInv(run);
    var s := Exec(run).value;
    OtherFilesStay(s, ev);
    if ev.WriteCurrent? {
      assert MarkOk(s, s.point);
    }
  }

  /** The current file disappears only when the operation is recorded as completed. */
  lemma RemovedOnlyWhenCompleted(run: seq<Event>, ev: Event)
    requires Exec(run).Some? && Next(Exec(run).value, ev).Some?
    requires Exec(run).value.current.Some? && Next(Exec(run).value, ev).value.current.None?
    ensures var id := Exec(run).value.current.value.id; var t := Next(Exec(run).value, ev).value;
            id in t.ops && t.ops[id].phase.Completed?
  {
    hide NextForward, NextAfter, ReturnedWell, IssuedOnce, Exec;
    RunKeepsInv(run);
    var s := Exec(run).value;
    OtherFilesStay(s, ev);
    if ev.WriteCurrent? {
      assert MarkOk(s, s.point);
    }
  }
}

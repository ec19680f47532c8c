/** One undisturbed run of restartHostUnsafe over the journal files. Everything the host answers is an input. */
module RestartHost {
  import opened Reboot
  import opened RebootSafety

  /** SelectRebootCommand never answers with an empty command. */
  type HostCommand = c: string | c != "" witness "reboot"

  type HostProof = p: Proof | p.stableId != "" && p.boot != "" witness Proof("m", "b")

  /** One pass of the reconnect loop: no proof if the host could not be reached or read. */
  datatype Attempt = Attempt(proof: Option<HostProof>, ready: bool)

  /** The answers of the outside world, in the order they are asked for; the last one says whether the journal call that
      records a failure, whose error is ignored, gets through. */
  datatype Answers = Answers(
    freshId: Id, precheck: Option<HostProof>, command: Option<HostCommand>, issueFails: bool, resetFails: bool,
    attempts: seq<Attempt>, settleFails: bool, ensureFails: bool, cleanupFails: bool,
    failRecorded: bool)

  datatype Verdict = Accepted | Unchanged | Foreign

  /** validateRebootTransition. */
  function Judge(stableId: string, preBoot: string, post: HostProof): Verdict {
    if stableId == "" || preBoot == "" then Foreign
    else if post.stableId != stableId then Foreign
    else if post.boot == preBoot then Unchanged
    else Accepted
  }

  /** A pass ends the loop: the host is another one, or it proved the reboot and is ready. */
  predicate Decides(stableId: string, preBoot: string, attempt: Attempt) {
    && attempt.proof.Some?
    && var verdict := Judge(stableId, preBoot, attempt.proof.value);
    verdict.Foreign? || (verdict.Accepted? && attempt.ready)
  }

  /** The first pass that ends the loop, or the number of passes if none does. */
  function Decisive(stableId: string, preBoot: string, attempts: seq<Attempt>, from: nat): (k: nat)
    requires from <= |attempts|
    ensures from <= k <= |attempts|
    ensures k < |attempts| ==> Decides(stableId, preBoot, attempts[k])
    ensures forall i :: from <= i < k ==> !Decides(stableId, preBoot, attempts[i])
    decreases |attempts| - from
  {
    if from == |attempts| || Decides(stableId, preBoot, attempts[from]) then from
    else Decisive(stableId, preBoot, attempts, from + 1)
  }

  predicate Proves(stableId: string, preBoot: string, attempts: seq<Attempt>, k: nat) {
    k < |attempts| && attempts[k].proof.Some? && Judge(stableId, preBoot, attempts[k].proof.value).Accepted?
  }

  /** A pass that could read the host ends the loop with a failure if the identity changed or there is none to compare
      with, and with success if the boot id changed under the same identity and the host is ready; any other pass is
      followed by the next. */
  lemma JudgedByIdentityAndBoot(stableId: string, preBoot: string, attempts: seq<Attempt>, k: nat)
    requires k < |attempts|
    ensures var a := attempts[k];
            && (Decides(stableId, preBoot, a) <==>
                a.proof.Some? && (preBoot == "" || a.proof.value.stableId != stableId
                                  || (a.proof.value.boot != preBoot && a.ready)))
            && (Proves(stableId, preBoot, attempts, k) <==>
                a.proof.Some? && preBoot != "" && a.proof.value.stableId == stableId && a.proof.value.boot != preBoot)
  {
  }

  /** The answers let a run that starts from `e` get as far as the wait for the host. */
  predicate GetsAway(e: Entry, a: Answers) {
    && (Less(e.phase, PrecheckComplete) ==> a.precheck.Some?)
    && (Less(e.phase, TargetPrepared) && e.command == "" ==> a.command.Some?)
    && (Less(e.phase, RebootIssued) ==> !a.issueFails)
    && (Less(e.phase, WaitingForReconnect) ==> !a.resetFails)
  }

  /** The run comes to the issue step. */
  predicate ReachesIssue(e: Entry, a: Answers) {
    && Less(e.phase, RebootIssued)
    && (Less(e.phase, PrecheckComplete) ==> a.precheck.Some?)
    && (Less(e.phase, TargetPrepared) && e.command == "" ==> a.command.Some?)
  }

  /** The command of a run that starts from `e`: the one on record, or else the one the host was found to have. */
  function CommandOf(e: Entry, a: Answers): string {
    if e.command == "" && a.command.Some? then a.command.value else e.command
  }

  /** The issue history after a run that enters the issue step of `id` once with `command`, or not. */
  function Issued(s: State, id: Id, entered: bool, command: string): map<Id, seq<string>> {
    if entered then s.issued[id := Commands(s, id) + [command]] else s.issued
  }

  /** The identity and boot id the host proved before the reboot. */
  function Before(e: Entry, a: Answers): (string, string) {
    if Less(e.phase, PrecheckComplete) && a.precheck.Some? then (a.precheck.value.stableId, a.precheck.value.boot)
    else (e.stableId, e.preBoot)
  }

  /** When a run that nobody disturbs succeeds: `e` is the entry it starts from. */
  predicate Succeeds(e: Entry, a: Answers) {
    && !e.phase.Failed?
    && GetsAway(e, a)
    && (var (stableId, preBoot) := Before(e, a);
        Proves(stableId, preBoot, a.attempts, Decisive(stableId, preBoot, a.attempts, 0)))
    && FinishesWell(e, a)
  }

  /** What comes after the proof works out: settling and the executor, unless they are behind it, and the cleanup. */
  predicate FinishesWell(e: Entry, a: Answers) {
    (Less(e.phase, ExecutorRebootstrapped) ==> !a.settleFails && !a.ensureFails) && !a.cleanupFails
  }

  function FirstEntry(current: Option<Entry>, freshId: Id, command: string): Entry {
    if current.Some? then current.value else Entry(freshId, Planned, "", "", "", command, "")
  }

  // Which journal call each step of the driver makes.

  lemma StepPrepare(s: State, e: Entry, command: string)
    requires s.point == Advancing(e) && e.phase.PrecheckComplete? && e.stableId != "" && e.preBoot != ""
    requires command != "" && (e.command != "" ==> command == e.command)
    ensures Next(s, Prepare(command)) == Some(Mark(s, e, ToPhase(TargetPrepared, "", "", "", command), NO_PROOF))
  {
  }

  lemma StepIssue(s: State, e: Entry)
    requires s.point == Advancing(e) && e.phase.TargetPrepared? && e.stableId != "" && e.preBoot != ""
    ensures Next(s, MarkIssued) == Some(Mark(s, e, ToPhase(RebootIssued, "", "", "", e.command), NO_PROOF))
  {
  }

  lemma StepObserve(s: State, e: Entry, proof: HostProof)
    requires s.point == Advancing(e) && !Less(e.phase, WaitingForReconnect)
    requires Judge(e.stableId, e.preBoot, proof).Accepted?
    ensures Next(s, Observe(proof)) == Some(s.(point := Seen(e, proof)))
  {
  }

  lemma StepFinish(s: State, e: Entry, proof: HostProof)
    requires s.point == Seen(e, proof)
    ensures Less(e.phase, PostReconnectValidated) ==>
      Next(s, Validate) == Some(Mark(s, e, ToPhase(PostReconnectValidated, "", "", proof.boot, ""), proof))
    ensures e.phase.PostReconnectValidated? ==>
      Next(s, Rebootstrap) == Some(Mark(s, e, PhaseUpdate(ExecutorRebootstrapped), proof))
    ensures !Less(e.phase, ExecutorRebootstrapped) ==>
      Next(s, Complete) == Some(Mark(s, e, ToCompleted(proof.boot), proof))
  {
  }

  lemma StepAcknowledge(s: State)
    requires s.point.Marking? && s.point.done.BothDone?
    ensures Next(s, Acknowledge) == Some(Continue(s, s.point))
    ensures var t := Continue(s, s.point);
            && t.ops == s.ops && t.current == s.current && t.issued == s.issued
            && t.returned == s.returned
                             + (if s.point.u.ToCompleted? then [Outcome(s.point.e.id, s.point.proof)] else [])
    ensures forall r: State :: Continue(r, s.point).point == Continue(s, s.point).point
  {
  }

  class Host {
    var ops: map<Id, Entry>
    var current: Option<Entry>
    ghost var state: State
    ghost var run: seq<Event>

    ghost predicate Valid()
      reads this
    {
      Exec(run) == Some(state) && state.ops == ops && state.current == current
    }

    constructor ()
      ensures Valid() && state == START
    {
      ops, current := map[], None;
      state, run := START, [];
    }

    ghost method Note(ev: Event)
      requires Exec(run) == Some(state) && Next(state, ev).Some?
      requires Next(state, ev).value.ops == ops && Next(state, ev).value.current == current
      modifies this`state, this`run
      ensures Valid() && state == Next(old(state), ev).value && run == old(run) + [ev]
    {
      assert (run + [ev])[..|run|] == run;
      state := Next(state, ev).value;
      run := run + [ev];
    }

    lemma Holds()
      requires Valid()
      ensures Inv(state)
    {
      RunKeepsInv(run);
    }

    /** rebootJournal.update: read, change, write the operation file, then write or remove the current file. */
    method Update(id: Id, u: Update)
      requires Valid() && id in ops
      requires state.point.Marking? && state.point.e.id == id && state.point.u == u && state.point.done.NoneDone?
      modifies this
      ensures Valid() && old(run) <= run && state.point == old(state).point.(done := BothDone)
      ensures ops == old(ops)[id := Mutate(old(ops)[id], u)]
      ensures current == if ops[id].phase.Completed? then None else Some(ops[id])
      ensures state.issued == old(state).issued && state.returned == old(state).returned
    {
      var entry := Mutate(ops[id], u);
      ops := ops[id := entry];
      Note(WriteOp);
      if entry.phase.Completed? {
        current := None;
      } else {
        current := Some(entry);
      }
      Note(WriteCurrent);
    }

    /** One journal call of the driver, answered. */
    method Call(e: Entry, u: Update, ghost proof: Proof, ghost ev: Event) returns (next: Entry)
      requires Valid() && e.id in ops && Next(state, ev) == Some(Mark(state, e, u, proof))
      modifies this
      ensures Valid() && old(run) <= run && next == Mutate(e, u)
      ensures state.point == Continue(old(state), Marking(e, u, proof, BothDone)).point
      ensures state.issued == old(state).issued && e.id in ops && ops[e.id] == Mutate(old(ops)[e.id], u)
      ensures current == if ops[e.id].phase.Completed? then None else Some(ops[e.id])
      ensures state.returned == old(state).returned + (if u.ToCompleted? then [Outcome(e.id, proof)] else [])
    {
      hide Exec, Next, Continue;
      Note(ev);
      Update(e.id, u);
      StepAcknowledge(state);
      Note(Acknowledge);
      next := Mutate(e, u);
    }

    /** failReboot: the error of the journal call is ignored. */
    method FailReboot(e: Entry, error: string, recorded: bool)
      requires Valid() && e.id in ops && (state.point == Advancing(e) || (state.point.Seen? && state.point.e == e))
      modifies this
      ensures Valid() && old(run) <= run && state.point.Idle? && e.id in ops
      ensures ops[e.id].command == old(ops)[e.id].command
      ensures recorded ==> current.Some? && current.value.id == e.id && current.value.phase.Failed?
      ensures recorded ==> current.value.lastError == error && current.value == ops[e.id]
      ensures !recorded ==> ops == old(ops) && current == old(current)
      ensures state.returned == old(state).returned && state.issued == old(state).issued
    {
      hide Exec;
      if recorded {
        Holds();
        var _ := Call(e, ToFailed(error), NO_PROOF, Fail(error));
      } else {
        Note(Die);
      }
    }

    /** prepareRebootJournal; no entry if the last run of this request is recorded as failed. */
    method PrepareJournal(freshId: Id, command: string) returns (prepared: Option<Entry>)
      requires Valid() && state.point.Idle? && freshId !in ops
      modifies this
      ensures Valid() && old(run) <= run
      ensures prepared.None? <==> FirstEntry(old(current), freshId, command).phase.Failed?
      ensures prepared.Some? ==> prepared.value == FirstEntry(old(current), freshId, command)
      ensures prepared.Some? ==> state.point == Advancing(prepared.value) && prepared.value.id in ops
      ensures prepared.None? ==> state.point.Idle? && current == old(current)
      ensures state.returned == old(state).returned && state.issued == old(state).issued
    {
      hide Exec;
      Holds();
      Note(Begin);
      if current.Some? && current.value.phase.Failed? {
        Note(RefuseFailed);
        return None;
      }
      if current.Some? {
        Note(Resume);
        return Some(current.value);
      }
      Note(NothingCurrent);
      ops := ops[freshId := Entry(freshId, Planned, "", "", "", command, "")];
      Note(CreateOp(freshId, command));
      current := Some(ops[freshId]);
      Note(CreateCurrent);
      prepared := Some(ops[freshId]);
    }

    /** The check of restartHostUnsafe for a missing proof (line 183) never fires on a journal of its own. */
    lemma NotYetOver()
      requires Valid() && state.point.Advancing?
      ensures !state.point.e.phase.Failed? && !state.point.e.phase.Completed?
    {
      Holds();
    }

    lemma ProofIsOnRecord()
      requires Valid() && state.point.Advancing? && !state.point.e.phase.Planned?
      ensures state.point.e.stableId != "" && state.point.e.preBoot != ""
    {
      Holds();
    }

    lemma CommandIsOnRecord()
      requires Valid() && state.point.Advancing? && !Less(state.point.e.phase, TargetPrepared)
      ensures var e := state.point.e; e.command != "" && e.id in ops && ops[e.id].command == e.command
    {
      Holds();
    }

    /** The driver up to the recorded host proof. */
    method TakeProof(first: Entry, a: Answers) returns (e: Entry, ok: bool)
      requires Valid() && state.point == Advancing(first) && first.id in ops
      modifies this
      ensures Valid() && old(run) <= run && e.id == first.id && e.id in ops
      ensures state.issued == old(state).issued
      ensures ok <==> (Less(first.phase, PrecheckComplete) ==> a.precheck.Some?)
      ensures ok ==> state.point == Advancing(e) && e.stableId != "" && e.preBoot != "" && e.command == first.command
      ensures ok && !Less(first.phase, PrecheckComplete) ==> e == first
      ensures ok ==> !e.phase.Planned?
      ensures ok && Less(first.phase, PrecheckComplete) ==>
        e.phase.PrecheckComplete? && e.stableId == a.precheck.value.stableId && e.preBoot == a.precheck.value.boot
      ensures !ok ==> GaveUp(e.id, a.failRecorded)
    {
      hide Exec;
      e := first;
      if Less(e.phase, PrecheckComplete) {
        if a.precheck.None? {
          FailReboot(e, "incomplete host proof", a.failRecorded);
          return e, false;
        }
        var pre := a.precheck.value;
        e := Call(e, ToPhase(PrecheckComplete, pre.stableId, pre.boot, "", ""), pre, Precheck(pre));
      }
      ProofIsOnRecord();
      ok := true;
    }

    /** The run ended, with the operation recorded as failed if the journal took it. */
    ghost predicate GaveUp(id: Id, recorded: bool)
      reads this
    {
      && state.point.Idle?
      && (recorded ==> current.Some? && current.value.id == id && current.value.phase.Failed?)
    }

    /** Running the reboot command. */
    ghost method EnterIssue(e: Entry)
      requires Valid() && state.point == Issuing(e)
      modifies this`state, this`run
      ensures Valid() && old(run) <= run && state.point == Advancing(e)
      ensures state.issued == Issued(old(state), e.id, true, e.command) && state.returned == old(state).returned
    {
      Note(Issue);
    }

    /** From the recorded proof to the prepared target. */
    method PrepareTarget(first: Entry, a: Answers) returns (e: Entry, ok: bool)
      requires Valid() && state.point == Advancing(first) && first.id in ops
      requires first.stableId != "" && first.preBoot != "" && !first.phase.Planned?
      modifies this
      ensures Valid() && old(run) <= run && e.id == first.id && e.id in ops
      ensures state.issued == old(state).issued
      ensures ok <==> (Less(first.phase, TargetPrepared) && first.command == "" ==> a.command.Some?)
      ensures ok ==> state.point == Advancing(e) && e.stableId == first.stableId && e.preBoot == first.preBoot
      ensures ok ==> e.phase == if Less(first.phase, TargetPrepared) then TargetPrepared else first.phase
      ensures ok ==> e.command == CommandOf(first, a) != "" && ops[e.id].command == e.command
      ensures !ok ==> GaveUp(e.id, a.failRecorded)
    {
      hide Exec, Next;
      e := first;
      if Less(e.phase, TargetPrepared) {
        if e.command == "" && a.command.None? {
          FailReboot(e, "no supported reboot command found on host", a.failRecorded);
          return e, false;
        }
        var command := if e.command == "" then a.command.value else e.command;
        StepPrepare(state, e, command);
        e := Call(e, ToPhase(TargetPrepared, "", "", "", command), NO_PROOF, Prepare(command));
      }
      CommandIsOnRecord();
      ok := true;
    }

    /** From the prepared target to the issued reboot. */
    method IssueReboot(first: Entry, a: Answers) returns (e: Entry, ok: bool)
      requires Valid() && state.point == Advancing(first) && first.id in ops
      requires first.stableId != "" && first.preBoot != "" && !Less(first.phase, TargetPrepared)
      modifies this
      ensures Valid() && old(run) <= run && e.id == first.id && e.id in ops
      ensures state.issued == Issued(old(state), first.id, Less(first.phase, RebootIssued), first.command)
      ensures ops[e.id].command == old(ops)[e.id].command && e.command == first.command
      ensures ok <==> (Less(first.phase, RebootIssued) ==> !a.issueFails)
      ensures ok ==> state.point == Advancing(e) && e.stableId == first.stableId && e.preBoot == first.preBoot
      ensures ok ==> e.phase == if Less(first.phase, RebootIssued) then RebootIssued else first.phase
      ensures !ok ==> GaveUp(e.id, a.failRecorded)
    {
      hide Exec, Next;
      e := first;
      CommandIsOnRecord();
      if Less(e.phase, RebootIssued) {
        StepIssue(state, e);
        e := Call(e, ToPhase(RebootIssued, "", "", "", e.command), NO_PROOF, MarkIssued);
        EnterIssue(e);
        if a.issueFails {
          FailReboot(e, "issue reboot command failed", a.failRecorded);
          return e, false;
        }
      }
      ok := true;
    }

    /** From the issued reboot to the wait for the host. */
    method BeginWait(first: Entry, a: Answers) returns (e: Entry, ok: bool)
      requires Valid() && state.point == Advancing(first) && first.id in ops
      requires first.stableId != "" && first.preBoot != "" && !Less(first.phase, RebootIssued)
      modifies this
      ensures Valid() && old(run) <= run && e.id == first.id && e.id in ops
      ensures state.issued == old(state).issued
      ensures ops[e.id].command == old(ops)[e.id].command && e.command == first.command
      ensures ok <==> (Less(first.phase, WaitingForReconnect) ==> !a.resetFails)
      ensures ok ==> state.point == Advancing(e) && e.stableId == first.stableId && e.preBoot == first.preBoot
      ensures ok ==> e.phase == if Less(first.phase, WaitingForReconnect) then WaitingForReconnect else first.phase
      ensures !ok ==> GaveUp(e.id, a.failRecorded)
    {
      hide Exec;
      e := first;
      if Less(e.phase, WaitingForReconnect) {
        if a.resetFails {
          FailReboot(e, "reset session", a.failRecorded);
          return e, false;
        }
        e := Call(e, PhaseUpdate(WaitingForReconnect), NO_PROOF, Wait);
      }
      ok := true;
    }

    /** The reconnect loop: the first pass that decides, if any. */
    method AwaitHost(stableId: string, preBoot: string, attempts: seq<Attempt>) returns (k: nat)
      ensures k == Decisive(stableId, preBoot, attempts, 0)
    {
      k := 0;
      while k < |attempts|
        invariant k <= |attempts|
        invariant Decisive(stableId, preBoot, attempts, 0) == Decisive(stableId, preBoot, attempts, k)
      {
        if attempts[k].proof.Some? {
          var verdict := Judge(stableId, preBoot, attempts[k].proof.value);
          if verdict.Foreign? || (verdict.Accepted? && attempts[k].ready) {
            return;
          }
        }
        k := k + 1;
      }
    }

    /** The host is back and proved the reboot: settle and bring the executor back. */
    method Rebootstrap(first: Entry, proof: HostProof, a: Answers) returns (e: Entry, ok: bool)
      requires Valid() && state.point == Seen(first, proof) && first.id in ops
      requires !Less(first.phase, WaitingForReconnect) && !first.phase.Failed? && !first.phase.Completed?
      modifies this
      ensures Valid() && old(run) <= run && e.id == first.id && e.id in ops && state.returned == old(state).returned
      ensures ops[e.id].command == old(ops)[e.id].command
      ensures state.issued == old(state).issued
      ensures ok <==> (Less(first.phase, ExecutorRebootstrapped) ==> !a.settleFails && !a.ensureFails)
      ensures ok ==> state.point == Seen(e, proof) && e.phase.ExecutorRebootstrapped?
      ensures ok && Less(first.phase, PostReconnectValidated) ==> e.postBoot == ops[e.id].postBoot == proof.boot
      ensures !ok ==> GaveUp(first.id, a.failRecorded)
    {
      hide Exec, Next;
      e := first;
      StepFinish(state, e, proof);
      if Less(e.phase, PostReconnectValidated) {
        e := Call(e, ToPhase(PostReconnectValidated, "", "", proof.boot, ""), proof, Validate);
        StepFinish(state, e, proof);
      }
      if Less(e.phase, ExecutorRebootstrapped) {
        if a.settleFails || a.ensureFails {
          FailReboot(e, "executor not back", a.failRecorded);
          return e, false;
        }
        e := Call(e, PhaseUpdate(ExecutorRebootstrapped), proof, Event.Rebootstrap);
      }
      ok := true;
    }

    /** From the proved reboot to the completed operation. */
    method FinishReboot(first: Entry, proof: HostProof, a: Answers) returns (ok: bool)
      requires Valid() && state.point == Seen(first, proof) && first.id in ops
      requires !Less(first.phase, WaitingForReconnect) && !first.phase.Failed? && !first.phase.Completed?
      modifies this
      ensures Valid() && old(run) <= run && first.id in ops && state.point.Idle?
      ensures ops[first.id].command == old(ops)[first.id].command
      ensures state.issued == old(state).issued
      ensures ok <==> FinishesWell(first, a)
      ensures ok ==> current.None? && state.returned == old(state).returned + [Outcome(first.id, proof)]
      ensures !ok ==> GaveUp(first.id, a.failRecorded)
    {
      hide Exec, Next;
      var e;
      e, ok := Rebootstrap(first, proof, a);
      if !ok { return; }
      if a.cleanupFails {
        FailReboot(e, "cleanup reboot artifacts", a.failRecorded);
        return false;
      }
      StepFinish(state, e, proof);
      e := Call(e, ToCompleted(proof.boot), proof, Complete);
      ok := true;
    }

    /** The wait for the host, and what follows it. */
    method AwaitAndFinish(first: Entry, a: Answers) returns (ok: bool)
      requires Valid() && state.point == Advancing(first) && first.id in ops
      requires !Less(first.phase, WaitingForReconnect)
      modifies this
      ensures Valid() && old(run) <= run && state.point.Idle?
      ensures first.id in ops && ops[first.id].command == old(ops)[first.id].command
      ensures state.issued == old(state).issued
      ensures var k := Decisive(first.stableId, first.preBoot, a.attempts, 0);
              ok <==> Proves(first.stableId, first.preBoot, a.attempts, k) && FinishesWell(first, a)
      ensures ok ==> current.None? && Vouched(first.id, a)
      ensures !ok ==> GaveUp(first.id, a.failRecorded)
    {
      hide Exec, Next, Inv;
      NotYetOver();
      var k := AwaitHost(first.stableId, first.preBoot, a.attempts);
      if !(k < |a.attempts| && Judge(first.stableId, first.preBoot, a.attempts[k].proof.value).Accepted?) {
        FailReboot(first, "host did not prove the reboot", a.failRecorded);
        return false;
      }
      StepObserve(state, first, a.attempts[k].proof.value);
      Note(Observe(a.attempts[k].proof.value));
      ok := FinishReboot(first, a.attempts[k].proof.value, a);
      if ok {
        SuccessIsProved(run, |state.returned| - 1);
      }
    }

    /** The operation is completed with the proof of one of the passes. */
    ghost predicate Vouched(id: Id, a: Answers)
      reads this
    {
      exists k :: 0 <= k < |a.attempts| && a.attempts[k].proof.Some?
                  && CompletedWell(state, id, a.attempts[k].proof.value)
    }

    /** From the recorded proof to the issued reboot. */
    method GetIssued(first: Entry, a: Answers) returns (e: Entry, ok: bool)
      requires Valid() && state.point == Advancing(first) && first.id in ops
      requires first.stableId != "" && first.preBoot != "" && !Less(first.phase, PrecheckComplete)
      modifies this
      ensures Valid() && old(run) <= run && e.id == first.id && e.id in ops
      ensures state.issued == Issued(old(state), first.id, ReachesIssue(first, a), CommandOf(first, a))
      ensures ok <==> (Less(first.phase, TargetPrepared) && first.command == "" ==> a.command.Some?)
                      && (Less(first.phase, RebootIssued) ==> !a.issueFails)
      ensures ok ==> state.point == Advancing(e) && e.stableId == first.stableId && e.preBoot == first.preBoot
      ensures ok ==> e.phase == if Less(first.phase, RebootIssued) then RebootIssued else first.phase
      ensures ok ==> ops[e.id].command == e.command == CommandOf(first, a) != ""
      ensures !ok ==> GaveUp(first.id, a.failRecorded)
    {
      hide Exec, Next, Inv, GaveUp, Count;
      e, ok := PrepareTarget(first, a);
      if !ok { return; }
      e, ok := IssueReboot(e, a);
    }

    /** From the prepared journal to the wait for the host. */
    method GetAway(first: Entry, a: Answers) returns (e: Entry, ok: bool)
      requires Valid() && state.point == Advancing(first) && first.id in ops
      modifies this
      ensures Valid() && old(run) <= run && e.id == first.id && e.id in ops
      ensures state.issued == Issued(old(state), first.id, ReachesIssue(first, a), CommandOf(first, a))
      ensures ok ==> ops[e.id].command == e.command == CommandOf(first, a) != ""
      ensures ok <==> GetsAway(first, a)
      ensures ok ==> state.point == Advancing(e) && (e.stableId, e.preBoot) == Before(first, a)
      ensures ok ==> e.phase == if Less(first.phase, WaitingForReconnect) then WaitingForReconnect else first.phase
      ensures !ok ==> GaveUp(first.id, a.failRecorded)
    {
      hide Exec, Next, Inv, GaveUp, Count;
      e, ok := TakeProof(first, a);
      if !ok { return; }
      e, ok := GetIssued(e, a);
      if !ok { return; }
      e, ok := BeginWait(e, a);
    }

    /** restartHostUnsafe. It succeeds exactly when the answers allow it; then the operation is completed with the
        proof of a pass of the loop, and otherwise the current file says failed. */
    method Restart(a: Answers, command: string) returns (ok: bool, id: Id)
      requires Valid() && state.point.Idle? && a.freshId !in ops
      modifies this
      ensures Valid() && old(run) <= run && state.point.Idle?
      ensures var first := FirstEntry(old(current), a.freshId, command);
              && state.issued
                 == Issued(old(state), first.id, !first.phase.Failed? && ReachesIssue(first, a), CommandOf(first, a))
              && (ok ==> id in ops && ops[id].command == CommandOf(first, a) != "")
      ensures ok <==> Succeeds(FirstEntry(old(current), a.freshId, command), a)
      ensures id == FirstEntry(old(current), a.freshId, command).id
      ensures ok ==> current.None? && Vouched(id, a)
      ensures !ok ==> GaveUp(id, a.failRecorded)
    {
      hide Exec, Next, Inv, Decisive, Judge, CompletedWell, GetsAway, Before;
      var prepared := PrepareJournal(a.freshId, command);
      if prepared.None? {
        return false, current.value.id;
      }
      id := prepared.value.id;
      var e;
      e, ok := GetAway(prepared.value, a);
      if !ok { return; }
      ok := AwaitAndFinish(e, a);
    }
  }
}

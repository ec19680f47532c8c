/** sessionRuntime of providers/shared/hostsession/session_runtime.go: every method is one section under the monitor
    lock, proved to be the event of the session machine that its thread performs there. A wait ends in the section
    whose precondition is the awaited condition. */
module SessionRuntimes {
  import opened Session
  import opened SessionSafety

  lemma StepRun(run: seq<Event>, e: Event)
    requires Exec(run).Some? && Next(Exec(run).value, e).Some?
    ensures Exec(run + [e]) == Next(Exec(run).value, e)
  {
    hide Next;
    assert (run + [e])[..|run + [e]| - 1] == run;
  }

  class SessionRuntime {
    var activeCalls: int
    var resetInProgress: bool
    var lastResetErr: int
    var ensureInProgress: bool
    var lastEnsureErr: int
    ghost var run: seq<Event>

    /** The runtime holds what the run so far left in the machine. */
    ghost predicate Valid()
      reads this
    {
      && Exec(run).Some?
      && var h := Exec(run).value.shared;
      && activeCalls == h.calls && resetInProgress == h.reset.busy && ensureInProgress == h.ensure.busy
      && lastResetErr == h.reset.last && lastEnsureErr == h.ensure.last
    }

    ghost predicate Can(t: Tid, a: Action)
      reads this
    {
      Exec(run).Some? && Next(Exec(run).value, Step(t, a)).Some?
    }

    ghost function PointOf(t: Tid): Point
      reads this
      requires Exec(run).Some? && t in Exec(run).value.threads
    {
      Exec(run).value.threads[t]
    }

    constructor ()
      ensures Valid() && run == []
    {
      activeCalls, resetInProgress, lastResetErr := 0, false, 0;
      ensureInProgress, lastEnsureErr := false, 0;
      run := [];
    }

    /** A step that the monitor does not see: BootstrapMu, the executor and the client. */
    ghost method Outside(e: Event)
      requires Valid() && Next(Exec(run).value, e).Some?
      requires var h, g := Exec(run).value.shared, Next(Exec(run).value, e).value.shared;
               h.calls == g.calls && h.reset == g.reset && h.ensure == g.ensure
      modifies this`run
      ensures Valid() && run == old(run) + [e]
    {
      hide Next, Exec;
      StepRun(run, e);
      run := run + [e];
    }

    method ReserveCall(ghost t: Tid)
      requires Valid() && Can(t, Reserve)
      modifies this
      ensures Valid() && run == old(run) + [Step(t, Reserve)]
      ensures activeCalls == old(activeCalls) + 1 > 0
    {
      hide Exec;
      StepRun(run, Step(t, Reserve));
      RunKeepsInv(run);
      run := run + [Step(t, Reserve)];
      activeCalls := activeCalls + 1;
    }

    /** The end of the wait in acquireCall. */
    method AcquireCall(ghost t: Tid)
      requires Valid() && t in Exec(run).value.threads && PointOf(t).Out? && !resetInProgress
      modifies this
      ensures Valid() && run == old(run) + [Step(t, Acquire)]
      ensures activeCalls == old(activeCalls) + 1 > 0
    {
      hide Exec;
      StepRun(run, Step(t, Acquire));
      RunKeepsInv(run);
      run := run + [Step(t, Acquire)];
      activeCalls := activeCalls + 1;
    }

    /** releaseCall guards against a count of zero; in every run the count it finds is positive. */
    method ReleaseCall(ghost t: Tid, ghost a: Action)
      requires Valid() && a in {EndCall, Release, NoClient} && Can(t, a)
      modifies this
      ensures Valid() && run == old(run) + [Step(t, a)]
      ensures old(activeCalls) > 0 && activeCalls == old(activeCalls) - 1
    {
      hide Exec;
      StepRun(run, Step(t, a));
      RunKeepsInv(run);
      CountedIsPositive(Exec(run).value, t);
      run := run + [Step(t, a)];
      if activeCalls > 0 {
        activeCalls := activeCalls - 1;
      }
    }

    /** The end of the wait in waitForNoActiveCalls. */
    method NoActiveCalls(ghost t: Tid)
      requires Valid() && t in Exec(run).value.threads && PointOf(t).Drain? && activeCalls == 0
      modifies this`run
      ensures Valid() && run == old(run) + [Step(t, Drained)]
      ensures forall u <- Exec(run).value.threads :: !Counted(Exec(run).value.threads[u])
    {
      hide Exec;
      StepRun(run, Step(t, Drained));
      run := run + [Step(t, Drained)];
      NoCallAtTeardown(run, t, Step(t, Drained));
    }

    method BeginReset(ghost t: Tid) returns (leader: bool)
      requires Valid() && t in Exec(run).value.threads && PointOf(t).WantReset?
      modifies this
      ensures Valid() && run == old(run) + [Step(t, Action.BeginReset)]
      ensures leader <==> !old(resetInProgress)
      ensures resetInProgress
      ensures leader ==> (forall u <- Exec(run).value.threads :: LeadsReset(Exec(run).value.threads[u]) <==> u == t)
    {
      hide Exec;
      StepRun(run, Step(t, Action.BeginReset));
      run := run + [Step(t, Action.BeginReset)];
      RunKeepsInv(run);
      if resetInProgress {
        return false;
      }
      assert LeadsReset(PointOf(t));
      resetInProgress := true;
      lastResetErr := 0;
      return true;
    }

    /** The end of a follower's wait in beginReset: the error is that of a round that ended during the wait. */
    method ResetOutcome(ghost t: Tid) returns (err: int)
      requires Valid() && t in Exec(run).value.threads && PointOf(t).ResetWait? && !resetInProgress
      modifies this`run
      ensures Valid() && run == old(run) + [Step(t, ResetAnswer)]
      ensures old(PointOf(t).since) < |Exec(run).value.shared.reset.rounds|
      ensures err == Exec(run).value.shared.reset.rounds[|Exec(run).value.shared.reset.rounds| - 1]
    {
      hide Exec;
      StepRun(run, Step(t, ResetAnswer));
      FollowerHearsARoundOfItsWait(run, t);
      run := run + [Step(t, ResetAnswer)];
      err := lastResetErr;
    }

    method FinishReset(ghost t: Tid, err: int)
      requires Valid() && t in Exec(run).value.threads
      requires PointOf(t).ResetFinish? && PointOf(t).outcome == err
      modifies this
      ensures Valid() && run == old(run) + [Step(t, Action.FinishReset)]
      ensures !resetInProgress && lastResetErr == err
    {
      hide Exec;
      StepRun(run, Step(t, Action.FinishReset));
      run := run + [Step(t, Action.FinishReset)];
      lastResetErr := err;
      resetInProgress := false;
    }

    /** Every caller holds BootstrapMu, so it always leads. */
    method BeginEnsure(ghost t: Tid) returns (leader: bool)
      requires Valid() && t in Exec(run).value.threads && PointOf(t).Asking?
      modifies this
      ensures Valid() && run == old(run) + [Step(t, Action.BeginEnsure)]
      ensures leader && ensureInProgress
    {
      hide Exec;
      StepRun(run, Step(t, Action.BeginEnsure));
      run := run + [Step(t, Action.BeginEnsure)];
      EnsureHasNoFollower(run, t);
      if ensureInProgress {
        leader := false;
      } else {
        ensureInProgress := true;
        lastEnsureErr := 0;
        leader := true;
      }
    }

    method FinishEnsure(ghost t: Tid, err: int)
      requires Valid() && Can(t, Action.FinishEnsure(err))
      modifies this
      ensures Valid() && run == old(run) + [Step(t, Action.FinishEnsure(err))]
      ensures !ensureInProgress && lastEnsureErr == err
    {
      hide Exec;
      StepRun(run, Step(t, Action.FinishEnsure(err)));
      run := run + [Step(t, Action.FinishEnsure(err))];
      lastEnsureErr := err;
      ensureInProgress := false;
    }
  }
}

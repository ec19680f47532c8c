/** What the steps of the session runtime lead to: calls and resets that keep their word, and no state without a way
    out. */
module SessionProgress {
  import opened Session
  import opened SessionSafety

  function Teardowns(run: seq<Event>): nat {
    if run == [] then 0 else
      Teardowns(run[..|run| - 1]) + (if IsTeardown(run[|run| - 1]) then 1 else 0)
  }

  predicate IsTeardown(e: Event) {
    e.Step? && e.action.TearDown?
  }

  lemma EpochStep(a: Action, t: Tid, p: Point, h: Shared)
    requires Act(a, t, p, h).Some?
    ensures Act(a, t, p, h).value.1.epoch == h.epoch + (if a.TearDown? then 1 else 0)
    ensures a.TearDown? ==> p.Teardown?
  {
    hide OwnsMu, LeadsReset, Counted;
  }

  /** The epoch of the session is the number of its teardowns. */
  lemma {:induction false} EpochCountsTeardowns(run: seq<Event>)
    requires Exec(run).Some?
    ensures Exec(run).value.shared.epoch == Teardowns(run)
  {
    hide Act;
    if run == [] {
    } else {
      var front, e := run[..|run| - 1], run[|run| - 1];
      EpochCountsTeardowns(front);
      if e.Step? { EpochStep(e.action, e.t, Exec(front).value.threads[e.t], Exec(front).value.shared); }
    }
  }

  predicate CountedAt(run: seq<Event>, t: Tid) {
    Exec(run).Some? && t in Exec(run).value.threads && Counted(Exec(run).value.threads[t])
  }

  /** While a call is reserved, running or leased, no thread tears the session down. */
  lemma NoTeardownDuringACall(run: seq<Event>, more: seq<Event>, t: Tid, i: nat)
    requires forall k :: 0 <= k <= |more| ==> CountedAt(run + more[..k], t)
    requires i < |more|
    ensures !IsTeardown(more[i])
  {
    hide Act;
    var before, after := run + more[..i], run + more[..i + 1];
    assert CountedAt(before, t) && CountedAt(after, t);
    assert after[..|after| - 1] == before && after[|after| - 1] == more[i];
    if IsTeardown(more[i]) {
      RunKeepsInv(before);
      var s := Exec(before).value;
      EpochStep(more[i].action, more[i].t, s.threads[more[i].t], s.shared);
      TornDownAlone(s, more[i].t, t);
    }
  }

  /** Whether the thread came to its reset with BootstrapMu in hand; None outside a reset. */
  function Brought(p: Point): Option<bool> {
    match p
    case WantReset(held) => Some(held)
    case ResetWait(held, _) => Some(held)
    case ResetLock => Some(false)
    case Drain(held) => Some(held)
    case Teardown(held) => Some(held)
    case ResetUnlock(_) => Some(false)
    case ResetFinish(held, _) => Some(held)
    case Told(held, _) => Some(held)
    case _ => None
  }

  /** A reset gives back what it was given: a thread that comes with BootstrapMu leaves with it, and one that comes
      without it leaves without it. */
  lemma ResetReturnsTheMutex(a: Action, t: Tid, p: Point, h: Shared)
    requires Act(a, t, p, h).Some? && Brought(p).Some?
    ensures var q := Act(a, t, p, h).value.0;
            Brought(q) == Brought(p) || q == if Brought(p).value then Holding else Out
  {
  }

  /** A leader that holds BootstrapMu and ends its round without an error has taken the session down. */
  ghost predicate SuccessIsDown(s: State) {
    forall t <- s.threads :: s.threads[t] == ResetUnlock(0) || s.threads[t] == ResetFinish(true, 0) ==>
      !s.shared.open && !s.shared.client
  }

  lemma OpensOnlyAsLeader(a: Action, t: Tid, p: Point, h: Shared)
    requires Act(a, t, p, h).Some?
    ensures var (q, g) := Act(a, t, p, h).value;
            && ((g.open && !h.open) || (g.client && !h.client) ==> OwnsMu(p))
            && (q == ResetUnlock(0) || q == ResetFinish(true, 0) ==> !g.open && !g.client)
  {
    hide LeadsReset, Counted, Started, Finished;
  }

  /** So no round reports success unless it has closed the session and dropped its client. */
  lemma {:induction false} ResetTellsTheTruth(run: seq<Event>)
    requires Exec(run).Some?
    ensures SuccessIsDown(Exec(run).value)
  {
    hide Act, OwnsMu;
    if run == [] {
    } else {
      var front, e := run[..|run| - 1], run[|run| - 1];
      ResetTellsTheTruth(front);
      RunKeepsInv(front);
      var s, next := Exec(front).value, Exec(run).value;
      EndsOwnMu();
      if e.Step? {
        OpensOnlyAsLeader(e.action, e.t, s.threads[e.t], s.shared);
      }
      assert forall u <- s.threads :: u != e.t ==> next.threads[u] == s.threads[u];
    }
  }

  lemma EndsOwnMu()
    ensures OwnsMu(ResetUnlock(0)) && OwnsMu(ResetFinish(true, 0))
  {
  }

  // No state is a dead end.

  /** How far a thread is from home. */
  function Distance(p: Point): nat {
    match p
    case Out => 0
    case Holding => 1
    case ResetFinish(_, _) => 2
    case ResetUnlock(_) => 3
    case Teardown(_) => 4
    case Drain(_) => 5
    case ResetLock => 6
    case Told(_, _) => 2
    case ResetWait(_, _) => 3
    case WantReset(_) => 7
    case Calling(_) => 1
    case Leased(_) => 1
    case Reserved(_) => 2
    case Ready => 3
    case EnsureLead => 8
    case EnsureWait(_) => 8
    case Asking => 9
    case Bootstrapping => 10
    case WantMu => 11
  }

  /** The step that takes a thread closer to home. */
  function Homeward(p: Point): Action {
    match p
    case Out => AskMu
    case WantMu => LockMu
    case Bootstrapping => EnsureCheck
    case Asking => BeginEnsure
    case EnsureWait(_) => EnsureFails
    case EnsureLead => FinishEnsure(1)
    case Ready => Reserve
    case Reserved(_) => StartCall
    case Calling(_) => EndCall
    case Leased(_) => Release
    case WantReset(_) => BeginReset
    case ResetWait(_, _) => ResetTimeout
    case ResetLock => LockForReset
    case Drain(_) => DrainTimeout(1)
    case Teardown(_) => TearDown(0)
    case ResetUnlock(_) => UnlockReset
    case ResetFinish(_, _) => FinishReset
    case Told(_, _) => Leave
    case Holding => UnlockMu
  }

  /** A thread that owns BootstrapMu, or that is not in the way of an owner, is never stuck. */
  lemma HomewardStep(t: Tid, p: Point, h: Shared)
    requires p != Out && (OwnsMu(p) <==> h.mu == Some(t)) && (h.mu.None? || h.mu == Some(t))
    requires NeedsClient(p) ==> h.client && h.open
    ensures var r := Act(Homeward(p), t, p, h);
            r.Some? && Distance(r.value.0) < Distance(p) && (r.value.1.mu.None? || r.value.1.mu == Some(t))
  {
    hide Started, Finished, Counted, LeadsReset;
  }

  lemma OneStep(run: seq<Event>, t: Tid, a: Action)
    requires Exec(run).Some? && t in Exec(run).value.threads
    requires Act(a, t, Exec(run).value.threads[t], Exec(run).value.shared).Some?
    ensures var s := Exec(run).value; var r := Act(a, t, s.threads[t], s.shared).value;
            Exec(run + [Step(t, a)]) == Some(State(s.threads[t := r.0], r.1))
  {
    hide Act;
    assert (run + [Step(t, a)])[..|run|] == run;
  }

  /** A thread that owns BootstrapMu, or any thread when no one does, can go home by itself. */
  lemma {:induction false} SendHome(run: seq<Event>, t: Tid) returns (longer: seq<Event>)
    requires Exec(run).Some? && t in Exec(run).value.threads
    requires Exec(run).value.shared.mu in {None, Some(t)}
    ensures run <= longer && Exec(longer).Some?
    ensures Exec(longer).value.threads == Exec(run).value.threads[t := Out] && Exec(longer).value.shared.mu.None?
    decreases Distance(Exec(run).value.threads[t])
  {
    hide Next, Act, Exec, OwnsMu, Homeward, Distance, CallInv, ResetInv, EnsureInv;
    RunKeepsInv(run);
    var s := Exec(run).value;
    var p := s.threads[t];
    if p == Out {
      longer := run;
      OutOwnsNothing();
    } else {
      HomewardStep(t, p, s.shared);
      OneStep(run, t, Homeward(p));
      longer := SendHome(run + [Step(t, Homeward(p))], t);
    }
  }

  lemma OutOwnsNothing()
    ensures !OwnsMu(Out)
  {
  }

  function Busy(s: State): set<Tid> {
    set t | t in s.threads && s.threads[t] != Out
  }

  /** From every reachable state there is a way on in which every thread comes home and BootstrapMu is free: no
      interleaving of calls, ensure rounds and resets ends in a deadlock. */
  lemma {:induction false} EveryoneCanLeave(run: seq<Event>) returns (longer: seq<Event>)
    requires Exec(run).Some?
    ensures run <= longer && Exec(longer).Some?
    ensures var s := Exec(longer).value;
            && s.threads.Keys == Exec(run).value.threads.Keys
            && (forall t <- s.threads :: s.threads[t] == Out) && s.shared.mu.None? && s.shared.calls == 0
            && !s.shared.reset.busy && !s.shared.ensure.busy
    decreases |Busy(Exec(run).value)|
  {
    hide Next, Exec, OwnsMu;
    RunKeepsInv(run);
    var s := Exec(run).value;
    OutOwnsNothing();
    if Busy(s) == {} {
      longer := run;
      assert forall t <- s.threads :: s.threads[t] == Out by {
        forall t <- s.threads ensures s.threads[t] == Out { assert t !in Busy(s); }
      }
      assert CountedThreads(s) == {};
    } else {
      var t :| t in Busy(s);
      if s.shared.mu.Some? { t := s.shared.mu.value; }
      assert t in Busy(s);
      var home := SendHome(run, t);
      assert Busy(Exec(home).value) == Busy(s) - {t};
      longer := EveryoneCanLeave(home);
    }
  }

  /** A thread that bootstraps can bring its call through: it finds a client or starts an executor, reserves, and runs
      its call on an open session with BootstrapMu free again. */
  lemma BootstrapLeadsToACall(run: seq<Event>, t: Tid) returns (longer: seq<Event>)
    requires Exec(run).Some? && t in Exec(run).value.threads && Exec(run).value.threads[t] == Bootstrapping
    ensures run <= longer && Exec(longer).Some?
    ensures var s := Exec(longer).value;
            t in s.threads && s.threads[t].Calling? && s.shared.open && s.shared.client && s.shared.mu.None?
  {
    hide Next, Exec, Act, CallInv, ResetInv, OwnsMu;
    RunKeepsInv(run);
    var s := Exec(run).value;
    assert OwnsMu(Bootstrapping) && OwnsMu(EnsureLead) by { BootstrapOwnsMu(); }
    BootstrapSteps(t, s.shared);
    longer := run;
    if !(s.shared.open && s.shared.client) {
      assert !s.shared.ensure.busy;
      var asked := if s.shared.open then s.shared else s.shared.(client := false);
      LeadSteps(t, asked);
      OneStep(longer, t, EnsureCheck);
      longer := longer + [Step(t, EnsureCheck)];
      OneStep(longer, t, BeginEnsure);
      longer := longer + [Step(t, BeginEnsure)];
      OneStep(longer, t, StartExecutor);
      longer := longer + [Step(t, StartExecutor)];
      OneStep(longer, t, FinishEnsure(0));
      longer := longer + [Step(t, FinishEnsure(0))];
    } else {
      OneStep(longer, t, EnsureCheck);
      longer := longer + [Step(t, EnsureCheck)];
    }
    CallSteps(t, Exec(longer).value.shared);
    OneStep(longer, t, Reserve);
    longer := longer + [Step(t, Reserve)];
    OneStep(longer, t, StartCall);
    longer := longer + [Step(t, StartCall)];
  }

  lemma BootstrapOwnsMu()
    ensures OwnsMu(Bootstrapping) && OwnsMu(EnsureLead)
  {
  }

  lemma BootstrapSteps(t: Tid, h: Shared)
    ensures h.open && h.client ==> Act(EnsureCheck, t, Bootstrapping, h) == Some((Ready, h))
    ensures !(h.open && h.client) ==>
              Act(EnsureCheck, t, Bootstrapping, h)
              == Some((Asking, if h.open then h else h.(client := false)))
  {
  }

  lemma LeadSteps(t: Tid, h: Shared)
    requires !h.ensure.busy
    ensures var led := h.(ensure := Started(h.ensure));
            var started := led.(open := true);
            && Act(BeginEnsure, t, Asking, h) == Some((EnsureLead, led))
            && Act(StartExecutor, t, EnsureLead, led) == Some((EnsureLead, started))
            && Act(FinishEnsure(0), t, EnsureLead, started)
               == Some((Ready, started.(ensure := Finished(started.ensure, 0), client := true)))
  {
  }

  lemma CallSteps(t: Tid, h: Shared)
    requires h.open && h.client
    ensures var reserved := h.(calls := h.calls + 1);
            && Act(Reserve, t, Ready, h) == Some((Reserved(h.epoch), reserved))
            && Act(StartCall, t, Reserved(h.epoch), reserved) == Some((Calling(h.epoch), reserved.(mu := None)))
  {
  }
}

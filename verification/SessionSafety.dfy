/** What every run of the session runtime keeps. */
module SessionSafety {
  import opened Session

  /** The threads counted in activeCalls. */
  function CountedThreads(s: State): set<Tid> {
    set t | t in s.threads && Counted(s.threads[t])
  }

  /** BootstrapMu belongs to exactly the thread that is between its lock and its unlock. */
  ghost predicate MuInv(s: State) {
    && (s.shared.mu.Some? ==> s.shared.mu.value in s.threads)
    && (forall t <- s.threads :: OwnsMu(s.threads[t]) <==> s.shared.mu == Some(t))
  }

  /** The reset guard is busy exactly while one thread leads a round, and no thread waits for a round that is over. */
  ghost predicate ResetInv(s: State) {
    var f := s.shared.reset;
    && (forall t <- s.threads, u <- s.threads :: LeadsReset(s.threads[t]) && LeadsReset(s.threads[u]) ==> t == u)
    && (f.busy <==> exists t <- s.threads :: LeadsReset(s.threads[t]))
    && (forall t <- s.threads :: s.threads[t].ResetWait? ==> Waits(s.threads[t].since, f))
    && (!f.busy && f.rounds != [] ==> f.last == f.rounds[|f.rounds| - 1])
  }

  predicate Waits(since: nat, f: Flight) {
    since <= |f.rounds| && (since == |f.rounds| ==> f.busy)
  }

  /** Every caller of EnsureExecutor holds BootstrapMu, so its guard never sees a second thread. */
  ghost predicate EnsureInv(s: State) {
    && (s.shared.ensure.busy <==> exists t <- s.threads :: s.threads[t].EnsureLead?)
    && (forall t <- s.threads :: !s.threads[t].EnsureWait?)
    && (forall t <- s.threads :: s.threads[t].Asking? || s.threads[t].EnsureLead? ==> !s.shared.client)
  }

  /** The count is the number of counted threads, and a reset past its drain saw it at zero. */
  ghost predicate CallInv(s: State) {
    && s.shared.calls == |CountedThreads(s)|
    && (forall t <- s.threads :: s.threads[t].Teardown? ==> s.shared.calls == 0)
    && (forall t <- s.threads :: Counted(s.threads[t]) ==> s.threads[t].epoch == s.shared.epoch)
  }

  predicate NeedsClient(p: Point) {
    p.Ready? || p.Reserved? || p.Calling?
  }

  ghost predicate OpenInv(s: State) {
    && (s.shared.client ==> s.shared.open)
    && (forall t <- s.threads :: NeedsClient(s.threads[t]) ==> s.shared.client)
  }

  ghost predicate Inv(s: State) {
    MuInv(s) && ResetInv(s) && EnsureInv(s) && CallInv(s) && OpenInv(s)
  }

  /** The thread of a step owns BootstrapMu afterwards exactly if its new point says so, and a step hands BootstrapMu to
      no other thread and takes it from none. */
  predicate MuMove(t: Tid, h: Shared, r: (Point, Shared)) {
    && (OwnsMu(r.0) <==> r.1.mu == Some(t))
    && (r.1.mu == h.mu || (h.mu in {None, Some(t)} && r.1.mu in {None, Some(t)}))
  }

  lemma MuStepMu(a: Action, t: Tid, p: Point, h: Shared)
    requires OwnsMu(p) <==> h.mu == Some(t)
    ensures ActMu(a, t, p, h).Some? ==> MuMove(t, h, ActMu(a, t, p, h).value)
  {}

  lemma MuStepCall(a: Action, t: Tid, p: Point, h: Shared)
    requires OwnsMu(p) <==> h.mu == Some(t)
    ensures ActCall(a, p, h).Some? ==> MuMove(t, h, ActCall(a, p, h).value)
  {}

  lemma MuStepEnsure(a: Action, t: Tid, p: Point, h: Shared)
    requires OwnsMu(p) <==> h.mu == Some(t)
    ensures ActEnsure(a, p, h).Some? ==> MuMove(t, h, ActEnsure(a, p, h).value)
  {}

  lemma MuStepWait(a: Action, t: Tid, p: Point, h: Shared)
    requires OwnsMu(p) <==> h.mu == Some(t)
    ensures ActWait(a, p, h).Some? ==> MuMove(t, h, ActWait(a, p, h).value)
  {}

  lemma MuStepRound(a: Action, t: Tid, p: Point, h: Shared)
    requires OwnsMu(p) <==> h.mu == Some(t)
    ensures ActRound(a, t, p, h).Some? ==> MuMove(t, h, ActRound(a, t, p, h).value)
  {}

  lemma MuStep(a: Action, t: Tid, p: Point, h: Shared)
    requires Act(a, t, p, h).Some? && (OwnsMu(p) <==> h.mu == Some(t))
    ensures MuMove(t, h, Act(a, t, p, h).value)
  {
    hide ActMu, ActCall, ActEnsure, ActWait, ActRound, OwnsMu;
    MuStepMu(a, t, p, h);
    MuStepCall(a, t, p, h);
    MuStepEnsure(a, t, p, h);
    MuStepWait(a, t, p, h);
    MuStepRound(a, t, p, h);
  }

  lemma KeepsMu(s: State, e: Event)
    requires MuInv(s) && Next(s, e).Some?
    ensures MuInv(Next(s, e).value)
  {
    hide Act, OwnsMu;
    match e
    case Spawn(t) => assert !OwnsMu(Out) by { SpawnIsIdle(); }
    case Step(t, a) => MuStep(a, t, s.threads[t], s.shared);
  }

  lemma SpawnIsIdle()
    ensures !OwnsMu(Out) && !LeadsReset(Out) && !Counted(Out)
  {}

  /** The three ways a step can touch the reset guard. */
  predicate ResetMove(p: Point, q: Point, f: Flight, g: Flight) {
    || (!LeadsReset(p) && LeadsReset(q) && !q.ResetWait? && !f.busy && g == Started(f))
    || (LeadsReset(p) && !LeadsReset(q) && !q.ResetWait? && g == Finished(f, g.last))
    || (LeadsReset(p) == LeadsReset(q) && g == f && (q.ResetWait? ==> q == p || (q.since == |f.rounds| && f.busy)))
  }

  lemma ResetStepMu(a: Action, t: Tid, p: Point, h: Shared)
    ensures ActMu(a, t, p, h).Some? ==>
              ResetMove(p, ActMu(a, t, p, h).value.0, h.reset, ActMu(a, t, p, h).value.1.reset)
  {}

  lemma ResetStepCall(a: Action, t: Tid, p: Point, h: Shared)
    ensures ActCall(a, p, h).Some? ==>
              ResetMove(p, ActCall(a, p, h).value.0, h.reset, ActCall(a, p, h).value.1.reset)
  {}

  lemma ResetStepEnsure(a: Action, t: Tid, p: Point, h: Shared)
    ensures ActEnsure(a, p, h).Some? ==>
              ResetMove(p, ActEnsure(a, p, h).value.0, h.reset, ActEnsure(a, p, h).value.1.reset)
  {}

  lemma ResetStepWait(a: Action, t: Tid, p: Point, h: Shared)
    ensures ActWait(a, p, h).Some? ==>
              ResetMove(p, ActWait(a, p, h).value.0, h.reset, ActWait(a, p, h).value.1.reset)
  {}

  lemma ResetStepRound(a: Action, t: Tid, p: Point, h: Shared)
    ensures ActRound(a, t, p, h).Some? ==>
              ResetMove(p, ActRound(a, t, p, h).value.0, h.reset, ActRound(a, t, p, h).value.1.reset)
  {}

  lemma ResetStep(a: Action, t: Tid, p: Point, h: Shared)
    requires Act(a, t, p, h).Some?
    ensures ResetMove(p, Act(a, t, p, h).value.0, h.reset, Act(a, t, p, h).value.1.reset)
  {
    hide ActMu, ActCall, ActEnsure, ActWait, ActRound, ResetMove;
    ResetStepMu(a, t, p, h);
    ResetStepCall(a, t, p, h);
    ResetStepEnsure(a, t, p, h);
    ResetStepWait(a, t, p, h);
    ResetStepRound(a, t, p, h);
  }

  lemma KeepsReset(s: State, e: Event)
    requires ResetInv(s) && Next(s, e).Some?
    ensures ResetInv(Next(s, e).value)
  {
    hide Act, LeadsReset;
    var next := Next(s, e).value;
    if e.Spawn? { SpawnIsIdle(); } else { ResetStep(e.action, e.t, s.threads[e.t], s.shared); }
    assert forall u <- s.threads :: u != e.t ==> next.threads[u] == s.threads[u];
    if LeadsReset(next.threads[e.t]) {
      assert next.shared.reset.busy;
      assert forall u <- s.threads :: u != e.t ==> !LeadsReset(s.threads[u]);
    } else if next.shared.reset.busy {
      var u :| u in s.threads && LeadsReset(s.threads[u]);
      assert u != e.t && LeadsReset(next.threads[u]);
    }
  }

  /** The ways a step can touch the ensure guard, the client and the session. */
  predicate EnsureMove(p: Point, q: Point, h: Shared, g: Shared) {
    && (q.EnsureWait? ==> p.Asking? && h.ensure.busy)
    && ((p.Asking? && q.EnsureLead? && g.ensure == Started(h.ensure))
        || (p.EnsureLead? && !q.EnsureLead? && g.ensure == Finished(h.ensure, g.ensure.last))
        || (p.EnsureLead? == q.EnsureLead? && g.ensure == h.ensure))
    && (g.client && !h.client ==> p.EnsureLead?)
    && (q.Asking? || q.EnsureLead? ==> !g.client)
  }

  lemma EnsureStep(a: Action, t: Tid, p: Point, h: Shared)
    requires Act(a, t, p, h).Some? && !p.EnsureWait?
    requires (h.client ==> h.open) && (p.Asking? || p.EnsureLead? ==> !h.client)
    ensures EnsureMove(p, Act(a, t, p, h).value.0, h, Act(a, t, p, h).value.1)
  {}

  lemma KeepsEnsure(s: State, e: Event)
    requires MuInv(s) && EnsureInv(s) && OpenInv(s) && Next(s, e).Some?
    ensures EnsureInv(Next(s, e).value)
  {
    hide Act;
    var next := Next(s, e).value;
    if e.Step? { EnsureStep(e.action, e.t, s.threads[e.t], s.shared); }
    assert forall u <- s.threads :: u != e.t ==> next.threads[u] == s.threads[u];
    if e.Step? && s.shared.ensure.busy {
      var u :| u in s.threads && s.threads[u].EnsureLead?;
      assert u == e.t || !s.threads[e.t].Asking?;
    }
    if next.threads[e.t].EnsureLead? {
      assert next.shared.ensure.busy;
    } else if next.shared.ensure.busy {
      var u :| u in s.threads && s.threads[u].EnsureLead?;
      assert u != e.t && next.threads[u].EnsureLead?;
    }
  }

  /** The ways a step can touch the count. */
  predicate CallMove(p: Point, q: Point, h: Shared, g: Shared) {
    && g.calls == h.calls - (if Counted(p) then 1 else 0) + (if Counted(q) then 1 else 0)
    && (Counted(q) ==> q.epoch == g.epoch)
    && (Counted(q) && !Counted(p) ==> p.Ready? || (p.Out? && !h.reset.busy))
    && (q.Teardown? ==> h.calls == 0 && !Counted(p))
    && (g.epoch != h.epoch ==> p.Teardown? && !Counted(q))
  }

  lemma CallStep(a: Action, t: Tid, p: Point, h: Shared)
    requires Act(a, t, p, h).Some?
    requires Counted(p) ==> h.calls > 0 && p.epoch == h.epoch
    ensures CallMove(p, Act(a, t, p, h).value.0, h, Act(a, t, p, h).value.1)
  {
    hide Started, Finished, OwnsMu, LeadsReset;
  }

  lemma CountMoves(s: State, t: Tid, next: State)
    requires t in next.threads && next.threads == s.threads[t := next.threads[t]]
    ensures |CountedThreads(next)| == |CountedThreads(s)|
            - (if t in s.threads && Counted(s.threads[t]) then 1 else 0)
            + (if Counted(next.threads[t]) then 1 else 0)
  {
    hide Counted;
    var rest := CountedThreads(s) - {t};
    assert CountedThreads(s) == if t in s.threads && Counted(s.threads[t]) then rest + {t} else rest;
    assert CountedThreads(next) == if Counted(next.threads[t]) then rest + {t} else rest;
  }

  /** No thread is counted once a reset saw the count at zero: the count is the number of counted threads. */
  lemma TornDownAlone(s: State, t: Tid, u: Tid)
    requires CallInv(s) && t in s.threads && u in s.threads && s.threads[t].Teardown?
    ensures !Counted(s.threads[u])
  {
    assert u !in CountedThreads(s) by { assert |CountedThreads(s)| == 0; }
  }

  lemma CountedIsPositive(s: State, t: Tid)
    requires t in s.threads && Counted(s.threads[t])
    ensures |CountedThreads(s)| > 0
  {
    assert t in CountedThreads(s);
  }

  /** While a reset stands before its teardown, no other thread can be counted: reserveCall runs under BootstrapMu,
      which the reset holds, and acquireCall waits for the reset. */
  lemma NoNewCall(s: State, u: Tid, t: Tid, a: Action)
    requires Inv(s) && u in s.threads && t in s.threads && u != t && s.threads[u].Teardown?
    requires Act(a, t, s.threads[t], s.shared).Some?
    ensures !Counted(Act(a, t, s.threads[t], s.shared).value.0)
  {
    hide Act, Counted;
    TornDownAlone(s, u, t);
    CallStep(a, t, s.threads[t], s.shared);
  }

  lemma KeepsCall(s: State, e: Event)
    requires Inv(s) && Next(s, e).Some?
    ensures CallInv(Next(s, e).value)
  {
    hide Act, CountedThreads, MuInv, ResetInv, EnsureInv, OpenInv;
    var next := Next(s, e).value;
    CountMoves(s, e.t, next);
    SpawnIsIdle();
    if e.Step? {
      if Counted(s.threads[e.t]) { CountedIsPositive(s, e.t); }
      CallStep(e.action, e.t, s.threads[e.t], s.shared);
    }
    forall u <- next.threads | next.threads[u].Teardown?
      ensures next.shared.calls == 0
    {
      if u != e.t && e.Step? {
        TornDownAlone(s, u, e.t);
        NoNewCall(s, u, e.t, e.action);
      }
    }
    forall u <- next.threads | Counted(next.threads[u])
      ensures next.threads[u].epoch == next.shared.epoch
    {
      if u != e.t && e.t in s.threads && s.threads[e.t].Teardown? { TornDownAlone(s, e.t, u); }
    }
  }

  lemma EventKeepsInv(s: State, e: Event)
    requires Inv(s) && Next(s, e).Some?
    ensures Inv(Next(s, e).value)
  {
    KeepsMu(s, e);
    KeepsReset(s, e);
    KeepsEnsure(s, e);
    KeepsCall(s, e);
    KeepsOpen(s, e);
  }

  /** The ways a step can touch the client and the session. */
  predicate OpenMove(p: Point, q: Point, h: Shared, g: Shared) {
    && (g.client ==> g.open)
    && (NeedsClient(q) ==> g.client)
    && (h.client && !g.client ==> p.Teardown?)
  }

  lemma OpenStep(a: Action, t: Tid, p: Point, h: Shared)
    requires Act(a, t, p, h).Some? && (h.client ==> h.open) && (NeedsClient(p) ==> h.client)
    ensures OpenMove(p, Act(a, t, p, h).value.0, h, Act(a, t, p, h).value.1)
  {}

  lemma KeepsOpen(s: State, e: Event)
    requires Inv(s) && Next(s, e).Some?
    ensures OpenInv(Next(s, e).value)
  {
    hide Act, CallInv, EnsureInv, ResetInv;
    var next := Next(s, e).value;
    if e.Step? {
      OpenStep(e.action, e.t, s.threads[e.t], s.shared);
      forall u <- s.threads | u != e.t && NeedsClient(s.threads[u])
        ensures next.shared.client
      {
        if s.threads[e.t].Teardown? { TornDownAlone(s, e.t, u); }
      }
    }
  }

  lemma {:induction false} RunKeepsInv(run: seq<Event>)
    requires Exec(run).Some?
    ensures Inv(Exec(run).value)
  {
    if run == [] {
      assert CountedThreads(State(map[], FRESH)) == {};
    } else {
      RunKeepsInv(run[..|run| - 1]);
      EventKeepsInv(Exec(run[..|run| - 1]).value, run[|run| - 1]);
    }
  }

  /** A safe reset closes the session only while no call is reserved, running or leased, and no step of any thread can
      change that before the teardown. */
  lemma NoCallAtTeardown(run: seq<Event>, t: Tid, e: Event)
    requires Exec(run).Some? && t in Exec(run).value.threads && Exec(run).value.threads[t].Teardown?
    ensures Exec(run).value.shared.calls == 0
    ensures forall u <- Exec(run).value.threads :: !Counted(Exec(run).value.threads[u])
    ensures Next(Exec(run).value, e).Some? ==>
              var next := Next(Exec(run).value, e).value;
              next.shared.calls == 0 && forall u <- next.threads :: !Counted(next.threads[u])
  {
    hide Next;
    RunKeepsInv(run);
    var s := Exec(run).value;
    forall u <- s.threads ensures !Counted(s.threads[u]) { TornDownAlone(s, t, u); }
    if Next(s, e).Some? {
      EventKeepsInv(s, e);
      QuietStaysQuiet(s, t, e);
    }
  }

  lemma QuietStaysQuiet(s: State, t: Tid, e: Event)
    requires Inv(s) && t in s.threads && s.threads[t].Teardown? && Next(s, e).Some?
    ensures Next(s, e).value.shared.calls == 0
    ensures forall u <- Next(s, e).value.threads :: !Counted(Next(s, e).value.threads[u])
  {
    hide Act;
    var next := Next(s, e).value;
    EventKeepsInv(s, e);
    forall u <- next.threads ensures !Counted(next.threads[u]) {
      if u in s.threads { TornDownAlone(s, t, u); }
      if e.Step? && u == e.t {
        CallStep(e.action, e.t, s.threads[e.t], s.shared);
        if u != t { NoNewCall(s, t, u, e.action); }
      }
    }
    assert CountedThreads(next) == {};
  }

  /** From the reservation of a call to its end the session is never torn down: it is the session of the reservation,
      it is open and it has its client. A lease taken by acquireCall keeps the session the same way. */
  lemma CallKeepsItsSession(run: seq<Event>, t: Tid)
    requires Exec(run).Some? && t in Exec(run).value.threads && Counted(Exec(run).value.threads[t])
    ensures var s := Exec(run).value;
            && s.threads[t].epoch == s.shared.epoch
            && s.shared.calls > 0
            && (!s.threads[t].Leased? ==> s.shared.open && s.shared.client)
  {
    hide Next;
    RunKeepsInv(run);
    CountedIsPositive(Exec(run).value, t);
  }

  predicate Lacks(more: seq<Event>, a: Action) {
    forall i :: 0 <= i < |more| && more[i].Step? ==> more[i].action != a
  }

  /** Only a round that ends well gives a client, and only a started executor opens the session. */
  lemma DownStaysDown(a: Action, t: Tid, p: Point, h: Shared)
    requires Act(a, t, p, h).Some?
    ensures !h.client && a != FinishEnsure(0) ==> !Act(a, t, p, h).value.1.client
    ensures !h.open && a != StartExecutor ==> !Act(a, t, p, h).value.1.open
  {
    hide OwnsMu, LeadsReset, Counted;
  }

  /** A safe reset takes the session down: from its teardown on there is no client, and no thread stands ready, reserves
      or runs a call, until a new ensure round has ended well; and the session is not open until an executor was started
      again. */
  lemma {:induction false} TearDownLasts(run: seq<Event>, t: Tid, outcome: int, more: seq<Event>)
    requires Exec(run + [Step(t, TearDown(outcome))] + more).Some? && Lacks(more, FinishEnsure(0))
    ensures var s := Exec(run + [Step(t, TearDown(outcome))] + more).value;
            && !s.shared.client && (forall u <- s.threads :: !NeedsClient(s.threads[u]))
            && (Lacks(more, StartExecutor) ==> !s.shared.open)
  {
    hide Next, Act;
    var down := run + [Step(t, TearDown(outcome))];
    RunKeepsInv(down + more);
    if more == [] {
      assert down + more == down && down[..|down| - 1] == run;
      TearDownStep(Exec(run).value, t, outcome);
    } else {
      var front, e := more[..|more| - 1], more[|more| - 1];
      assert (down + more)[..|down + more| - 1] == down + front;
      assert e == more[|more| - 1];
      TearDownLasts(run, t, outcome, front);
      EventKeepsDown(Exec(down + front).value, e);
    }
  }

  lemma TearDownStep(s: State, t: Tid, outcome: int)
    requires Next(s, Step(t, TearDown(outcome))).Some?
    ensures var h := Next(s, Step(t, TearDown(outcome))).value.shared; !h.client && !h.open
  {
  }

  lemma EventKeepsDown(s: State, e: Event)
    requires Next(s, e).Some?
    ensures !s.shared.client && (e.Step? ==> e.action != FinishEnsure(0)) ==> !Next(s, e).value.shared.client
    ensures !s.shared.open && (e.Step? ==> e.action != StartExecutor) ==> !Next(s, e).value.shared.open
  {
    hide Act;
    if e.Step? { DownStaysDown(e.action, e.t, s.threads[e.t], s.shared); }
  }

  /** One thread at a time leads a reset or an ensure round, and BootstrapMu has one owner. */
  lemma OneLeader(run: seq<Event>, t: Tid, u: Tid)
    requires Exec(run).Some? && t in Exec(run).value.threads && u in Exec(run).value.threads && t != u
    ensures var p, q := Exec(run).value.threads[t], Exec(run).value.threads[u];
            && !(LeadsReset(p) && LeadsReset(q))
            && !(p.EnsureLead? && q.EnsureLead?)
            && !(OwnsMu(p) && OwnsMu(q))
  {
    hide Next;
    RunKeepsInv(run);
  }

  /** A follower that is told an outcome hears the outcome of a round that ended while it waited. */
  lemma FollowerHearsARoundOfItsWait(run: seq<Event>, t: Tid)
    requires Exec(run).Some? && t in Exec(run).value.threads && Exec(run).value.threads[t].ResetWait?
    requires Next(Exec(run).value, Step(t, ResetAnswer)).Some?
    ensures var s := Exec(run).value;
            var next := Next(s, Step(t, ResetAnswer)).value;
            && s.threads[t].since < |s.shared.reset.rounds|
            && next.threads[t] == Told(s.threads[t].held, s.shared.reset.rounds[|s.shared.reset.rounds| - 1])
  {
    RunKeepsInv(run);
  }

  /** As every caller of EnsureExecutor holds BootstrapMu, no thread ever follows an ensure round, and the second look
      for a client inside the round never finds one. */
  lemma EnsureHasNoFollower(run: seq<Event>, t: Tid)
    requires Exec(run).Some? && t in Exec(run).value.threads
    ensures !Exec(run).value.threads[t].EnsureWait?
    ensures Next(Exec(run).value, Step(t, FindClient)).None?
  {
    RunKeepsInv(run);
  }
}

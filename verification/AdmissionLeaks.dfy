/** Runs with a cut that is not clean. In one a process dies in the middle of the release of another process's
    operation, and a queued operation is then refused although nobody runs; in the other one dies in the middle of an
    activation of another process's operation, and one of two locks is claimed. */
module AdmissionLeaks {
  import opened Text
  import opened Locks
  import opened Admission
  import opened AdmissionSafety
  import opened AdmissionGrants
  import opened AdmissionCrash

  /** Process 1 has queued "a" and "b" and no one is inside the admission lock. */
  predicate Idle(s: State) {
    && s.section.None? && s.boot == "b" && 1 in s.live
    && s.disk.index.Keys == {"a", "b"} && {"a", "b"} <= s.specs.Keys
    && (forall o :: o in {"a", "b"} ==> s.specs[o].owner == Owner(1, "b") && s.disk.index[o].owner == Owner(1, "b"))
    && s.specs["a"].key == 7 && s.specs["b"].key == 7
  }

  function Poller(pid: int, op: OpId): Section {
    Section(pid, 7, Activate(op), ToRun)
  }

  // A call that creates "b" beside the queued "a".

  function Second(locks: seq<Lock>): Spec {
    Spec(Owner(1, "b"), "", 7, locks)
  }

  function Looker(locks: seq<Lock>): Section {
    Section(1, 7, Find("", locks), Stale({"a"}))
  }

  function Named(locks: seq<Lock>): State {
    At(WAITING, Looker(locks), PutRecord(WAITING.disk, "b", Second(locks), Queued), Indexing("b")).(
      specs := map["a" := A, "b" := Second(locks)], intact := {"a", "b"})
  }

  function Both(locks: seq<Lock>): State {
    Leave(Named(locks), PutIndex(Named(locks).disk, "b", Second(locks), Queued)).(open := {"a", "b"})
  }

  lemma LookSecond(locks: seq<Lock>)
    requires Normalized(locks)
    ensures Next(WAITING, Enter(1, 7, Find("", locks))) == Some(WAITING.(section := Some(Looker(locks))))
    ensures Next(WAITING.(section := Some(Looker(locks))), KeepIndex("a", "b"))
         == Some(InSection(WAITING, Looker(locks), Stale({})))
    ensures Next(InSection(WAITING, Looker(locks), Stale({})), EndStale)
         == Some(InSection(WAITING, Looker(locks), Lookup({})))
  {
    hide Normalized;
    var s, sec := WAITING, Looker(locks);
    assert s.disk.index.Keys == {"a"};
    assert DoEnter(s, 1, 7, Find("", locks)) == Some(s.(section := Some(sec)));
    assert {"a"} - {"a"} == {};
    assert DoKeepIndex(s.(section := Some(sec)), sec, "a", "b") == Some(InSection(s, sec, Stale({})));
    TrimOfTight("");
    var u := InSection(s, sec, Stale({}));
    assert DoEndStale(u, u.section.value) == Some(InSection(s, sec, Lookup({})));
  }

  lemma NameSecond(locks: seq<Lock>)
    ensures Next(InSection(WAITING, Looker(locks), Lookup({})), NewRecord("b", "b")) == Some(Named(locks))
  {
    var s := InSection(WAITING, Looker(locks), Lookup({}));
    assert s.specs["b" := Second(locks)] == map["a" := A, "b" := Second(locks)] && s.intact + {"b"} == {"a", "b"};
    assert DoNewRecord(s, s.section.value, "b", "b") == Some(Named(locks));
  }

  lemma IndexSecond(locks: seq<Lock>)
    ensures Next(Named(locks), NewIndex) == Some(Both(locks))
  {
    var s := Named(locks);
    assert s.open + ({"b"} * s.intact) == {"a", "b"};
    assert DoNewIndex(s, s.section.value) == Some(Both(locks));
  }

  lemma ReachBoth(locks: seq<Lock>) returns (run: seq<Event>)
    requires Normalized(locks)
    ensures Exec(Start("b"), run) == Some(Both(locks))
  {
    hide Next, At, InSection, Normalized;
    var sec := Looker(locks);
    LookSecond(locks);
    NameSecond(locks);
    IndexSecond(locks);
    run := ReachWaiting();
    run := Take(run, WAITING, Enter(1, 7, Find("", locks)), WAITING.(section := Some(sec)));
    run := Take(run, WAITING.(section := Some(sec)), KeepIndex("a", "b"), InSection(WAITING, sec, Stale({})));
    run := Take(run, InSection(WAITING, sec, Stale({})), EndStale, InSection(WAITING, sec, Lookup({})));
    run := Take(run, InSection(WAITING, sec, Lookup({})), NewRecord("b", "b"), Named(locks));
    run := Take(run, Named(locks), NewIndex, Both(locks));
  }

  lemma BothIsIdle(locks: seq<Lock>)
    ensures var s := Both(locks);
            && Idle(s) && s.disk.claims == map[] && s.live == {1, 2} && s.intact == {"a", "b"}
            && s.specs["a"] == A && s.specs["b"] == Second(locks) && s.disk.records["b"].status.Queued?
  {
  }

  // The steps of one activation, from any idle state.

  lemma EnterStep(s: State, pid: int, op: OpId)
    requires Idle(s) && pid in s.live && op in {"a", "b"}
    ensures Next(s, Enter(pid, 7, Activate(op))) == Some(InSection(s, Poller(pid, op), Stale({"a", "b"})))
  {
    assert DoEnter(s, pid, 7, Activate(op)) == Some(InSection(s, Poller(pid, op), Stale({"a", "b"})));
  }

  lemma KeepStep(s: State, pid: int, op: OpId, o: OpId, todo: set<OpId>)
    requires Idle(s) && op in {"a", "b"} && o in {"a", "b"} && o in todo
    ensures Next(InSection(s, Poller(pid, op), Stale(todo)), KeepIndex(o, "b"))
         == Some(InSection(s, Poller(pid, op), Stale(todo - {o})))
  {
    var u := InSection(s, Poller(pid, op), Stale(todo));
    assert DoKeepIndex(u, u.section.value, o, "b") == Some(InSection(s, Poller(pid, op), Stale(todo - {o})));
  }

  lemma StaleStep(s: State, pid: int, op: OpId)
    ensures Next(InSection(s, Poller(pid, op), Stale({})), EndStale)
         == Some(InSection(s, Poller(pid, op), Scan(s.disk.claims.Keys, false)))
  {
    var u := InSection(s, Poller(pid, op), Stale({}));
    assert DoEndStale(u, u.section.value) == Some(InSection(s, Poller(pid, op), Scan(s.disk.claims.Keys, false)));
  }

  lemma ReachScan(run: seq<Event>, s: State, pid: int, op: OpId) returns (longer: seq<Event>)
    requires Exec(Start("b"), run) == Some(s) && Idle(s) && pid in s.live && op in {"a", "b"}
    ensures Exec(Start("b"), longer) == Some(InSection(s, Poller(pid, op), Scan(s.disk.claims.Keys, false)))
  {
    hide Next, Exec, InSection;
    var sec := Poller(pid, op);
    EnterStep(s, pid, op);
    KeepStep(s, pid, op, "a", {"a", "b"});
    KeepStep(s, pid, op, "b", {"b"});
    StaleStep(s, pid, op);
    assert {"a", "b"} - {"a"} == {"b"} && {"b"} - {"b"} == {};
    longer := Take(run, s, Enter(pid, 7, Activate(op)), InSection(s, sec, Stale({"a", "b"})));
    longer := Take(longer, InSection(s, sec, Stale({"a", "b"})), KeepIndex("a", "b"), InSection(s, sec, Stale({"b"})));
    longer := Take(longer, InSection(s, sec, Stale({"b"})), KeepIndex("b", "b"), InSection(s, sec, Stale({})));
    longer := Take(longer, InSection(s, sec, Stale({})), EndStale,
                   InSection(s, sec, Scan(s.disk.claims.Keys, false)));
  }

  /** The files after the record, the index and the first claim. */
  function FirstClaim(d: Disk, op: OpId, spec: Spec): Disk
    requires spec.locks != []
  {
    WithClaim(PutIndex(PutRecord(d, op, spec, Running), op, spec, Running), op, spec.owner, spec.locks[0])
  }

  lemma WriteSteps(s: State, pid: int, op: OpId)
    requires op in s.specs && s.specs[op].locks != []
    ensures var sec, spec := Poller(pid, op), s.specs[op];
            var d1 := PutRecord(s.disk, op, spec, Running);
            var d2 := PutIndex(d1, op, spec, Running);
            && Next(InSection(s, sec, ToRun), MarkRunning) == Some(At(s, sec, d1, ToIndex))
            && Next(At(s, sec, d1, ToIndex), IndexRunning) == Some(At(s, sec, d2, ToClaim(0)))
            && Next(At(s, sec, d2, ToClaim(0)), PutClaim)
            == Some(At(s, sec, FirstClaim(s.disk, op, spec), ToClaim(1)))
  {
  }

  lemma ReachFirstClaim(run: seq<Event>, s: State, pid: int, op: OpId) returns (longer: seq<Event>)
    requires Exec(Start("b"), run) == Some(s) && Idle(s) && pid in s.live && op in {"a", "b"}
    requires s.disk.claims == map[] && s.specs[op].locks != []
    ensures Exec(Start("b"), longer)
         == Some(At(s, Poller(pid, op), FirstClaim(s.disk, op, s.specs[op]), ToClaim(1)))
  {
    assert op in s.specs;
    hide Exec, Idle;
    var sec, spec := Poller(pid, op), s.specs[op];
    var d1 := PutRecord(s.disk, op, spec, Running);
    longer := ReachScan(run, s, pid, op);
    assert s.disk.claims.Keys == {};
    var u := InSection(s, sec, Scan({}, false));
    assert DoEndScan(u, u.section.value) == Some(InSection(s, sec, ToRun));
    longer := Take(longer, u, EndScan, InSection(s, sec, ToRun));
    WriteSteps(s, pid, op);
    hide Next, At, InSection, PutRecord, PutIndex, FirstClaim;
    longer := Take(longer, InSection(s, sec, ToRun), MarkRunning, At(s, sec, d1, ToIndex));
    longer := Take(longer, At(s, sec, d1, ToIndex), IndexRunning,
                   At(s, sec, PutIndex(d1, op, spec, Running), ToClaim(0)));
    longer := Take(longer, At(s, sec, PutIndex(d1, op, spec, Running), ToClaim(0)), PutClaim,
                   At(s, sec, FirstClaim(s.disk, op, spec), ToClaim(1)));
  }

  // A release cut after the record: operation "a" is granted for the whole host, process 2 begins to release it and
  // dies.

  const A_CLAIM: ClaimPath := PathOf("a", HOST[0])
  const ACTIVE: Disk := FirstClaim(Both(HOST).disk, "a", A)
  const GRANTED: State := Leave(Both(HOST), ACTIVE).(granted := {"a"}, activated := {"a"})
  const RELEASE: Section := Section(2, 7, Finalize("a", Completed), ToFinish)
  const LEAVING: State := GRANTED.(section := Some(RELEASE), open := {"b"}, granted := {}, activated := {})
  const FINAL: State := At(LEAVING, RELEASE, PutRecord(ACTIVE, "a", A, Completed), ToDrop(0))
  const LEFT: State := FINAL.(section := None, live := {1})

  lemma ReleaseSteps()
    ensures Next(At(Both(HOST), Poller(1, "a"), ACTIVE, ToClaim(1)), Grant) == Some(GRANTED)
    ensures Next(GRANTED, Enter(2, 7, Finalize("a", Completed))) == Some(LEAVING)
    ensures Next(LEAVING, MarkFinal) == Some(FINAL)
  {
    var s := At(Both(HOST), Poller(1, "a"), ACTIVE, ToClaim(1));
    assert {} + {"a"} * {"a", "b"} == {"a"};
    assert DoGrant(s, s.section.value) == Some(GRANTED);
    assert {"a", "b"} - {"a"} == {"b"} && {"a"} - {"a"} == {};
    assert DoEnter(GRANTED, 2, 7, Finalize("a", Completed)) == Some(LEAVING);
    assert DoMarkFinal(LEAVING, RELEASE) == Some(FINAL);
  }

  lemma DeathStep()
    ensures Next(FINAL, Die(2)) == Some(LEFT)
  {
    assert OwnedBy(FINAL, 2) == {} && {1, 2} - {2} == {1};
    var s := FINAL;
    assert s.intact - {} == s.intact && s.open - {} == s.open;
    assert s.granted - {} == s.granted && s.activated - {} == s.activated;
    assert DoDie(FINAL, 2) == Some(LEFT);
  }

  lemma WhatIsLeft()
    ensures Idle(LEFT) && LEFT.intact == {"a", "b"} && LEFT.open == {"b"} && LEFT.live == {1}
    ensures LEFT.specs["b"] == Second(HOST) && LEFT.disk.claims == map[A_CLAIM := Claim("a", A.owner, HOST[0])]
    ensures LEFT.disk.records == map["a" := Record(A, Completed), "b" := Record(Second(HOST), Queued)]
  {
  }

  lemma RefusalSteps()
    ensures var sec := Poller(1, "b");
            && Next(InSection(LEFT, sec, Scan({A_CLAIM}, false)), SeeClaim(A_CLAIM, "b"))
            == Some(InSection(LEFT, sec, Scan({}, true)))
            && Next(InSection(LEFT, sec, Scan({}, true)), EndScan) == Some(LEFT)
  {
    WhatIsLeft();
    hide LEFT, A_CLAIM;
    var u := InSection(LEFT, Poller(1, "b"), Scan({A_CLAIM}, false));
    assert Conflict(HOST[0], u.specs["b"].locks[0]);
    assert Clashes(u.disk.claims[A_CLAIM], "b", u.specs["b"].locks);
    assert {A_CLAIM} - {A_CLAIM} == {};
    assert DoSeeClaim(u, u.section.value, A_CLAIM, "b") == Some(InSection(LEFT, Poller(1, "b"), Scan({}, true)));
  }

  /** The poll of "b" is refused although "a" is released, no record says running and every owner is alive; the claim
      that "a" left stays in its way. */
  lemma PollRefusedWhileNobodyRuns() returns (run: seq<Event>, s: State, p: ClaimPath)
    ensures run != [] && run[|run| - 1] == EndScan && Exec(Start("b"), run) == Some(s)
    ensures var u := Exec(Start("b"), run[..|run| - 1]);
            u.Some? && u.value.section.Some? && u.value.section.value.task == Activate("b")
    ensures s.section.None? && "b" in s.open && (forall o :: !SaysRunning(s, o)) && s.specs.Keys == s.intact
    ensures p.op == "a" && "a" !in s.open && "b" in s.specs
    ensures forall seen :: BootReading(s, seen) ==> InTheWay(s, "b", p, seen)
  {
    hide Next, Exec, At, InSection;
    var sec := Poller(1, "b");
    run := ReachBoth(HOST);
    BothIsIdle(HOST);
    run := ReachFirstClaim(run, Both(HOST), 1, "a");
    ReleaseSteps();
    DeathStep();
    WhatIsLeft();
    run := Take(run, At(Both(HOST), Poller(1, "a"), ACTIVE, ToClaim(1)), Grant, GRANTED);
    run := Take(run, GRANTED, Enter(2, 7, Finalize("a", Completed)), LEAVING);
    run := Take(run, LEAVING, MarkFinal, FINAL);
    run := Take(run, FINAL, Die(2), LEFT);
    run := ReachScan(run, LEFT, 1, "b");
    RefusalSteps();
    assert LEFT.disk.claims.Keys == {A_CLAIM};
    run := Take(run, InSection(LEFT, sec, Scan({A_CLAIM}, false)), SeeClaim(A_CLAIM, "b"),
                InSection(LEFT, sec, Scan({}, true)));
    var before := run;
    run := Take(run, InSection(LEFT, sec, Scan({}, true)), EndScan, LEFT);
    assert run[..|run| - 1] == before;
    s, p := LEFT, A_CLAIM;
    StandsInTheWay();
    SectionOfScan();
  }

  lemma SectionOfScan()
    ensures InSection(LEFT, Poller(1, "b"), Scan({}, true)).section
         == Some(Poller(1, "b").(stage := Scan({}, true)))
  {
  }

  lemma StandsInTheWay()
    ensures A_CLAIM.op == "a" && forall o :: !SaysRunning(LEFT, o)
    ensures LEFT.specs.Keys == {"a", "b"}
    ensures forall seen :: BootReading(LEFT, seen) ==> InTheWay(LEFT, "b", A_CLAIM, seen)
  {
    WhatIsLeft();
    assert Conflict(HOST[0], LEFT.specs["b"].locks[0]);
    assert LEFT.boot == "b";
  }

  // An activation cut between two claims: process 2 polls "b" for process 1 and dies.

  const PAIR: seq<Lock> := [Lock("x", EXCLUSIVE, ""), Lock("y", EXCLUSIVE, "")]
  const HALF: Disk := FirstClaim(Both(PAIR).disk, "b", Second(PAIR))
  const CUT: State := Both(PAIR).(disk := HALF, live := {1})

  lemma PairIsNormalized()
    ensures Normalized(PAIR) && Normalized(HOST)
  {
    assert Tag(PAIR[0])[0] != Tag(PAIR[1])[0];
  }

  lemma CutStep()
    ensures Next(At(Both(PAIR), Poller(2, "b"), HALF, ToClaim(1)), Die(2)) == Some(CUT)
  {
    var s := At(Both(PAIR), Poller(2, "b"), HALF, ToClaim(1));
    assert OwnedBy(s, 2) == {} && {1, 2} - {2} == {1};
    assert s.intact - {} == s.intact && s.open - {} == s.open;
    assert s.granted - {} == s.granted && s.activated - {} == s.activated;
    assert DoDie(s, 2) == Some(CUT);
  }

  lemma HalfIsClaimed()
    ensures PathOf("b", PAIR[0]) != PathOf("b", PAIR[1])
    ensures ClaimsNaming(HALF, "b") == {PathOf("b", PAIR[0])}
    ensures PathOf("b", PAIR[1]) in PathsOf("b", PAIR)
    ensures CUT.section.None? && CUT.intact == {"a", "b"} && CUT.specs == map["a" := A, "b" := Second(PAIR)]
    ensures SaysRunning(CUT, "b")
  {
    assert Tag(PAIR[0])[0] != Tag(PAIR[1])[0];
  }

  /** Outside the admission lock the claims of an operation with a living owner are neither none nor the whole set. */
  lemma ClaimsCanBeHalf() returns (run: seq<Event>, s: State)
    ensures Exec(Start("b"), run) == Some(s) && s.section.None? && "b" in s.intact && "b" in s.specs
    ensures SaysRunning(s, "b")
    ensures ClaimsNaming(s.disk, "b") != {} && ClaimsNaming(s.disk, "b") != PathsOf("b", s.specs["b"].locks)
  {
    hide Next, Exec, At, SaysRunning;
    PairIsNormalized();
    run := ReachBoth(PAIR);
    BothIsIdle(PAIR);
    run := ReachFirstClaim(run, Both(PAIR), 2, "b");
    CutStep();
    run := Take(run, At(Both(PAIR), Poller(2, "b"), HALF, ToClaim(1)), Die(2), CUT);
    s := CUT;
    HalfIsClaimed();
  }
}

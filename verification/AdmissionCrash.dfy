/** A run in which a grant by record breaks mutual exclusion: the process that dies works on an operation of another
    process while a lock has no claim file yet, so the run is not clean. In the end two operations are granted that both
    lock the whole host. */
module AdmissionCrash {
  import opened Text
  import opened Locks
  import opened Admission

  const HOST: seq<Lock> := [Lock("host", EXCLUSIVE, "")]
  const A: Spec := Spec(Owner(1, "b"), "r", 7, HOST)

  const FIND_A: Section := Section(1, 7, Find("r", HOST), Stale({}))
  const FRESH: State := Start("b").(live := {1, 2})
  const ENTERED: State := FRESH.(section := Some(FIND_A))
  const LOOKING: State := FRESH.(section := Some(FIND_A.(stage := Lookup({}))))
  const CREATED: State := At(FRESH, FIND_A, PutRecord(FRESH.disk, "a", A, Queued), Indexing("a")).(
    specs := map["a" := A], intact := {"a"})
  const WAITING: State := Leave(CREATED, PutIndex(CREATED.disk, "a", A, Queued)).(open := {"a"})

  const FOREIGN: Section := Section(2, 7, Activate("a"), Stale({"a"}))
  const MARKED: State := At(WAITING, FOREIGN, PutRecord(WAITING.disk, "a", A, Running), ToIndex)
  const CRASHED: State := Leave(MARKED, MARKED.disk).(live := {1})

  const AGAIN: Section := Section(1, 7, Find("r", HOST), Stale({"a"}))
  const TRUSTED: State := CRASHED.(granted := {"a"})

  lemma FirstSteps()
    ensures Next(Start("b"), Spawn(1)) == Some(Start("b").(live := {1}))
    ensures Next(Start("b").(live := {1}), Spawn(2)) == Some(FRESH)
    ensures Next(FRESH, Enter(1, 7, Find("r", HOST))) == Some(ENTERED)
  {
    assert {1} + {2} == {1, 2};
    assert {} + {1} == {1};
    var s := FRESH;
    assert s.section.None? && 1 in s.live;
    assert MayStart(s, 7, Find("r", HOST));
    assert s.disk.index.Keys == {};
    assert DoEnter(s, 1, 7, Find("r", HOST)) == Some(ENTERED);
  }

  lemma LookSteps()
    ensures Next(ENTERED, EndStale) == Some(LOOKING)
    ensures Next(LOOKING, NewRecord("a", "b")) == Some(CREATED)
    ensures Next(CREATED, NewIndex) == Some(WAITING)
  {
    var s := ENTERED;
    assert s.disk.index.Keys == {};
    assert DoEndStale(s, s.section.value) == Some(LOOKING);
    s := LOOKING;
    assert s.specs["a" := A] == map["a" := A];
    assert s.intact + {"a"} == {"a"};
    assert DoNewRecord(s, s.section.value, "a", "b") == Some(CREATED);
    s := CREATED;
    assert s.open + ({"a"} * s.intact) == {"a"};
    assert DoNewIndex(s, s.section.value) == Some(WAITING);
  }

  lemma ForeignSteps()
    ensures Next(WAITING, Enter(2, 7, Activate("a"))) == Some(WAITING.(section := Some(FOREIGN)))
    ensures Next(WAITING.(section := Some(FOREIGN)), KeepIndex("a", "b"))
         == Some(At(WAITING, FOREIGN, WAITING.disk, Stale({})))
    ensures Next(At(WAITING, FOREIGN, WAITING.disk, Stale({})), EndStale)
         == Some(At(WAITING, FOREIGN, WAITING.disk, Scan({}, false)))
  {
    var s := WAITING;
    assert s.disk.index.Keys == {"a"};
    assert DoEnter(s, 2, 7, Activate("a")) == Some(s.(section := Some(FOREIGN)));
    var t := s.(section := Some(FOREIGN));
    assert {"a"} - {"a"} == {};
    assert t.disk.index["a"].owner == A.owner;
    assert DoKeepIndex(t, FOREIGN, "a", "b") == Some(At(s, FOREIGN, s.disk, Stale({})));
    var u := At(s, FOREIGN, s.disk, Stale({}));
    assert u.disk.claims.Keys == {};
    assert DoEndStale(u, u.section.value) == Some(At(s, FOREIGN, s.disk, Scan({}, false)));
  }

  lemma CrashSteps()
    ensures Next(At(WAITING, FOREIGN, WAITING.disk, Scan({}, false)), EndScan)
         == Some(At(WAITING, FOREIGN, WAITING.disk, ToRun))
    ensures Next(At(WAITING, FOREIGN, WAITING.disk, ToRun), MarkRunning) == Some(MARKED)
    ensures Next(MARKED, Die(2)) == Some(CRASHED)
  {
    var s := At(WAITING, FOREIGN, WAITING.disk, ToRun);
    assert s.specs["a"] == A;
    assert DoMarkRunning(s, s.section.value) == Some(MARKED);
    assert {1, 2} - {2} == {1};
    assert OwnedBy(MARKED, 2) == {};
    assert MARKED.intact - {} == {"a"} && MARKED.open - {} == {"a"};
    assert MARKED.granted - {} == {} && MARKED.activated - {} == {};
    assert DoDie(MARKED, 2) == Some(CRASHED);
  }

  lemma ReturnSteps()
    ensures Next(CRASHED, Enter(1, 7, Find("r", HOST))) == Some(CRASHED.(section := Some(AGAIN)))
    ensures Next(CRASHED.(section := Some(AGAIN)), KeepIndex("a", "b"))
         == Some(At(CRASHED, AGAIN, CRASHED.disk, Stale({})))
  {
    var s := CRASHED;
    assert s.disk.index.Keys == {"a"};
    assert DoEnter(s, 1, 7, Find("r", HOST)) == Some(s.(section := Some(AGAIN)));
    assert {"a"} - {"a"} == {};
    assert DoKeepIndex(s.(section := Some(AGAIN)), AGAIN, "a", "b") == Some(At(s, AGAIN, s.disk, Stale({})));
  }

  lemma TrustSteps()
    ensures Next(At(CRASHED, AGAIN, CRASHED.disk, Stale({})), EndStale)
         == Some(At(CRASHED, AGAIN, CRASHED.disk, Lookup({"a"})))
  {
    var s := CRASHED;
    assert s.disk.index.Keys == {"a"};
    TrimOfTight("r");
    var u := At(s, AGAIN, s.disk, Stale({}));
    assert DoEndStale(u, u.section.value) == Some(At(s, AGAIN, s.disk, Lookup({"a"})));
  }

  lemma FoundStep()
    ensures Next(At(CRASHED, AGAIN, CRASHED.disk, Lookup({"a"})), Found("a")) == Some(TRUSTED)
  {
    var v := At(CRASHED, AGAIN, CRASHED.disk, Lookup({"a"}));
    assert {} + ({"a"} * {"a"}) == {"a"};
    assert DoFound(v, v.section.value, "a") == Some(TRUSTED);
  }

  lemma Take(run: seq<Event>, s: State, e: Event, t: State) returns (longer: seq<Event>)
    requires Exec(Start("b"), run) == Some(s) && Next(s, e) == Some(t)
    ensures longer == run + [e] && Exec(Start("b"), longer) == Some(t)
  {
    longer := run + [e];
    assert longer[..|run|] == run;
  }

  lemma ReachWaiting() returns (run: seq<Event>)
    ensures Exec(Start("b"), run) == Some(WAITING)
  {
    hide Next, At;
    FirstSteps();
    LookSteps();
    run := Take([], Start("b"), Spawn(1), Start("b").(live := {1}));
    run := Take(run, Start("b").(live := {1}), Spawn(2), FRESH);
    run := Take(run, FRESH, Enter(1, 7, Find("r", HOST)), ENTERED);
    run := Take(run, ENTERED, EndStale, LOOKING);
    run := Take(run, LOOKING, NewRecord("a", "b"), CREATED);
    run := Take(run, CREATED, NewIndex, WAITING);
  }

  lemma ReachCrashed() returns (run: seq<Event>)
    ensures Exec(Start("b"), run) == Some(CRASHED)
  {
    hide Next, At, Exec;
    ForeignSteps();
    CrashSteps();
    run := ReachWaiting();
    run := Take(run, WAITING, Enter(2, 7, Activate("a")), WAITING.(section := Some(FOREIGN)));
    run := Take(run, WAITING.(section := Some(FOREIGN)), KeepIndex("a", "b"),
                At(WAITING, FOREIGN, WAITING.disk, Stale({})));
    run := Take(run, At(WAITING, FOREIGN, WAITING.disk, Stale({})), EndStale,
                At(WAITING, FOREIGN, WAITING.disk, Scan({}, false)));
    run := Take(run, At(WAITING, FOREIGN, WAITING.disk, Scan({}, false)), EndScan,
                At(WAITING, FOREIGN, WAITING.disk, ToRun));
    run := Take(run, At(WAITING, FOREIGN, WAITING.disk, ToRun), MarkRunning, MARKED);
    run := Take(run, MARKED, Die(2), CRASHED);
  }

  /** Operation "a" is granted for the whole host, unreleased, its owner never died, and yet no claim of it is on
      disk: every other operation passes the conflict scan. */
  lemma GrantWithoutClaims() returns (run: seq<Event>, s: State)
    ensures Exec(Start("b"), run) == Some(s)
    ensures s == TRUSTED
    ensures "a" in s.granted && "a" in s.specs && s.specs["a"].locks == HOST && s.disk.claims == map[]
  {
    hide Next, At, Exec;
    ReturnSteps();
    TrustSteps();
    FoundStep();
    run := ReachCrashed();
    run := Take(run, CRASHED, Enter(1, 7, Find("r", HOST)), CRASHED.(section := Some(AGAIN)));
    run := Take(run, CRASHED.(section := Some(AGAIN)), KeepIndex("a", "b"),
                At(CRASHED, AGAIN, CRASHED.disk, Stale({})));
    run := Take(run, At(CRASHED, AGAIN, CRASHED.disk, Stale({})), EndStale,
                At(CRASHED, AGAIN, CRASHED.disk, Lookup({"a"})));
    run := Take(run, At(CRASHED, AGAIN, CRASHED.disk, Lookup({"a"})), Found("a"), TRUSTED);
    s := TRUSTED;
    TrustedFields();
  }

  lemma TrustedFields()
    ensures TRUSTED.granted == {"a"} && TRUSTED.specs == map["a" := A] && TRUSTED.disk.claims == map[]
  {
  }

  const B: Spec := Spec(Owner(1, "b"), "", 7, HOST)
  const FIND_B: Section := Section(1, 7, Find("", HOST), Stale({"a"}))
  const NAMED: State := At(TRUSTED, FIND_B, PutRecord(TRUSTED.disk, "b", B, Queued), Indexing("b")).(
    specs := map["a" := A, "b" := B], intact := {"a", "b"})
  const QUEUED: State := Leave(NAMED, PutIndex(NAMED.disk, "b", B, Queued)).(open := {"a", "b"})

  const POLL: Section := Section(1, 7, Activate("b"), Stale({"a", "b"}))
  const RUNNING: State := At(QUEUED, POLL, PutRecord(QUEUED.disk, "b", B, Running), ToIndex)
  const INDEXED: State := At(RUNNING, POLL, PutIndex(RUNNING.disk, "b", B, Running), ToClaim(0))
  const CLAIMED: State := At(INDEXED, POLL, WithClaim(INDEXED.disk, "b", B.owner, HOST[0]), ToClaim(1))
  const BOTH: State := Leave(CLAIMED, CLAIMED.disk).(granted := {"a", "b"}, activated := {"b"})

  function InSection(s: State, sec: Section, stage: Stage): State {
    At(s, sec, s.disk, stage)
  }

  lemma CreateSteps()
    ensures Next(TRUSTED, Enter(1, 7, Find("", HOST))) == Some(TRUSTED.(section := Some(FIND_B)))
    ensures Next(TRUSTED.(section := Some(FIND_B)), KeepIndex("a", "b"))
         == Some(InSection(TRUSTED, FIND_B, Stale({})))
    ensures Next(InSection(TRUSTED, FIND_B, Stale({})), EndStale) == Some(InSection(TRUSTED, FIND_B, Lookup({})))
  {
    var s := TRUSTED;
    assert s.disk.index.Keys == {"a"};
    assert DoEnter(s, 1, 7, Find("", HOST)) == Some(s.(section := Some(FIND_B)));
    assert {"a"} - {"a"} == {};
    assert DoKeepIndex(s.(section := Some(FIND_B)), FIND_B, "a", "b") == Some(InSection(s, FIND_B, Stale({})));
    TrimOfTight("");
    var u := InSection(s, FIND_B, Stale({}));
    assert DoEndStale(u, u.section.value) == Some(InSection(s, FIND_B, Lookup({})));
  }

  lemma NameSteps()
    ensures Next(InSection(TRUSTED, FIND_B, Lookup({})), NewRecord("b", "b")) == Some(NAMED)
    ensures Next(NAMED, NewIndex) == Some(QUEUED)
  {
    var s := InSection(TRUSTED, FIND_B, Lookup({}));
    assert s.specs["b" := B] == map["a" := A, "b" := B] && s.intact + {"b"} == {"a", "b"};
    assert DoNewRecord(s, s.section.value, "b", "b") == Some(NAMED);
    s := NAMED;
    assert s.open + ({"b"} * s.intact) == {"a", "b"};
    assert DoNewIndex(s, s.section.value) == Some(QUEUED);
  }

  lemma PollSteps()
    ensures Next(QUEUED, Enter(1, 7, Activate("b"))) == Some(QUEUED.(section := Some(POLL)))
    ensures Next(QUEUED.(section := Some(POLL)), KeepIndex("a", "b")) == Some(InSection(QUEUED, POLL, Stale({"b"})))
    ensures Next(InSection(QUEUED, POLL, Stale({"b"})), KeepIndex("b", "b"))
         == Some(InSection(QUEUED, POLL, Stale({})))
  {
    var s := QUEUED;
    assert s.disk.index.Keys == {"a", "b"};
    assert DoEnter(s, 1, 7, Activate("b")) == Some(s.(section := Some(POLL)));
    assert {"a", "b"} - {"a"} == {"b"} && {"b"} - {"b"} == {};
    assert DoKeepIndex(s.(section := Some(POLL)), POLL, "a", "b") == Some(InSection(s, POLL, Stale({"b"})));
    var u := InSection(s, POLL, Stale({"b"}));
    assert DoKeepIndex(u, u.section.value, "b", "b") == Some(InSection(s, POLL, Stale({})));
  }

  lemma ScanSteps()
    ensures Next(InSection(QUEUED, POLL, Stale({})), EndStale) == Some(InSection(QUEUED, POLL, Scan({}, false)))
    ensures Next(InSection(QUEUED, POLL, Scan({}, false)), EndScan) == Some(InSection(QUEUED, POLL, ToRun))
  {
    var u := InSection(QUEUED, POLL, Stale({}));
    assert u.disk.claims.Keys == {};
    assert DoEndStale(u, u.section.value) == Some(InSection(QUEUED, POLL, Scan({}, false)));
  }

  lemma RunStep()
    ensures Next(InSection(QUEUED, POLL, ToRun), MarkRunning) == Some(RUNNING)
  {
    var u := InSection(QUEUED, POLL, ToRun);
    assert DoMarkRunning(u, u.section.value) == Some(RUNNING);
  }

  lemma IndexStep()
    ensures Next(RUNNING, IndexRunning) == Some(INDEXED)
  {
    assert DoIndexRunning(RUNNING, RUNNING.section.value) == Some(INDEXED);
  }

  lemma ClaimStep()
    ensures Next(INDEXED, PutClaim) == Some(CLAIMED)
  {
    assert DoPutClaim(INDEXED, INDEXED.section.value) == Some(CLAIMED);
  }

  lemma GrantStep()
    ensures Next(CLAIMED, Grant) == Some(BOTH)
  {
    assert {"a"} + ({"b"} * {"a", "b"}) == {"a", "b"} && {} + ({"b"} * {"a", "b"}) == {"b"};
    assert DoGrant(CLAIMED, CLAIMED.section.value) == Some(BOTH);
  }

  lemma BothFields()
    ensures BOTH.granted == {"a", "b"} && BOTH.specs == map["a" := A, "b" := B] && BOTH.section.None?
    ensures SetsConflict(HOST, HOST)
  {
    assert Conflict(HOST[0], HOST[0]);
  }

  /** Two operations are granted at once, unreleased, with owners that never died, and their lock sets conflict. */
  lemma GrantedCanConflict() returns (run: seq<Event>, s: State)
    ensures Exec(Start("b"), run) == Some(s) && s.section.None?
    ensures "a" in s.granted && "b" in s.granted && "a" in s.specs && "b" in s.specs
    ensures SetsConflict(s.specs["a"].locks, s.specs["b"].locks)
  {
    hide Next, At, InSection, Exec;
    CreateSteps();
    NameSteps();
    PollSteps();
    ScanSteps();
    RunStep();
    IndexStep();
    ClaimStep();
    GrantStep();
    run, s := GrantWithoutClaims();
    run := Take(run, TRUSTED, Enter(1, 7, Find("", HOST)), TRUSTED.(section := Some(FIND_B)));
    run := Take(run, TRUSTED.(section := Some(FIND_B)), KeepIndex("a", "b"), InSection(TRUSTED, FIND_B, Stale({})));
    run := Take(run, InSection(TRUSTED, FIND_B, Stale({})), EndStale, InSection(TRUSTED, FIND_B, Lookup({})));
    run := Take(run, InSection(TRUSTED, FIND_B, Lookup({})), NewRecord("b", "b"), NAMED);
    run := Take(run, NAMED, NewIndex, QUEUED);
    run := Take(run, QUEUED, Enter(1, 7, Activate("b")), QUEUED.(section := Some(POLL)));
    run := Take(run, QUEUED.(section := Some(POLL)), KeepIndex("a", "b"), InSection(QUEUED, POLL, Stale({"b"})));
    run := Take(run, InSection(QUEUED, POLL, Stale({"b"})), KeepIndex("b", "b"), InSection(QUEUED, POLL, Stale({})));
    run := Take(run, InSection(QUEUED, POLL, Stale({})), EndStale, InSection(QUEUED, POLL, Scan({}, false)));
    run := Take(run, InSection(QUEUED, POLL, Scan({}, false)), EndScan, InSection(QUEUED, POLL, ToRun));
    run := Take(run, InSection(QUEUED, POLL, ToRun), MarkRunning, RUNNING);
    run := Take(run, RUNNING, IndexRunning, INDEXED);
    run := Take(run, INDEXED, PutClaim, CLAIMED);
    run := Take(run, CLAIMED, Grant, BOTH);
    s := BOTH;
    BothFields();
  }
}

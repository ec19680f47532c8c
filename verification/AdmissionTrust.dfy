/** Why an activation must not be cut short while a lock has no claim file: a later call with the request can be granted
    by the record that already says running. */
module AdmissionTrust {
  import opened Text
  import opened Locks
  import opened Admission
  import opened AdmissionSafety
  import opened AdmissionGrants
  import opened Journal

  predicate Came(t: State, run: seq<Event>, u: State) {
    Exec(t, run) == Some(u) && CleanRun(Backing, t, run)
  }

  lemma Longer(t: State, run: seq<Event>, u: State, e: Event) returns (longer: seq<Event>)
    requires Came(t, run, u) && Next(u, e).Some? && !e.Abort? && !e.Die?
    ensures Came(t, longer, Next(u, e).value)
  {
    hide Next;
    longer := run + [e];
    assert longer[..|run|] == run;
  }

  /** The lookup by request has still the same to say about `op`, and no claim came in. */
  predicate StillListed(t: State, u: State, op: OpId) {
    && op in t.disk.index && op in u.disk.index && u.disk.index[op] == t.disk.index[op]
    && op in t.disk.records && op in u.disk.records && u.disk.records[op] == t.disk.records[op]
    && u.disk.claims.Keys <= t.disk.claims.Keys
  }

  lemma DrainErase(
      t: State, run: seq<Event>, u: State, sec: Section, todo: set<OpId>, o: OpId, left: set<ClaimPath>, purge: bool,
      op: OpId)
    returns (longer: seq<Event>, v: State)
    requires Came(t, run, u) && Reached(t, u, sec, Erase(todo, o, left, purge)) && StillListed(t, u, op)
    ensures Came(t, longer, v) && Reached(t, v, sec, Erase(todo, o, {}, purge)) && StillListed(t, v, op)
    decreases |left|
  {
    hide Next, Exec, CleanRun;
    if left == {} {
      longer, v := run, u;
    } else {
      var p :| p in left;
      StepEraseClaim(t, u, sec, todo, o, left, purge, p);
      longer := Longer(t, run, u, EraseClaim(p));
      longer, v := DrainErase(t, longer, Next(u, EraseClaim(p)).value, sec, todo, o, left - {p}, purge, op);
    }
  }

  /** Giving up another operation. */
  lemma DropAnother(t: State, run: seq<Event>, u: State, sec: Section, todo: set<OpId>, o: OpId, op: OpId, seen: string)
    returns (longer: seq<Event>, v: State)
    requires Came(t, run, u) && Reached(t, u, sec, Stale(todo)) && StillListed(t, u, op) && BootReading(t, seen)
    requires o in todo && o != op && o in u.disk.index && IsStale(u, u.section.value, o, seen)
    ensures Came(t, longer, v) && Reached(t, v, sec, Stale(todo - {o})) && StillListed(t, v, op)
  {
    hide Next, Exec, CleanRun, IsStale;
    var rest := todo - {o};
    if Readable(u.disk, o, sec.key) {
      StepAbandon(t, u, sec, todo, o, seen);
      longer := Longer(t, run, u, DropStale(o, seen));
      var u1 := Next(u, DropStale(o, seen)).value;
      longer, v := DrainErase(t, longer, u1, sec, rest, o, PathsOf(o, u.disk.records[o].spec.locks), false, op);
      StepEraseIndex(t, v, sec, rest, o, false);
      longer := Longer(t, longer, v, EraseIndex);
      v := Next(v, EraseIndex).value;
    } else {
      StepPurge(t, u, sec, todo, o, seen);
      longer := Longer(t, run, u, DropStale(o, seen));
      var u1 := Next(u, DropStale(o, seen)).value;
      longer, v := DrainErase(t, longer, u1, sec, rest, o, ClaimsNaming(u.disk, o), true, op);
      StepEraseIndex(t, v, sec, rest, o, true);
      longer := Longer(t, longer, v, EraseIndex);
      v := Next(v, EraseIndex).value;
      StepEraseRecord(t, v, sec, rest, o);
      longer := Longer(t, longer, v, EraseRecord);
      v := Next(v, EraseRecord).value;
    }
  }

  /** The scan for stale operations comes to its end and leaves an operation of the scanning process alone. */
  lemma DrainStale(t: State, run: seq<Event>, u: State, sec: Section, todo: set<OpId>, op: OpId, seen: string)
    returns (longer: seq<Event>, v: State)
    requires Came(t, run, u) && Reached(t, u, sec, Stale(todo)) && StillListed(t, u, op) && BootReading(t, seen)
    requires sec.task.Find? && t.disk.index[op].owner.pid == sec.pid && SameBoot(t.disk.index[op].owner.boot, seen)
    ensures Came(t, longer, v) && Reached(t, v, sec, Stale({})) && StillListed(t, v, op)
    decreases |todo|
  {
    hide Next, Exec, CleanRun;
    if todo == {} {
      longer, v := run, u;
    } else {
      var o :| o in todo;
      if o in u.disk.index && IsStale(u, u.section.value, o, seen) {
        longer, v := DropAnother(t, run, u, sec, todo, o, op, seen);
      } else {
        StepKeepIndex(t, u, sec, todo, o, seen);
        longer := Longer(t, run, u, KeepIndex(o, seen));
        v := Next(u, KeepIndex(o, seen)).value;
      }
      longer, v := DrainStale(t, longer, v, sec, todo - {o}, op, seen);
    }
  }

  /** A call with the request of a listed operation of its own process can be granted by a record that says running,
      whatever claims there are. */
  lemma RecordIsTrusted(t: State, op: OpId) returns (run: seq<Event>, u: State)
    requires Inv(t) && t.section.None? && op in t.intact && op in t.disk.index && SaysRunning(t, op)
    requires Trim(t.specs[op].request) != ""
    ensures Came(t, run, u) && op in u.granted && u.specs == t.specs && u.disk.claims.Keys <= t.disk.claims.Keys
  {
    hide Next, Exec, CleanRun, Conflict, ClaimsCompatible;
    var spec := t.specs[op];
    var task := Find(spec.request, []);
    var sec := Section(spec.owner.pid, spec.key, task, Stale(t.disk.index.Keys));
    StepEnterFind(t, spec.owner.pid, spec.key, spec.request, []);
    run := FirstEvent(t, Enter(spec.owner.pid, spec.key, task));
    u := Next(t, Enter(spec.owner.pid, spec.key, task)).value;
    run, u := DrainStale(t, run, u, sec, t.disk.index.Keys, op, t.boot);
    StepEndStaleFind(t, u, sec);
    run := Longer(t, run, u, EndStale);
    u := Next(u, EndStale).value;
    FoundIsGranted(t, u, sec, u.disk.index.Keys, op);
    run := Longer(t, run, u, Found(op));
    u := Next(u, Found(op)).value;
  }

  lemma FirstEvent(t: State, e: Event) returns (run: seq<Event>)
    requires Next(t, e).Some? && !e.Abort? && !e.Die?
    ensures Came(t, run, Next(t, e).value)
  {
    hide Next;
    run := Longer(t, [], t, e);
  }

  lemma FoundIsGranted(t: State, u: State, sec: Section, todo: set<OpId>, op: OpId)
    requires Reached(t, u, sec, Lookup(todo)) && StillListed(t, u, op) && op in todo && op in t.intact
    requires sec.task.Find? && Readable(u.disk, op, sec.key) && SaysRunning(u, op)
    requires u.disk.index[op].request == sec.task.request
    ensures Next(u, Found(op)).Some?
    ensures var v := Next(u, Found(op)).value; v.disk == u.disk && v.specs == t.specs && op in v.granted
  {
  }

  /** The run, if it can happen and is clean, ends with every grant backed. */
  predicate BacksGrants(t: State, run: seq<Event>) {
    Exec(t, run).Some? && CleanRun(Backing, t, run) ==>
      forall o :: o in Exec(t, run).value.granted ==> FullyBacked(Exec(t, run).value, o)
  }

  /** The operation in the middle of an activation, if any, can be found by its request. */
  predicate CanBeFound(s: State) {
    WorkingOn(s).Some? && s.section.value.task.Activate? && WorkingOn(s).value in s.specs ==>
      WorkingOn(s).value in s.disk.index && Trim(s.specs[WorkingOn(s).value].request) != ""
  }

  /** With operations that can be found by their requests, an event is clean exactly if every clean continuation backs
      every grant. */
  lemma CleanIsExactForGrants(s: State, e: Event)
    requires GrantInv(Backing, s) && Next(s, e).Some? && CanBeFound(s)
    ensures Clean(Backing, s, e) <==> forall run :: BacksGrants(Next(s, e).value, run)
  {
    hide Next, Exec, CleanRun, Clean, FullyBacked, Inv;
    var t := Next(s, e).value;
    if Clean(Backing, s, e) {
      EventKeepsGrantInv(Backing, s, e);
      forall run ensures BacksGrants(t, run) {
        if Exec(t, run).Some? && CleanRun(Backing, t, run) {
          CleanRunFrom(Backing, t, run);
        }
      }
    } else {
      var run, u := CutIsGranted(s, e);
      assert !BacksGrants(t, run);
    }
  }

  /** After a harmful cut of an activation that can be found by its request, some clean continuation grants it while a
      lock has no claim file. */
  lemma CutIsGranted(s: State, e: Event) returns (run: seq<Event>, u: State)
    requires GrantInv(Backing, s) && Next(s, e).Some? && !Clean(Backing, s, e) && CanBeFound(s)
    ensures Came(Next(s, e).value, run, u)
    ensures WorkingOn(s).Some? && WorkingOn(s).value in u.granted && !FullyBacked(u, WorkingOn(s).value)
  {
    hide Next, Exec, CleanRun, Conflict, Normalized, ClaimsCompatible;
    var t, op := Next(s, e).value, WorkingOn(s).value;
    CutLeaves(s, e);
    EventKeepsInv(s, e);
    CutHarmsExactly(Backing, s, e);
    run, u := RecordIsTrusted(t, op);
  }
}

/** Retrying an acquire with one request id. */
module AdmissionRetry {
  import opened Text
  import opened Locks
  import opened Admission
  import opened AdmissionSafety

  predicate Blank(request: string) {
    Trim(request) == ""
  }

  /** A request id is used under one journal key only. */
  predicate RequestFits(s: State, request: string, key: nat) {
    !Blank(request) ==> forall o :: o in s.specs && s.specs[o].request == request ==> s.specs[o].key == key
  }

  /** Calls for one request are serialised: no activation of an operation that was released in between, and
      request ids are not shared between journal keys. */
  predicate Serial(s: State, e: Event) {
    && (e.MarkRunning? && s.section.Some? && s.section.value.task.Activate? ==> s.section.value.task.op in s.open)
    && (e.Enter? && e.task.Find? ==> RequestFits(s, e.task.request, e.key))
  }

  predicate SerialRun(s: State, run: seq<Event>) {
    run == [] || (
      && SerialRun(s, run[..|run| - 1])
      && Exec(s, run[..|run| - 1]).Some?
      && Serial(Exec(s, run[..|run| - 1]).value, run[|run| - 1]))
  }

  predicate SameRequest(specs: map<OpId, Spec>, o: OpId, q: OpId)
    requires o in specs && q in specs
  {
    !Blank(specs[o].request) && specs[o].request == specs[q].request
  }

  predicate OnePerRequest(specs: map<OpId, Spec>, ops: set<OpId>) {
    && ops <= specs.Keys
    && (forall o, q :: o in ops && q in ops && SameRequest(specs, o, q) ==> o == q)
  }

  /** No index outside `skip` carries the request. */
  predicate NoneAsked(s: State, request: string, skip: set<OpId>) {
    !Blank(request) ==> forall o :: o in s.disk.index && o !in skip ==> s.disk.index[o].request != request
  }

  predicate RetryInv(s: State) {
    && Inv(s)
    && s.open <= s.disk.index.Keys && s.open <= s.disk.records.Keys
    && OnePerRequest(s.specs, s.disk.index.Keys)
    && (s.section.Some? ==> RetryOk(s, s.section.value))
  }

  predicate RetryOk(s: State, sec: Section) {
    && (sec.task.Find? ==> RequestFits(s, sec.task.request, sec.key))
    && (match sec.stage
        case Lookup(todo) =>
          sec.task.Find? ==> NoneAsked(s, sec.task.request, todo) && (Blank(sec.task.request) ==> todo == {})
        case Indexing(op) => op in s.disk.records && (sec.task.Find? ==> NoneAsked(s, sec.task.request, {}))
        case ToIndex => sec.task.Activate? ==> sec.task.op in s.disk.index
        case _ => true)
  }

  lemma FewerOps(specs: map<OpId, Spec>, ops: set<OpId>, more: map<OpId, Spec>, fewer: set<OpId>)
    requires OnePerRequest(specs, ops) && fewer <= ops
    requires forall o :: o in ops ==> o in more && more[o] == specs[o]
    ensures OnePerRequest(more, fewer)
  {
  }

  lemma OneMoreOp(s: State, op: OpId)
    requires FilesAgree(s) && OnePerRequest(s.specs, s.disk.index.Keys) && op in s.specs
    requires NoneAsked(s, s.specs[op].request, {})
    ensures OnePerRequest(s.specs, s.disk.index.Keys + {op})
  {
    forall o | o in s.disk.index ensures !SameRequest(s.specs, o, op) && !SameRequest(s.specs, op, o) {
      assert IndexAgrees(s.disk.index[o], s.specs[o]);
    }
  }

  lemma OutsideKeepsRetry(s: State, e: Event)
    requires RetryInv(s) && Next(s, e).Some? && Inv(Next(s, e).value) && Serial(s, e) && Outside(e)
    ensures RetryInv(Next(s, e).value)
  {
    hide Conflict, Normalized, Trim, ClaimsCompatible, Clear, OnePerRequest, IndexAgrees, ClaimAgrees, NextStale,
      NextLookup, NextScan, NextWrite, NextFinish;
  }

  lemma LookingKeepsRetry(s: State, sec: Section, e: Event)
    requires RetryInv(s) && s.section == Some(sec) && NextStale(s, sec, e).Some? && Inv(NextStale(s, sec, e).value)
    requires e.KeepIndex? || e.DropStale? || e.EndStale?
    ensures RetryInv(NextStale(s, sec, e).value)
  {
    hide Conflict, Normalized, Trim, ClaimsCompatible, Clear, OnePerRequest, IndexAgrees, ClaimAgrees,
      DoEraseClaim, DoEraseIndex, DoEraseRecord, IsStale;
    var t := NextStale(s, sec, e).value;
    FewerOps(s.specs, s.disk.index.Keys, t.specs, t.disk.index.Keys);
  }

  lemma ErasingKeepsRetry(s: State, sec: Section, e: Event)
    requires RetryInv(s) && s.section == Some(sec) && NextStale(s, sec, e).Some? && Inv(NextStale(s, sec, e).value)
    requires e.EraseClaim? || e.EraseIndex? || e.EraseRecord?
    ensures RetryInv(NextStale(s, sec, e).value)
  {
    hide Conflict, Normalized, Trim, ClaimsCompatible, Clear, OnePerRequest, IndexAgrees, ClaimAgrees,
      DoKeepIndex, DoDropStale, DoEndStale;
    var t := NextStale(s, sec, e).value;
    FewerOps(s.specs, s.disk.index.Keys, t.specs, t.disk.index.Keys);
  }

  lemma StaleKeepsRetry(s: State, sec: Section, e: Event)
    requires RetryInv(s) && s.section == Some(sec) && NextStale(s, sec, e).Some? && Inv(NextStale(s, sec, e).value)
    ensures RetryInv(NextStale(s, sec, e).value)
  {
    hide RetryInv, Inv;
    match e
    case KeepIndex(_, _) | DropStale(_, _) | EndStale => LookingKeepsRetry(s, sec, e);
    case EraseClaim(_) | EraseIndex | EraseRecord => ErasingKeepsRetry(s, sec, e);
    case _ =>
  }

  lemma LookupKeepsRetry(s: State, sec: Section, e: Event)
    requires RetryInv(s) && s.section == Some(sec) && NextLookup(s, sec, e).Some? && Inv(NextLookup(s, sec, e).value)
    requires Serial(s, e)
    ensures RetryInv(NextLookup(s, sec, e).value)
  {
    hide Conflict, Normalized, Trim, ClaimsCompatible, Clear, OnePerRequest, ClaimAgrees;
    var t := NextLookup(s, sec, e).value;
    if e.NewIndex? {
      OneMoreOp(s, sec.stage.op);
      assert t.disk.index.Keys == s.disk.index.Keys + {sec.stage.op};
    } else {
      FewerOps(s.specs, s.disk.index.Keys, t.specs, t.disk.index.Keys);
    }
  }

  lemma ScanKeepsRetry(s: State, sec: Section, e: Event)
    requires RetryInv(s) && s.section == Some(sec) && NextScan(s, sec, e).Some? && Inv(NextScan(s, sec, e).value)
    requires Serial(s, e)
    ensures RetryInv(NextScan(s, sec, e).value)
  {
    hide Conflict, Normalized, Trim, ClaimsCompatible, Clear, OnePerRequest, IndexAgrees, ClaimAgrees;
    var t := NextScan(s, sec, e).value;
    FewerOps(s.specs, s.disk.index.Keys, t.specs, t.disk.index.Keys);
  }

  lemma WriteKeepsRetry(s: State, sec: Section, e: Event)
    requires RetryInv(s) && s.section == Some(sec) && NextWrite(s, sec, e).Some? && Inv(NextWrite(s, sec, e).value)
    requires Serial(s, e)
    ensures RetryInv(NextWrite(s, sec, e).value)
  {
    hide Conflict, Normalized, Trim, ClaimsCompatible, Clear, OnePerRequest, IndexAgrees, ClaimAgrees;
    var t := NextWrite(s, sec, e).value;
    FewerOps(s.specs, s.disk.index.Keys, t.specs, t.disk.index.Keys);
  }

  lemma FinishKeepsRetry(s: State, sec: Section, e: Event)
    requires RetryInv(s) && s.section == Some(sec) && NextFinish(s, sec, e).Some? && Inv(NextFinish(s, sec, e).value)
    requires Serial(s, e)
    ensures RetryInv(NextFinish(s, sec, e).value)
  {
    hide Conflict, Normalized, Trim, ClaimsCompatible, Clear, OnePerRequest, IndexAgrees, ClaimAgrees;
    var t := NextFinish(s, sec, e).value;
    FewerOps(s.specs, s.disk.index.Keys, t.specs, t.disk.index.Keys);
  }

  lemma EventKeepsRetryInv(s: State, e: Event)
    requires RetryInv(s) && Next(s, e).Some? && Serial(s, e)
    ensures RetryInv(Next(s, e).value)
  {
    hide Inv, Serial, NextStale, NextLookup, NextScan, NextWrite, NextFinish;
    EventKeepsInv(s, e);
    if Outside(e) {
      OutsideKeepsRetry(s, e);
    } else {
      var sec := s.section.value;
      match e
      case KeepIndex(_, _) | DropStale(_, _) | EraseClaim(_) | EraseIndex | EraseRecord | EndStale =>
        StaleKeepsRetry(s, sec, e);
      case SkipIndex(_) | DiscardIndex(_) | Found(_) | NewRecord(_, _) | NewIndex => LookupKeepsRetry(s, sec, e);
      case SweepClaim(_, _) | SeeClaim(_, _) | EndScan => ScanKeepsRetry(s, sec, e);
      case MarkRunning | IndexRunning | PutClaim | Grant => WriteKeepsRetry(s, sec, e);
      case MarkFinal | DropClaim | DropIndex => FinishKeepsRetry(s, sec, e);
      case _ =>
    }
  }

  lemma {:induction false} SerialRunKeepsRetryInv(boot: string, run: seq<Event>)
    requires Exec(Start(boot), run).Some? && SerialRun(Start(boot), run)
    ensures RetryInv(Exec(Start(boot), run).value)
  {
    if run == [] {
    } else {
      SerialRunKeepsRetryInv(boot, run[..|run| - 1]);
      EventKeepsRetryInv(Exec(Start(boot), run[..|run| - 1]).value, run[|run| - 1]);
    }
  }

  lemma OpenIsFound(s: State, o: OpId, sec: Section)
    requires RetryInv(s) && o in s.open && o in s.specs && !Blank(s.specs[o].request)
    requires s.section == Some(sec) && sec.task.Find? && sec.key == s.specs[o].key
    requires sec.task.request == s.specs[o].request
    ensures forall q, seen :: DoNewRecord(s, sec, q, seen).None?
    ensures forall q :: DoFound(s, sec, q).Some? ==> q == o
    ensures !sec.stage.Indexing?
  {
    hide Conflict, Normalized, Trim, ClaimsCompatible, Clear, ClaimAgrees, Serial, SerialRun;
    assert IndexAgrees(s.disk.index[o], s.specs[o]);
    forall q | DoFound(s, sec, q).Some? ensures q == o {
      assert IndexAgrees(s.disk.index[q], s.specs[q]);
      assert SameRequest(s.specs, o, q);
    }
  }

  /** While an operation is open, a call with its request id and journal key can neither create another record
      nor settle on another operation. */
  lemma RetryFindsTheOpenOperation(boot: string, run: seq<Event>, o: OpId, sec: Section)
    requires Exec(Start(boot), run).Some? && SerialRun(Start(boot), run)
    requires var s := Exec(Start(boot), run).value;
             && o in s.open && o in s.specs && !Blank(s.specs[o].request)
             && s.section == Some(sec) && sec.task.Find? && sec.key == s.specs[o].key
             && sec.task.request == s.specs[o].request
    ensures var s := Exec(Start(boot), run).value;
            && (forall q, seen :: DoNewRecord(s, sec, q, seen).None?)
            && (forall q :: DoFound(s, sec, q).Some? ==> q == o)
            && !sec.stage.Indexing?
  {
    SerialRunKeepsRetryInv(boot, run);
    OpenIsFound(Exec(Start(boot), run).value, o, sec);
  }
}

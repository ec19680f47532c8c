/** Lock sets: how a planned set is normalised on its way to the host, and when two locks exclude each other
    (providers/shared/engine/locks.go, providers/shared/hostsession/manager.go,
    executor/runtime/operation_journal.go). */
module Locks {
  import opened Text

  datatype Lock = Lock(key: string, mode: string, source: string)

  const SHARED := "shared"
  const EXCLUSIVE := "exclusive"

  const RESTART_LOCKS: seq<Lock> := [
    Lock("reboot:host", EXCLUSIVE, "restart host action"),
    Lock("host", EXCLUSIVE, "restart host action")
  ]

  predicate IsDominating(key: string) {
    key == "host" || key == "reboot:host"
  }

  predicate Conflict(active: Lock, requested: Lock) {
    if active.key == "" || requested.key == "" then false
    else if IsDominating(active.key) || IsDominating(requested.key) then true
    else if active.key != requested.key then false
    else !(active.mode == SHARED && requested.mode == SHARED)
  }

  /** Two operations may hold these locks at once: neither is on the whole host or on its reboot, and if both are on one
      key, both are shared. */
  predicate MayShare(a: Lock, b: Lock) {
    && {a.key, b.key} !! {"host", "reboot:host"}
    && (a.key == b.key ==> a.mode == b.mode == "shared")
  }

  /** A lock without a key excludes nothing. */
  lemma ConflictExactly(a: Lock, b: Lock)
    ensures Conflict(a, b) <==> a.key != "" && b.key != "" && !MayShare(a, b)
  {
    assert a.key in {a.key, b.key} && b.key in {a.key, b.key};
  }

  /** Some lock of `xs` excludes some lock of `ys`. */
  predicate SetsConflict(xs: seq<Lock>, ys: seq<Lock>) {
    exists i, j :: 0 <= i < |xs| && 0 <= j < |ys| && Conflict(xs[i], ys[j])
  }

  function Tag(l: Lock): string {
    l.key + "|" + l.mode
  }

  predicate TagIn(tag: string, locks: seq<Lock>) {
    exists i :: 0 <= i < |locks| && Tag(locks[i]) == tag
  }

  /** What both normalisers leave behind: usable keys and modes, one lock per tag. */
  predicate Normalized(locks: seq<Lock>) {
    && (forall i :: 0 <= i < |locks| ==> locks[i].key != "" && locks[i].mode != "")
    && (forall i, j :: 0 <= i < j < |locks| ==> Tag(locks[i]) != Tag(locks[j]))
  }

  /** Excludes, and is excluded by, every lock of a host restart. */
  predicate ExcludesRestart(l: Lock) {
    forall i :: 0 <= i < |RESTART_LOCKS| ==> Conflict(l, RESTART_LOCKS[i]) && Conflict(RESTART_LOCKS[i], l)
  }

  function LockModeForAction(action: string): string {
    if action in {"validate", "read", "import", "data_read"} then SHARED else EXCLUSIVE
  }

  function DefaultLockSet(action: string): seq<Lock> {
    var mode := LockModeForAction(action);
    [Lock("host", mode, if mode == SHARED then "default host read lock" else "default host lock")]
  }

  function WithMode(l: Lock, mode: string): Lock {
    if l.mode == "" then l.(mode := mode) else l
  }

  /** The planner ignores keys of white space; the executor ignores only the empty key. */
  predicate Blank(trimmed: bool, key: string) {
    (if trimmed then Trim(key) else key) == ""
  }

  /** Keep the first usable lock of every tag, in order. */
  function Dedup(trimmed: bool, mode: string, locks: seq<Lock>): seq<Lock> {
    if locks == [] then [] else
      var kept := Dedup(trimmed, mode, locks[..|locks| - 1]);
      var l := WithMode(locks[|locks| - 1], mode);
      if Blank(trimmed, l.key) || TagIn(Tag(l), kept) then kept else kept + [l]
  }

  function PlannedLocks(action: string, locks: seq<Lock>): seq<Lock> {
    var kept := Dedup(true, LockModeForAction(action), locks);
    if kept == [] then DefaultLockSet(action) else kept
  }

  /** The loop both normalisers share. */
  method DedupLocks(trimmed: bool, mode: string, locks: seq<Lock>) returns (normalized: seq<Lock>)
    ensures normalized == Dedup(trimmed, mode, locks)
  {
    normalized := [];
    var seen: set<string> := {};
    for n := 0 to |locks|
      invariant normalized == Dedup(trimmed, mode, locks[..n])
      invariant forall tag :: tag in seen <==> TagIn(tag, normalized)
    {
      assert locks[..n + 1][..n] == locks[..n];
      var lock := WithMode(locks[n], mode);
      if !Blank(trimmed, locks[n].key) && Tag(lock) !in seen {
        ghost var before := normalized;
        normalized := normalized + [lock];
        forall tag ensures tag in seen + {Tag(lock)} <==> TagIn(tag, normalized) {
          if TagIn(tag, before) {
            var i :| 0 <= i < |before| && Tag(before[i]) == tag;
            assert normalized[i] == before[i];
          }
          assert normalized[|before|] == lock;
        }
        seen := seen + {Tag(lock)};
      }
    }
    assert locks[..|locks|] == locks;
  }

  /** engine.NormalizeLockSet. */
  method NormalizePlannedLocks(action: string, locks: seq<Lock>) returns (normalized: seq<Lock>)
    ensures normalized == PlannedLocks(action, locks)
  {
    if |locks| == 0 {
      return DefaultLockSet(action);
    }
    normalized := DedupLocks(true, LockModeForAction(action), locks);
    if |normalized| == 0 {
      normalized := DefaultLockSet(action);
    }
  }

  /** The whole way of a plan: engine.NormalizeLockSet, toRPCLockSet, then the executor's normalizeLockSet. */
  method SendLockSet(action: string, locks: seq<Lock>) returns (stored: seq<Lock>)
    ensures stored == PlannedLocks(action, locks)
    ensures Normalized(stored) && stored != []
    ensures forall i :: 0 <= i < |stored| ==> ExcludesRestart(stored[i])
  {
    var planned := NormalizePlannedLocks(action, locks);
    var sent: seq<Lock> := [];
    for n := 0 to |planned|
      invariant sent == planned[..n]
    {
      sent := sent + [Lock(planned[n].key, planned[n].mode, planned[n].source)];
    }
    assert sent == planned;
    stored := DedupLocks(false, EXCLUSIVE, sent);
    PlannedIsNormalized(action, locks);
    ExecutorKeepsPlan(action, locks);
    RestartExcludesEveryPlan(action, locks);
  }

  lemma {:induction false} DedupIsNormalized(trimmed: bool, mode: string, locks: seq<Lock>)
    requires mode != ""
    ensures Normalized(Dedup(trimmed, mode, locks))
    ensures forall l :: l in Dedup(trimmed, mode, locks) ==> !Blank(trimmed, l.key)
  {
    if locks == [] {
    } else {
      DedupIsNormalized(trimmed, mode, locks[..|locks| - 1]);
    }
  }

  /** Nothing is invented and nothing usable is lost: the result holds exactly the usable tags of the input. */
  lemma {:induction false} DedupKeepsTags(trimmed: bool, mode: string, locks: seq<Lock>, tag: string)
    ensures TagIn(tag, Dedup(trimmed, mode, locks)) <==>
            exists i :: 0 <= i < |locks| && !Blank(trimmed, locks[i].key) && Tag(WithMode(locks[i], mode)) == tag
  {
    if locks == [] {
    } else {
      var n := |locks| - 1;
      DedupKeepsTags(trimmed, mode, locks[..n], tag);
      var kept := Dedup(trimmed, mode, locks[..n]);
      var l := WithMode(locks[n], mode);
      assert forall i :: 0 <= i < n ==> locks[..n][i] == locks[i];
      if !Blank(trimmed, l.key) && !TagIn(Tag(l), kept) {
        assert forall i :: 0 <= i < |kept| ==> (kept + [l])[i] == kept[i];
        assert (kept + [l])[|kept|] == l;
      }
    }
  }

  lemma {:induction false} DedupOfNormalized(mode: string, locks: seq<Lock>)
    requires Normalized(locks)
    ensures Dedup(false, mode, locks) == locks
  {
    if locks == [] {
    } else {
      hide Tag;
      var n := |locks| - 1;
      DedupOfNormalized(mode, locks[..n]);
      assert WithMode(locks[n], mode) == locks[n];
      assert !TagIn(Tag(locks[n]), locks[..n]);
      assert locks == locks[..n] + [locks[n]];
    }
  }

  lemma PlannedIsNormalized(action: string, locks: seq<Lock>)
    ensures Normalized(PlannedLocks(action, locks)) && PlannedLocks(action, locks) != []
  {
    DedupIsNormalized(true, LockModeForAction(action), locks);
  }

  /** The executor stores exactly the set the planner settled on. */
  lemma ExecutorKeepsPlan(action: string, locks: seq<Lock>)
    ensures Dedup(false, EXCLUSIVE, PlannedLocks(action, locks)) == PlannedLocks(action, locks)
  {
    PlannedIsNormalized(action, locks);
    DedupOfNormalized(EXCLUSIVE, PlannedLocks(action, locks));
  }

  /** The executor stores the two locks of a host restart as they are sent. */
  lemma RestartLocksAreStored()
    ensures Dedup(false, EXCLUSIVE, RESTART_LOCKS) == RESTART_LOCKS
  {
    assert Tag(RESTART_LOCKS[0])[0] != Tag(RESTART_LOCKS[1])[0];
    DedupOfNormalized(EXCLUSIVE, RESTART_LOCKS);
  }

  /** A plan in which the modes are left to the action, or are one of the two that there are. */
  predicate PlainModes(plan: seq<Lock>) {
    forall i :: 0 <= i < |plan| ==> plan[i].mode in {"", "shared", "exclusive"}
  }

  /** Every lock of the result is one of the input, with the mode of the action where it has none. */
  lemma {:induction false} DedupComesFrom(trimmed: bool, mode: string, locks: seq<Lock>, l: Lock) returns (i: nat)
    requires l in Dedup(trimmed, mode, locks)
    ensures i < |locks| && l == WithMode(locks[i], mode)
  {
    var n := |locks| - 1;
    if l in Dedup(trimmed, mode, locks[..n]) {
      i := DedupComesFrom(trimmed, mode, locks[..n], l);
      assert locks[..n][i] == locks[i];
    } else {
      i := n;
    }
  }

  lemma SameTag(a: Lock, b: Lock)
    requires a.mode in {"shared", "exclusive"} && b.mode in {"shared", "exclusive"} && Tag(a) == Tag(b)
    ensures a.key == b.key && a.mode == b.mode
  {
    var s, t := Tag(a), Tag(b);
    assert s[|s| - 1] == a.mode[|a.mode| - 1] && t[|t| - 1] == b.mode[|b.mode| - 1];
    assert a.mode == b.mode by {
      assert "shared"[|"shared"| - 1] == 'd' && "exclusive"[|"exclusive"| - 1] == 'e';
    }
    assert s[..|a.key|] == a.key && t[..|b.key|] == b.key;
  }

  /** Each usable lock of the plan is in the planned set, with its key and its mode. */
  lemma PlannedHolds(action: string, plan: seq<Lock>, i: nat) returns (j: nat)
    requires PlainModes(plan) && i < |plan| && Trim(plan[i].key) != ""
    ensures j < |PlannedLocks(action, plan)| && PlannedLocks(action, plan)[j].key == plan[i].key
    ensures PlannedLocks(action, plan)[j].mode
         == if plan[i].mode != "" then plan[i].mode
            else if action in {"validate", "read", "import", "data_read"} then "shared" else "exclusive"
  {
    hide Tag;
    var mode := LockModeForAction(action);
    var l := WithMode(plan[i], mode);
    DedupKeepsTags(true, mode, plan, Tag(l));
    var kept := Dedup(true, mode, plan);
    j :| 0 <= j < |kept| && Tag(kept[j]) == Tag(l);
    var k := DedupComesFrom(true, mode, plan, kept[j]);
    SameTag(kept[j], l);
  }

  /** The plan of an action that only reads: modes are left to the action, and no lock is on the whole host. */
  predicate ReadPlan(action: string, plan: seq<Lock>) {
    && action in {"validate", "read", "import", "data_read"}
    && (forall l :: l in plan ==> l.mode == "" && l.key !in {"host", "reboot:host"})
    && (exists l :: l in plan && Trim(l.key) != "")
  }

  /** Actions that only read share the keys of their plans, the host aside. */
  lemma ReadersShare(action: string, plan: seq<Lock>, action': string, plan': seq<Lock>, i: nat, j: nat)
    requires ReadPlan(action, plan) && ReadPlan(action', plan')
    requires i < |PlannedLocks(action, plan)| && j < |PlannedLocks(action', plan')|
    ensures MayShare(PlannedLocks(action, plan)[i], PlannedLocks(action', plan')[j])
  {
    hide PlannedLocks, ReadPlan;
    SharedPlan(action, plan, i);
    SharedPlan(action', plan', j);
  }

  lemma SharedPlan(action: string, plan: seq<Lock>, i: nat)
    requires ReadPlan(action, plan) && i < |PlannedLocks(action, plan)|
    ensures var l := PlannedLocks(action, plan)[i]; l.mode == "shared" && l.key !in {"host", "reboot:host"}
  {
    hide Tag;
    var kept := Dedup(true, LockModeForAction(action), plan);
    var l :| l in plan && Trim(l.key) != "";
    var k :| 0 <= k < |plan| && plan[k] == l;
    var _ := PlannedHolds(action, plan, k);
    if kept == [] {
      DedupKeepsTags(true, LockModeForAction(action), plan, Tag(WithMode(l, LockModeForAction(action))));
      assert false;
    }
    var m := DedupComesFrom(true, LockModeForAction(action), plan, kept[i]);
  }

  /** An action that may change something excludes every other plan with one of its keys. */
  lemma WritersExclude(action: string, plan: seq<Lock>, i: nat, action': string, plan': seq<Lock>, j: nat)
    requires action !in {"validate", "read", "import", "data_read"} && PlainModes(plan) && PlainModes(plan')
    requires i < |plan| && j < |plan'| && plan[i].key == plan'[j].key && Trim(plan[i].key) != ""
    requires plan[i].mode == ""
    ensures SetsConflict(PlannedLocks(action, plan), PlannedLocks(action', plan'))
  {
    hide PlannedLocks;
    var a := PlannedHolds(action, plan, i);
    var b := PlannedHolds(action', plan', j);
    PlannedIsNormalized(action, plan);
    assert Conflict(PlannedLocks(action, plan)[a], PlannedLocks(action', plan')[b]);
  }

  lemma ConflictIsSymmetric(a: Lock, b: Lock)
    ensures Conflict(a, b) == Conflict(b, a)
  {
  }

  /** Every lock of every plan excludes every lock of a host restart. */
  lemma RestartExcludesEveryPlan(action: string, locks: seq<Lock>)
    ensures SetsConflict(RESTART_LOCKS, PlannedLocks(action, locks))
    ensures forall i :: 0 <= i < |PlannedLocks(action, locks)| ==> ExcludesRestart(PlannedLocks(action, locks)[i])
  {
    PlannedIsNormalized(action, locks);
    assert Conflict(RESTART_LOCKS[0], PlannedLocks(action, locks)[0]);
  }
}

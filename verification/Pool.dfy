/** The connection pool (providers/shared/transport/pool.go). Every section under the pool mutex is one method, so any
    interleaving of callers is a sequence of these calls, and what `Valid` says holds in all of them. */
module Pool {
  import opened Text

  /** Of a session its cache key, its use count, its time of last use and its two fingerprints matter here: the one seen
      on the wire and the one in its configuration. */
  class Session {
    const key: string
    var lastUsed: int
    var inUse: int
    var observed: string
    var configured: string

    constructor (key: string, now: int, observed: string, configured: string)
      ensures this.key == key && lastUsed == now && inUse == 0
      ensures this.observed == observed && this.configured == configured
    {
      this.key := key;
      lastUsed, inUse := now, 0;
      this.observed, this.configured := observed, configured;
    }

    /** The session is refused exactly if both fingerprints are known and differ. */
    predicate Trusted(expected: string)
      reads this
    {
      Trim(expected) == "" || Trim(observed) == "" || Trim(expected) == Trim(observed)
    }

    /** validateSessionTrust; an accepted session remembers the fingerprint it was asked for. */
    method ValidateTrust(expected: string) returns (ok: bool)
      modifies this`configured
      ensures ok <==> Trusted(expected)
      ensures configured == if Trusted(expected) && Trim(expected) != "" &&
                               (Trim(observed) != "" || old(configured) == "")
                            then Trim(expected) else old(configured)
    {
      var want, have := Trim(expected), Trim(observed);
      if want == "" || have == "" {
        if want != "" && configured == "" {
          configured := want;
        }
        return true;
      }
      if want == have {
        configured := want;
        return true;
      }
      return false;
    }

    predicate InUse()
      reads this
    {
      inUse > 0
    }

    method AcquireUse()
      modifies this`inUse
      ensures inUse == old(inUse) + 1
    {
      inUse := inUse + 1;
    }

    /** The count does not stay below zero. */
    method ReleaseUse()
      modifies this`inUse
      ensures inUse == if old(inUse) > 0 then old(inUse) - 1 else 0
    {
      inUse := inUse - 1;
      if inUse < 0 {
        inUse := 0;
      }
    }
  }

  /** One connect or reconnect in flight; `err` is 0 for success. Waiters read session and err once it is done. */
  class Attempt {
    const key: string
    const connects: bool
    var done: bool
    var session: Session?
    var err: int

    constructor (key: string, connects: bool)
      ensures this.key == key && this.connects == connects && !done && session == null && err == 0
    {
      this.key, this.connects := key, connects;
      done, session, err := false, null, 0;
    }
  }

  datatype Lookup = Wait(attempt: Attempt) | Cached(session: Session) | Untrusted | Connect(started: Attempt)

  /** What a waiter of GetOrCreate makes of a finished attempt. */
  datatype Waited = Again | Failed(err: int) | Got(session: Session) | Refused

  class ConnectionPool {
    const maxConns: nat
    var sessions: map<string, Session>
    var inflight: map<string, Attempt>
    ghost var attempts: set<Attempt>

    ghost predicate Valid()
      reads this, attempts
    {
      ValidAttempts() && ValidCache()
    }

    /** An attempt is in flight, alone for its key, exactly until it is done; then it has a result for its waiters. */
    ghost predicate ValidAttempts()
      reads this, attempts
    {
      && (forall k <- inflight :: inflight[k] in attempts && inflight[k].key == k)
      && (forall a <- attempts :: !a.done <==> a.key in inflight && inflight[a.key] == a)
      && (forall a <- attempts :: a.done && a.err == 0 ==> a.session != null && a.session.key == a.key)
    }

    /** A session is cached under its own cache key, and never while a connect for that key is in flight. */
    ghost predicate ValidCache()
      reads this, attempts
    {
      && (forall k <- sessions :: sessions[k].key == k)
      && (forall a <- attempts :: !a.done && a.connects ==> a.key !in sessions)
    }

    constructor (maxConns: nat)
      ensures Valid() && sessions == map[] && inflight == map[] && attempts == {} && this.maxConns == maxConns
    {
      this.maxConns := maxConns;
      sessions, inflight, attempts := map[], map[], {};
    }

    /** The first section of GetOrCreate: wait for the attempt in flight, take the cached session if it is trusted, or
        start the one connect of this key. */
    method Find(key: string, expected: string, now: int) returns (r: Lookup)
      requires Valid()
      modifies this`inflight, this`attempts, sessions.Values
      ensures Valid() && sessions == old(sessions)
      ensures key in old(inflight) ==> r == Wait(old(inflight)[key])
      ensures key !in old(inflight) && key in sessions ==>
                r == if old(sessions[key].Trusted(expected)) then Cached(sessions[key]) else Untrusted
      ensures key !in old(inflight) && key !in sessions <==> r.Connect?
      ensures r.Connect? ==>
                && fresh(r.started) && !r.started.done && r.started.connects && r.started.key == key
                && inflight == old(inflight)[key := r.started] && attempts == old(attempts) + {r.started}
      ensures !r.Connect? ==> inflight == old(inflight) && attempts == old(attempts)
      ensures r.Cached? ==> r.session.key == key && r.session.lastUsed == now
      ensures forall k <- sessions ::
                sessions[k].inUse == old(sessions[k].inUse) && sessions[k].observed == old(sessions[k].observed)
      ensures forall k <- sessions :: k != key || !r.Cached? ==> sessions[k].lastUsed == old(sessions[k].lastUsed)
    {
      if key in inflight {
        return Wait(inflight[key]);
      }
      if key in sessions {
        var session := sessions[key];
        var ok := session.ValidateTrust(expected);
        if !ok {
          return Untrusted;
        }
        session.lastUsed := now;
        return Cached(session);
      }
      var attempt := new Attempt(key, true);
      inflight := inflight[key := attempt];
      attempts := attempts + {attempt};
      return Connect(attempt);
    }

    /** A waiter of GetOrCreate after the attempt: it looks again after an error worth a retry, and otherwise has an
        error or a session of the right key, if that is trusted. It never ends up with neither. */
    method AfterWait(attempt: Attempt, expected: string, now: int, retryable: bool) returns (r: Waited)
      requires Valid() && attempt in attempts && attempt.done
      modifies attempt.session
      ensures Valid()
      ensures attempt.err != 0 ==> r == if retryable then Again else Failed(attempt.err)
      ensures attempt.err == 0 ==>
                && attempt.session != null && attempt.session.key == attempt.key
                && r == if old(attempt.session.Trusted(expected)) then Got(attempt.session) else Refused
      ensures r.Got? ==> r.session.lastUsed == now
    {
      if attempt.err != 0 {
        return if retryable then Again else Failed(attempt.err);
      }
      var session := attempt.session;
      var ok := session.ValidateTrust(expected);
      if !ok {
        return Refused;
      }
      session.lastUsed := now;
      return Got(session);
    }

    /** What a waiter gets is the result of the attempt it waited for: an error, or a session of the right key. */
    method Result(attempt: Attempt) returns (session: Session?, err: int)
      requires Valid() && attempt in attempts && attempt.done
      ensures session == attempt.session && err == attempt.err
      ensures err == 0 ==> session != null && session.key == attempt.key
    {
      session, err := attempt.session, attempt.err;
    }

    /** The idle session used longest ago leaves the pool; none leaves only when every session is in use. */
    method EvictLRU() returns (victim: Session?)
      modifies this`sessions
      ensures victim == null ==> sessions == old(sessions) && forall k <- sessions :: sessions[k].InUse()
      ensures victim != null ==>
                exists k <- old(sessions) ::
                  && old(sessions)[k] == victim && !victim.InUse() && sessions == old(sessions) - {k}
                  && forall j <- old(sessions) ::
                       old(sessions)[j].InUse() || victim.lastUsed <= old(sessions)[j].lastUsed
    {
      var oldestKey, oldestTime, found := "", 0, false;
      var rest := sessions.Keys;
      while rest != {}
        invariant rest <= sessions.Keys
        invariant !found ==> forall j <- sessions :: j in rest || sessions[j].InUse()
        invariant found ==> oldestKey in sessions && !sessions[oldestKey].InUse()
        invariant found ==> oldestTime == sessions[oldestKey].lastUsed
        invariant found ==>
                    forall j <- sessions :: j in rest || sessions[j].InUse() || oldestTime <= sessions[j].lastUsed
        decreases |rest|
      {
        var key :| key in rest;
        rest := rest - {key};
        var session := sessions[key];
        if session.InUse() {
          continue;
        }
        if !found || session.lastUsed < oldestTime {
          oldestKey, oldestTime, found := key, session.lastUsed, true;
        }
      }
      if !found {
        return null;
      }
      victim := sessions[oldestKey];
      sessions := sessions - {oldestKey};
    }

    /** Cache a connected session, after making room when the pool is full. */
    method Store(session: Session) returns (victim: Session?)
      requires session.key !in sessions
      modifies this`sessions
      ensures Room(old(sessions), sessions, victim, session)
      ensures victim != null ==> |old(sessions)| >= maxConns && LongestIdle(victim, old(sessions))
      ensures |sessions| > maxConns && |sessions| > |old(sessions)| ==> AllInUse(old(sessions))
    {
      victim := null;
      if |sessions| >= maxConns {
        victim := EvictLRU();
      }
      SizeOfExtended(sessions, session.key, session);
      sessions := sessions[session.key := session];
    }

    /** The end of a connect. The attempt is always the current one, so its waiters get its result; the new session
        overwrites none; and the pool grows past its limit only when every cached session is in use. */
    method FinishConnect(attempt: Attempt, session: Session?, err: int) returns (victim: Session?)
      requires Valid() && attempt in attempts && !attempt.done && attempt.connects
      requires (err == 0) == (session != null) && (session != null ==> session.key == attempt.key)
      modifies this`sessions, this`inflight, attempt
      ensures Valid()
      ensures attempt.key in old(inflight) && old(inflight)[attempt.key] == attempt
      ensures attempt.done && attempt.session == session && attempt.err == err
      ensures inflight == old(inflight) - {attempt.key}
      ensures attempt.key !in old(sessions)
      ensures if session == null then sessions == old(sessions) && victim == null
              else Room(old(sessions), sessions, victim, session)
      ensures victim != null ==> |old(sessions)| >= maxConns && LongestIdle(victim, old(sessions))
      ensures |sessions| > maxConns && |sessions| > |old(sessions)| ==> AllInUse(old(sessions))
    {
      hide Room, LongestIdle, AllInUse;
      victim := null;
      if attempt.key in inflight && inflight[attempt.key] == attempt {
        if session != null {
          victim := Store(session);
          RoomKeepsKeys(old(sessions), sessions, victim, session);
        }
        Conclude(attempt, session, err);
      }
    }

    /** The result is for the waiters, the key is free again. */
    method Conclude(attempt: Attempt, session: Session?, err: int)
      requires ValidAttempts() && attempt in attempts && !attempt.done
      requires err == 0 ==> session != null && session.key == attempt.key
      modifies this`inflight, attempt
      ensures ValidAttempts() && attempt.done && attempt.session == session && attempt.err == err
      ensures inflight == old(inflight) - {attempt.key}
    {
      inflight := inflight - {attempt.key};
      attempt.session := session;
      attempt.err := err;
      attempt.done := true;
    }

    /** The first section of ReconnectWithReason. */
    method StartReconnect(session: Session) returns (r: Lookup)
      requires Valid()
      modifies this`inflight, this`attempts
      ensures Valid()
      ensures session.key in old(inflight) ==>
                r == Wait(old(inflight)[session.key]) && inflight == old(inflight) && attempts == old(attempts)
      ensures session.key !in old(inflight) ==>
                && r.Connect? && fresh(r.started) && !r.started.done && !r.started.connects
                && r.started.key == session.key && inflight == old(inflight)[session.key := r.started]
                && attempts == old(attempts) + {r.started}
    {
      if session.key in inflight {
        return Wait(inflight[session.key]);
      }
      var attempt := new Attempt(session.key, false);
      inflight := inflight[session.key := attempt];
      attempts := attempts + {attempt};
      return Connect(attempt);
    }

    /** The end of a reconnect: the session is cached under its key again, or dropped. */
    method FinishReconnect(attempt: Attempt, session: Session, err: int)
      requires Valid() && attempt in attempts && !attempt.done && !attempt.connects && session.key == attempt.key
      modifies this`sessions, this`inflight, attempt
      ensures Valid()
      ensures attempt.key in old(inflight) && old(inflight)[attempt.key] == attempt
      ensures attempt.done && attempt.session == session && attempt.err == err
      ensures inflight == old(inflight) - {attempt.key}
      ensures sessions == if err != 0 then old(sessions) - {attempt.key} else old(sessions)[attempt.key := session]
    {
      if attempt.key in inflight && inflight[attempt.key] == attempt {
        if err != 0 {
          sessions := sessions - {attempt.key};
        } else {
          sessions := sessions[attempt.key := session];
        }
        Conclude(attempt, session, err);
      }
    }

    /** At most one attempt per key is in flight, and while it is a connect its key has no cached session. */
    lemma OneAttemptPerKey(a: Attempt, b: Attempt)
      requires Valid() && a in attempts && b in attempts && a.key == b.key && !a.done && !b.done
      ensures a == b && inflight[a.key] == a
      ensures a.connects ==> a.key !in sessions
    {}

    method Remove(key: string) returns (session: Session?)
      requires Valid()
      modifies this`sessions
      ensures Valid() && sessions == old(sessions) - {key}
      ensures session == if key in old(sessions) then old(sessions)[key] else null
    {
      session := if key in sessions then sessions[key] else null;
      sessions := sessions - {key};
    }

    method Close() returns (closed: set<Session>)
      requires Valid()
      modifies this`sessions
      ensures Valid() && sessions == map[] && closed == old(sessions).Values
    {
      closed := sessions.Values;
      sessions := map[];
    }
  }

  ghost predicate AllInUse(among: map<string, Session>)
    reads among.Values
  {
    forall k <- among :: among[k].InUse()
  }

  ghost predicate LongestIdle(victim: Session, among: map<string, Session>)
    reads victim, among.Values
  {
    !victim.InUse() && forall j <- among :: among[j].InUse() || victim.lastUsed <= among[j].lastUsed
  }

  /** The new session is in the pool under its key, every other session but the victim stayed, and nothing else came. */
  ghost predicate Room(
    before: map<string, Session>, after: map<string, Session>, victim: Session?, session: Session)
  {
    if victim == null then after == before[session.key := session]
    else exists k <- before :: before[k] == victim && after == (before - {k})[session.key := session]
  }

  lemma RoomKeepsKeys(
      before: map<string, Session>, after: map<string, Session>, victim: Session?, session: Session)
    requires Room(before, after, victim, session) && forall k <- before :: before[k].key == k
    ensures forall k <- after :: after[k].key == k && (k in before || k == session.key)
  {}

  lemma SizeOfExtended(m: map<string, Session>, key: string, session: Session)
    requires key !in m
    ensures |m[key := session]| == |m| + 1
  {
    assert m[key := session].Keys == m.Keys + {key};
  }
}

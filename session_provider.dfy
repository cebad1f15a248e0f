/** The registry of R sessions the IDE package keeps: a dictionary from
    session id to session, with a "current" session and a notification when
    the current session changes. */
module SessionProvider {
  import opened IntegerText

  /** A session handle. Its internals are not modelled; it is known by
      reference and carries the id it was created with. */
  class RSession {
    const id: int32

    constructor (id: int32)
      ensures this.id == id
    {
      this.id := id;
    }
  }

  predicate NoDuplicates(s: seq<RSession>) {
    forall i, j :: 0 <= i < j < |s| ==> s[i] != s[j]
  }

  /** What `Current` may yield for a registry holding `m`: nothing when it is
      empty, otherwise one of its sessions (which one is not specified). */
  ghost predicate IsCurrentOf(m: map<int32, RSession>, current: RSession?) {
    (current == null <==> m == map[]) && (current != null ==> current in m.Values)
  }

  class RSessionProvider {
    var sessions: map<int32, RSession>
    /** How many times `CurrentSessionChanged` has been raised. */
    ghost var notifications: nat
    /** The sessions disposed so far, in the order of their `Dispose` calls. */
    ghost var disposed: seq<RSession>

    /** Every session is stored under its own id, no session is disposed
        twice, and no stored session has been disposed. */
    ghost predicate Valid()
      reads this
    {
      && (forall id :: id in sessions ==> sessions[id].id == id)
      && NoDuplicates(disposed)
      && (forall id :: id in sessions ==> sessions[id] !in disposed)
    }

    constructor ()
      ensures Valid()
      ensures sessions == map[] && notifications == 0 && disposed == []
    {
      sessions := map[];
      notifications := 0;
      disposed := [];
    }

    /** `Current`: the first session the dictionary enumerates, or null. */
    method Current() returns (current: RSession?)
      ensures IsCurrentOf(sessions, current)
    {
      if sessions == map[] {
        current := null;
      } else {
        var id :| id in sessions;
        current := sessions[id];
      }
    }

    /** Creates and stores a session for `sessionId` unless one is stored
        already, in which case that one is returned and nothing changes.
        `before` and `after` are what `Current` yielded before and after the
        insert; the change notification is raised when they differ. */
    method Create(sessionId: int32) returns (session: RSession, ghost before: RSession?, ghost after: RSession?)
      requires Valid()
      modifies this
      ensures Valid()
      ensures disposed == old(disposed)
      ensures IsCurrentOf(old(sessions), before)
      ensures sessionId in old(sessions) ==>
                && sessions == old(sessions)
                && session == old(sessions)[sessionId]
                && notifications == old(notifications)
      ensures sessionId !in old(sessions) ==>
                && fresh(session)
                && session.id == sessionId
                && sessions == old(sessions)[sessionId := session]
                && IsCurrentOf(sessions, after)
                && notifications == old(notifications) + (if before != after then 1 else 0)
      ensures old(sessions) == map[] ==> notifications == old(notifications) + 1
    {
      var created := new RSession(sessionId);
      var currentSession := Current();
      before, after := currentSession, currentSession;
      if sessionId in sessions {
        session := sessions[sessionId];
        return;
      }
      sessions := sessions[sessionId := created];
      var currentSessionAfterAdd := Current();
      after := currentSessionAfterAdd;
      if currentSession != currentSessionAfterAdd {
        notifications := notifications + 1;
      }
      session := created;
    }

    /** A copy of the dictionary as it is now. */
    method GetSessions() returns (snapshot: map<int32, RSession>)
      ensures snapshot == sessions
    {
      snapshot := sessions;
    }

    /** Disposes every stored session once, then empties the dictionary. */
    method Dispose()
      requires Valid()
      modifies this
      ensures Valid()
      ensures sessions == map[]
      ensures notifications == old(notifications)
      ensures old(disposed) <= disposed
      ensures multiset(disposed) == multiset(old(disposed)) + multiset(old(sessions).Values)
    {
      var pending := sessions.Values;
      while pending != {}
        invariant pending <= old(sessions).Values
        invariant sessions == old(sessions) && notifications == old(notifications)
        invariant old(disposed) <= disposed
        invariant multiset(disposed) == multiset(old(disposed)) + multiset(old(sessions).Values - pending)
        invariant NoDuplicates(disposed)
        invariant forall s :: s in pending ==> s !in disposed
        decreases pending
      {
        var s :| s in pending;
        disposed := disposed + [s];
        pending := pending - {s};
      }
      sessions := map[];
    }
  }

  /** A snapshot taken with `GetSessions` keeps the sessions of that moment
      through later creations and disposal. In the model the copy comes from
      the value semantics of Dafny maps, so this records the promise of
      returning a new dictionary rather than proving the copy is made. */
  method SnapshotSurvivesChanges(provider: RSessionProvider, id: int32) returns (snapshot: map<int32, RSession>)
    requires provider.Valid()
    modifies provider
    ensures snapshot == old(provider.sessions)
    ensures provider.Valid() && provider.sessions == map[]
  {
    snapshot := provider.GetSessions();
    var _, _, _ := provider.Create(id);
    provider.Dispose();
  }

  /** After `Dispose` the registry has no current session. */
  method NoCurrentAfterDispose(provider: RSessionProvider) returns (current: RSession?)
    requires provider.Valid()
    modifies provider
    ensures current == null
  {
    provider.Dispose();
    current := provider.Current();
  }
}

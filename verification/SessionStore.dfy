/** The app-server executor's bounded map from logical sessions to Codex threads. */
module SessionStore {
  import opened Outcomes
  import opened Text
  import opened Collections

  const MAX_LOGICAL_SESSIONS: nat := 256

  type SessionId = string

  datatype Session = Session(threadId: string, workspace: Option<string>, homeMode: string, updatedAt: int)

  type Sessions = map<SessionId, Session>

  // ---------- What pruning must do ----------

  /** Nothing invented or altered, the current session kept, exactly the bound left
      over, and every evicted session no newer than any survivor but the current. */
  ghost predicate IsPruned(before: Sessions, after: Sessions, current: SessionId) {
    && after.Keys <= before.Keys
    && (forall s :: s in after ==> after[s] == before[s])
    && (current in before ==> current in after)
    && |after| == (if |before| <= MAX_LOGICAL_SESSIONS then |before| else MAX_LOGICAL_SESSIONS)
    && forall gone, kept :: gone in before && gone !in after && kept in after && kept != current ==>
         before[gone].updatedAt <= after[kept].updatedAt
  }

  ghost predicate DistinctTimes(sessions: Sessions) {
    forall s, t :: s in sessions && t in sessions && s != t ==> sessions[s].updatedAt != sessions[t].updatedAt
  }

  /** The map's iteration order only breaks ties: with distinct timestamps there is
      one possible result. */
  lemma {:induction false} PruningIsDetermined(before: Sessions, a: Sessions, b: Sessions, current: SessionId)
    requires IsPruned(before, a, current) && IsPruned(before, b, current)
    requires current in before && DistinctTimes(before)
    ensures a == b
  {
    assert |a| == |a.Keys| && |b| == |b.Keys|;
    // Each side would have evicted what the other kept: the times would be equal.
    assert a.Keys <= b.Keys || b.Keys <= a.Keys;
    if a.Keys <= b.Keys { SubsetSize(a.Keys, b.Keys); } else { SubsetSize(b.Keys, a.Keys); }
  }

  // ---------- Runs of stores ----------

  datatype Store = Store(session: SessionId, entry: Session)

  /** The maps that a series of store_thread calls passes through. */
  ghost predicate IsStoreRun(maps: seq<Sessions>, stores: seq<Store>) {
    && |maps| == |stores| + 1
    && forall i :: 0 <= i < |stores| ==>
         IsPruned(maps[i][stores[i].session := stores[i].entry], maps[i + 1], stores[i].session)
  }

  ghost function StoredSince(stores: seq<Store>): set<SessionId> { set k | 0 <= k < |stores| :: stores[k].session }

  /** Newer than the session under watch means stored since. */
  ghost predicate Retained(sessions: Sessions, watched: SessionId, entry: Session, since: set<SessionId>) {
    && watched in sessions && sessions[watched] == entry
    && forall s :: s in sessions && s != watched && sessions[s].updatedAt >= entry.updatedAt ==> s in since
  }

  lemma {:induction false} PruningRetains(before: Sessions, after: Sessions, store: Store, watched: SessionId,
                                          entry: Session, since: set<SessionId>)
    requires Retained(before, watched, entry, since) && store.session != watched
    requires IsPruned(before[store.session := store.entry], after, store.session)
    requires watched !in since && |since + {store.session}| < MAX_LOGICAL_SESSIONS
    ensures Retained(after, watched, entry, since + {store.session})
  {
    var grown := before[store.session := store.entry];
    if watched !in after {
      // Then the pruned map is full and holds only sessions stored since.
      if |grown| <= MAX_LOGICAL_SESSIONS {
        SubsetSize(after.Keys, grown.Keys);
      }
      assert |after.Keys| == |after|;
      assert after.Keys <= since + {store.session};
      SubsetSize(after.Keys, since + {store.session});
    }
  }

  /** A session survives every run of later stores that touches fewer than 256 other
      sessions, however often it touches them and whatever it evicts. */
  lemma {:induction false} RecentSessionSurvives(maps: seq<Sessions>, stores: seq<Store>, watched: SessionId,
                                                 entry: Session)
    requires IsStoreRun(maps, stores)
    requires Retained(maps[0], watched, entry, {})
    requires watched !in StoredSince(stores) && |StoredSince(stores)| < MAX_LOGICAL_SESSIONS
    ensures Retained(maps[|stores|], watched, entry, StoredSince(stores))
    decreases |stores|
  {
    if stores != [] {
      var n := |stores| - 1;
      var earlier := StoredSince(stores[..n]);
      StoredOneMore(stores, n);
      SubsetSize(earlier, StoredSince(stores));
      RecentSessionSurvives(maps[..n + 1], stores[..n], watched, entry);
      PruningRetains(maps[n], maps[n + 1], stores[n], watched, entry, earlier);
    }
  }

  lemma StoredOneMore(stores: seq<Store>, n: nat)
    requires n + 1 == |stores|
    ensures StoredSince(stores) == StoredSince(stores[..n]) + {stores[n].session}
  {
    forall s | s in StoredSince(stores) ensures s in StoredSince(stores[..n]) + {stores[n].session} {
      var k :| 0 <= k < |stores| && stores[k].session == s;
      assert k < n ==> stores[..n][k].session == s;
    }
    forall s | s in StoredSince(stores[..n]) ensures s in StoredSince(stores) {
      var k :| 0 <= k < n && stores[..n][k].session == s;
      assert stores[k].session == s;
    }
  }

  // ---------- The executor's methods ----------

  class AppServerSessions {
    const workspace: Option<string>
    const homeMode: string
    var sessions: Sessions       // the store file

    constructor (workspace: Option<string>, homeMode: string, sessions: Sessions)
      ensures this.workspace == workspace && this.homeMode == homeMode && this.sessions == sessions
    {
      this.workspace, this.homeMode, this.sessions := workspace, homeMode, sessions;
    }

    /** Evict the oldest other session until the bound holds. */
    method Prune(current: SessionId)
      modifies this`sessions
      ensures IsPruned(old(sessions), sessions, current)
    {
      while |sessions| > MAX_LOGICAL_SESSIONS
        invariant sessions.Keys <= old(sessions).Keys
        invariant forall s :: s in sessions ==> sessions[s] == old(sessions)[s]
        invariant current in old(sessions) ==> current in sessions
        invariant |sessions| <= |old(sessions)|
        invariant |sessions| < |old(sessions)| ==> |sessions| >= MAX_LOGICAL_SESSIONS
        invariant sessions.Keys == old(sessions).Keys || |sessions| < |old(sessions)|
        invariant forall gone, kept ::
          gone in old(sessions) && gone !in sessions && kept in sessions && kept != current ==>
                    old(sessions)[gone].updatedAt <= sessions[kept].updatedAt
        decreases |sessions|
      {
        var oldest := Oldest(current);
        var remaining := sessions - {oldest};
        assert sessions.Keys == remaining.Keys + {oldest};
        sessions := remaining;
      }
    }

    /** min_by_key over the other sessions; any minimum, since map order decides ties. */
    method Oldest(current: SessionId) returns (oldest: SessionId)
      requires |sessions| > MAX_LOGICAL_SESSIONS
      ensures oldest in sessions && oldest != current
      ensures forall s :: s in sessions && s != current ==> sessions[oldest].updatedAt <= sessions[s].updatedAt
    {
      var rest := sessions.Keys - {current};
      SubsetSize(sessions.Keys, rest + {current});
      assert rest != {};
      oldest :| oldest in rest;
      rest := rest - {oldest};
      while rest != {}
        invariant rest <= sessions.Keys && oldest in sessions && oldest != current
        invariant forall s :: s in sessions && s != current && s !in rest ==>
          sessions[oldest].updatedAt <= sessions[s].updatedAt
        decreases rest
      {
        var s :| s in rest;
        if sessions[s].updatedAt < sessions[oldest].updatedAt {
          oldest := s;
        }
        rest := rest - {s};
      }
    }

    method StoredThread(session: SessionId) returns (thread: Option<string>)
      ensures thread == Lookup(sessions, session)
      ensures thread.Some? <==>
                && session in sessions
                && sessions[session].workspace == workspace && sessions[session].homeMode == homeMode
                && var id := sessions[session].threadId; exists i :: 0 <= i < |id| && !IsWhitespace(id[i])
      ensures thread.Some? ==> thread.value == sessions[session].threadId
    {
      if session !in sessions { return None; }
      var state := sessions[session];
      if state.workspace != workspace || state.homeMode != homeMode { return None; }
      thread := if IsBlank(state.threadId) then None else Some(state.threadId);
    }

    ghost function Lookup(m: Sessions, session: SessionId): Option<string> {
      if session in m && m[session].workspace == workspace && m[session].homeMode == homeMode
         && !IsBlank(m[session].threadId)
      then Some(m[session].threadId) else None
    }

    /** Store, then prune: a lookup returns the thread exactly when it is not blank. */
    method StoreThread(session: SessionId, thread: string, now: int)
      modifies this`sessions
      ensures IsPruned(old(sessions)[session := Session(thread, workspace, homeMode, now)], sessions, session)
      ensures Lookup(sessions, session) == if IsBlank(thread) then None else Some(thread)
      ensures session in sessions && sessions[session] == Session(thread, workspace, homeMode, now)
      ensures var grown := old(sessions)[session := Session(thread, workspace, homeMode, now)];
              if |grown| <= 256 then sessions == grown else |sessions| == 256
    {
      sessions := sessions[session := Session(thread, workspace, homeMode, now)];
      ghost var grown := sessions;
      Prune(session);
      if |grown| <= 256 { SubsetSize(sessions.Keys, grown.Keys); }
    }

    method ForgetThread(session: SessionId)
      modifies this`sessions
      ensures sessions == old(sessions) - {session}
      ensures Lookup(sessions, session) == None
    {
      if session in sessions {
        sessions := sessions - {session};
      }
    }
  }
}

/** The session stores of several tabs over one storage cell, and what their subscribers hear. */
module SessionStore {
  import opened Outcome
  import opened SessionRecords

  type Handler = nat

  datatype SessionSnapshot = SessionSnapshot(revision: nat, session: Option<SessionRecord>)

  /** The one canonical key of the origin's storage. */
  class LocalStorage {
    var cell: Cell

    constructor ()
      ensures cell == None
    {
      cell := None;
    }
  }

  function SnapshotOf(record: Stored): SessionSnapshot {
    SessionSnapshot(record.revision, if record.Active? then Some(record.session) else None)
  }

  class GovSessionStore {
    /** There may be no local or session storage; the pending flag lives in the latter. */
    const storage: LocalStorage?
    const tabStorage: bool
    var pendingProfileSetup: bool
    var changedHandlers: seq<Handler>
    ghost var heard: seq<Handler>

    ghost predicate Valid()
      reads this`changedHandlers
    {
      forall i, j :: 0 <= i < j < |changedHandlers| ==> changedHandlers[i] != changedHandlers[j]
    }

    constructor (storage: LocalStorage?, tabStorage: bool)
      ensures Valid() && this.storage == storage && this.tabStorage == tabStorage && changedHandlers == [] && heard == []
    {
      this.storage, this.tabStorage := storage, tabStorage;
      pendingProfileSetup, changedHandlers, heard := false, [], [];
    }

    method ReadRecord() returns (record: Option<Stored>)
      ensures record == if storage == null then None else Some(Seen(storage.cell))
    {
      if storage == null {
        return None;
      }
      var raw := storage.cell;
      if raw.None? {
        return Some(Empty(0));
      }
      var parsed := ParseStoredRecord(raw.value);
      record := Some(if parsed.Some? then parsed.value else Empty(LooseRevision(raw.value)));
    }

    /** Every handler once, in the order they subscribed. */
    method NotifyChanged()
      modifies this`heard
      ensures heard == old(heard) + changedHandlers
    {
      heard := heard + changedHandlers;
    }

    /** A storage event of another tab; `ours` unless it names another key. */
    method OnStorage(ours: bool)
      modifies this`heard
      ensures heard == if ours then old(heard) + changedHandlers else old(heard)
    {
      if ours {
        NotifyChanged();
      }
    }

    /** A cookie capability, or none, comes out; copies share nothing with the record. */
    method ReadEffective() returns (session: Option<SessionRecord>)
      ensures session == if storage == null then None else SnapshotOf(Seen(storage.cell)).session
      ensures session.Some? ==> session.value.refresh == Some(Cookie)
    {
      var record := ReadRecord();
      if storage != null {
        ReadIsProper(storage.cell);
      }
      if record.None? || record.value.Empty? {
        return None;
      }
      var stored := record.value.session;
      var cookie := stored.refresh.Some? && stored.refresh.value.Cookie?;
      session := Some(SessionRecord(stored.accessToken, if cookie then Some(Cookie) else None, stored.expiresAt));
    }

    /** The marker, or nothing: a refresh token is never handed out. */
    method GetRefreshToken() returns (token: Option<string>)
      ensures token == if storage == null || Seen(storage.cell).Empty? then None else Some(MARKER)
    {
      var session := ReadEffective();
      token := if session.Some? && session.value.refresh == Some(Cookie) then Some(MARKER) else None;
    }

    method ReadSession() returns (snapshot: SessionSnapshot)
      ensures snapshot == if storage == null then SessionSnapshot(0, None) else SnapshotOf(Seen(storage.cell))
    {
      var record := ReadRecord();
      if record.None? {
        return SessionSnapshot(0, None);
      }
      var session := ReadEffective();
      snapshot := SessionSnapshot(record.value.revision, if record.value.Active? then session else None);
    }

    /** The new session replaces whatever is there; `Refused` here means there is no storage to keep it in. */
    method SaveSession(tokens: Tokens) returns (answer: Answer)
      modifies storage, this`heard
      ensures storage != null ==> answer == Wanted(Seen(old(storage.cell)), Save(tokens))
      ensures storage != null ==> storage.cell == Step(old(storage.cell), Save(tokens))
      ensures storage == null ==> !answer.Done?
      ensures heard == if answer.Done? then old(heard) + changedHandlers else old(heard)
    {
      if tokens.accessToken == "" || tokens.refreshToken == "" || tokens.expiresAt == "" {
        return Incomplete;
      }
      if tokens.refreshToken != MARKER {
        return Readable;
      }
      if storage == null {
        return Refused;
      }
      var current := ReadRecord();
      if current.value.revision >= MAX_SAFE_INTEGER {
        return Exhausted;
      }
      var session := SessionRecord(Some(tokens.accessToken), Some(Cookie), Some(tokens.expiresAt));
      storage.cell := Some(Written(Active(current.value.revision + 1, session)));
      NotifyChanged();
      answer := Done;
    }

    /** Signing out leaves a tombstone, and without storage there is nothing to do. */
    method ClearSession() returns (answer: Answer)
      modifies storage, this`heard, this`pendingProfileSetup
      ensures storage != null ==> answer == Wanted(Seen(old(storage.cell)), Clear)
      ensures storage != null ==> storage.cell == Step(old(storage.cell), Clear)
      ensures storage == null ==> answer.Refused?
      ensures heard == if answer.Done? then old(heard) + changedHandlers else old(heard)
      ensures pendingProfileSetup == (old(pendingProfileSetup) && !(answer.Done? && tabStorage))
    {
      if storage == null {
        return Refused;
      }
      var current := ReadRecord();
      if current.value.revision >= MAX_SAFE_INTEGER {
        return Exhausted;
      }
      storage.cell := Some(Written(Empty(current.value.revision + 1)));
      if tabStorage {
        pendingProfileSetup := false;
      }
      NotifyChanged();
      answer := Done;
    }

    /** The session goes in if nothing has succeeded since the snapshot. */
    method CompareAndSetSession(expected: int, next: SessionRecord) returns (answer: Answer)
      modifies storage, this`heard
      ensures storage != null ==> answer == Wanted(Seen(old(storage.cell)), CompareAndSet(expected, next))
      ensures storage != null ==> storage.cell == Step(old(storage.cell), CompareAndSet(expected, next))
      ensures storage == null ==> answer.Refused?
      ensures heard == if answer.Done? then old(heard) + changedHandlers else old(heard)
    {
      if storage == null {
        return Refused;
      }
      var current := ReadRecord();
      if current.None? || current.value.revision != expected {
        return Refused;
      }
      if next.refresh.Some? && !next.refresh.value.Cookie? {
        return Readable;
      }
      if next.refresh.None? {
        return NoRefresh;
      }
      if current.value.revision >= MAX_SAFE_INTEGER {
        return Exhausted;
      }
      var session := SessionRecord(next.accessToken, next.refresh, next.expiresAt);
      storage.cell := Some(Written(Active(current.value.revision + 1, session)));
      NotifyChanged();
      answer := Done;
    }

    method CompareAndClearSession(expected: int) returns (answer: Answer)
      modifies storage, this`heard, this`pendingProfileSetup
      ensures storage != null ==> answer == Wanted(Seen(old(storage.cell)), CompareAndClear(expected))
      ensures storage != null ==> storage.cell == Step(old(storage.cell), CompareAndClear(expected))
      ensures storage == null ==> answer.Refused?
      ensures heard == if answer.Done? then old(heard) + changedHandlers else old(heard)
      ensures pendingProfileSetup == (old(pendingProfileSetup) && !(answer.Done? && tabStorage))
    {
      if storage == null {
        return Refused;
      }
      var current := ReadRecord();
      if current.None? || current.value.revision != expected {
        return Refused;
      }
      if current.value.revision >= MAX_SAFE_INTEGER {
        return Exhausted;
      }
      storage.cell := Some(Written(Empty(current.value.revision + 1)));
      if tabStorage {
        pendingProfileSetup := false;
      }
      NotifyChanged();
      answer := Done;
    }

    /** A handler subscribes once, however often it is added. */
    method SubscribeSessionChanged(handler: Handler)
      requires Valid()
      modifies this`changedHandlers
      ensures Valid()
      ensures changedHandlers == if handler in old(changedHandlers) then old(changedHandlers) else old(changedHandlers) + [handler]
    {
      if handler !in changedHandlers {
        changedHandlers := changedHandlers + [handler];
      }
    }
  }
}

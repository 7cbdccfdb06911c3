/**
 The session row, the compare-and-set operations on it, and the two repositories that offer them:
 InMemoryUploadRepository replaces entries of a dictionary under a lock, EfUploadRepository issues one guarded
 UPDATE per call.  Each call is one atomic step.  The clock is a parameter.
 */
module Repository {
  import opened Base

  type Id = string

  datatype Status = Pending | Completed | Expired | Aborted | Failed | Completing

  datatype Session = Session(
    fileName: string, finalFileName: Option<string>, totalSize: nat, chunkSize: nat, totalChunks: nat,
    status: Status, version: nat, createdAt: int, completedAt: Option<int>, expiresAt: int,
    checksum: Option<string>, fingerprint: Option<string>, clientIp: Option<string>)
  {
    predicate Active() { status == Pending || status == Completing }

    predicate Terminal() { !Active() }

    /** UploadSession.IsExpired. */
    predicate IsExpired(now: int) { Active() && now >= expiresAt }
  }

  type Store = map<Id, Session>

  datatype Backend = InMemory | EntityFramework

  // ---- Transitions of one row: None when the guard fails -----------------------------------------------

  function BeginRow(r: Session): Option<Session> {
    if r.status == Pending then Some(r.(status := Completing, version := r.version + 1)) else None
  }

  /** The in-memory repository keeps the stored fingerprint when it is given none; EF writes the null. */
  function FinishRow(be: Backend, r: Session, finalName: string, checksum: Option<string>, fp: Option<string>, now: int): Option<Session> {
    if r.status != Completing then None
    else
      var kept := if be == InMemory && fp.None? then r.fingerprint else fp;
      Some(r.(status := Completed, finalFileName := Some(finalName), checksum := checksum, fingerprint := kept,
              completedAt := Some(now), version := r.version + 1))
  }

  /** The in-memory repository keeps the stored checksum when it is given none; EF writes the null. */
  function FailRow(be: Backend, r: Session, checksum: Option<string>): Option<Session> {
    if r.status != Completing then None
    else
      var kept := if be == InMemory && checksum.None? then r.checksum else checksum;
      Some(r.(status := Failed, checksum := kept, version := r.version + 1))
  }

  function ClaimRow(r: Session, now: int): Option<Session> {
    if r.Active() && r.expiresAt <= now then Some(r.(status := Expired, version := r.version + 1)) else None
  }

  function AbortRow(r: Session): Option<Session> {
    if r.status == Pending then Some(r.(status := Aborted, version := r.version + 1)) else None
  }

  /** The two backends agree on a call exactly when the guard fails, a value is given, or none is stored. */
  lemma BackendsAgreeExactlyWhen(r: Session, name: string, checksum: Option<string>, fp: Option<string>, now: int)
    ensures FailRow(InMemory, r, checksum) == FailRow(EntityFramework, r, checksum)
            <==> (r.status == Completing && checksum.None? ==> r.checksum.None?)
    ensures FinishRow(InMemory, r, name, checksum, fp, now) == FinishRow(EntityFramework, r, name, checksum, fp, now)
            <==> (r.status == Completing && fp.None? ==> r.fingerprint.None?)
  {
  }

  // ---- The store after a call --------------------------------------------------------------------------

  /** Replaces the row of `id` when there is a next row. */
  function Replace(store: Store, id: Id, next: Option<Session>): Store {
    if next.Some? then store[id := next.value] else store
  }

  function Next(store: Store, id: Id, transition: Session -> Option<Session>): Option<Session> {
    if id in store then transition(store[id]) else None
  }

  class InMemoryUploadRepository {
    var store: Store

    constructor ()
      ensures store == map[]
    {
      store := map[];
    }

    method Add(id: Id, session: Session)
      modifies this
      ensures store == old(store)[id := session.(version := 0)]
    {
      store := store[id := session.(version := 0)];
    }

    method TryBeginComplete(id: Id) returns (won: bool)
      modifies this
      ensures var next := Next(old(store), id, BeginRow); won == next.Some? && store == Replace(old(store), id, next)
      ensures won <==> id in old(store) && old(store)[id].status == Pending
      ensures won ==> store[id] == var r := old(store)[id]; r.(status := Completing, version := r.version + 1)
    {
      if id !in store || store[id].status != Pending {
        return false;
      }
      var current := store[id];
      store := store[id := current.(status := Completing, version := current.version + 1)];
      return true;
    }

    method TryFinishComplete(id: Id, finalName: string, checksum: Option<string>, fp: Option<string>, now: int) returns (won: bool)
      modifies this
      ensures var next := Next(old(store), id, r => FinishRow(InMemory, r, finalName, checksum, fp, now));
              won == next.Some? && store == Replace(old(store), id, next)
      ensures won <==> id in old(store) && old(store)[id].status == Completing
      ensures won ==> store[id] == var r := old(store)[id]; r.(status := Completed, finalFileName := Some(finalName), checksum := checksum, fingerprint := if fp.Some? then fp else r.fingerprint,
                 completedAt := Some(now), version := r.version + 1)
    {
      if id !in store || store[id].status != Completing {
        return false;
      }
      var next := store[id];
      next := next.(status := Completed, finalFileName := Some(finalName), checksum := checksum);
      if fp.Some? {
        next := next.(fingerprint := fp);
      }
      next := next.(completedAt := Some(now), version := next.version + 1);
      store := store[id := next];
      return true;
    }

    method TryFailComplete(id: Id, checksum: Option<string>) returns (won: bool)
      modifies this
      ensures var next := Next(old(store), id, r => FailRow(InMemory, r, checksum));
              won == next.Some? && store == Replace(old(store), id, next)
      ensures won <==> id in old(store) && old(store)[id].status == Completing
      ensures won ==> store[id] == var r := old(store)[id]; r.(status := Failed, checksum := if checksum.Some? then checksum else r.checksum, version := r.version + 1)
    {
      if id !in store || store[id].status != Completing {
        return false;
      }
      var next := store[id].(status := Failed);
      if checksum.Some? {
        next := next.(checksum := checksum);
      }
      store := store[id := next.(version := next.version + 1)];
      return true;
    }

    method TryClaimExpired(id: Id, now: int) returns (won: bool)
      modifies this
      ensures var next := Next(old(store), id, r => ClaimRow(r, now)); won == next.Some? && store == Replace(old(store), id, next)
      ensures won <==> id in old(store) && var r := old(store)[id]; r.status in {Pending, Completing} && r.expiresAt <= now
      ensures won ==> store[id] == var r := old(store)[id]; r.(status := Expired, version := r.version + 1)
    {
      if id !in store || !store[id].Active() || store[id].expiresAt > now {
        return false;
      }
      store := store[id := store[id].(status := Expired, version := store[id].version + 1)];
      return true;
    }

    method TryAbort(id: Id) returns (won: bool)
      modifies this
      ensures var next := Next(old(store), id, AbortRow); won == next.Some? && store == Replace(old(store), id, next)
      ensures won <==> id in old(store) && old(store)[id].status == Pending
      ensures won ==> store[id] == var r := old(store)[id]; r.(status := Aborted, version := r.version + 1)
    {
      if id !in store || store[id].status != Pending {
        return false;
      }
      store := store[id := store[id].(status := Aborted, version := store[id].version + 1)];
      return true;
    }
  }

  /** One guarded UPDATE per call: the rows the WHERE clause selects, then the SET list; a call wins when one row changed. */
  class EfUploadRepository {
    var rows: Store

    constructor ()
      ensures rows == map[]
    {
      rows := map[];
    }

    method Add(id: Id, session: Session)
      modifies this
      ensures rows == old(rows)[id := session.(version := 0)]
    {
      rows := rows[id := session.(version := 0)];
    }

    /** Writes `next` over the selected row and reports how many rows changed. */
    method ExecuteUpdate(id: Id, selected: bool, next: Session) returns (changed: nat)
      modifies this
      ensures changed == if selected then 1 else 0
      ensures rows == if selected then old(rows)[id := next] else old(rows)
    {
      if selected {
        rows := rows[id := next];
        return 1;
      }
      return 0;
    }

    method TryBeginComplete(id: Id) returns (won: bool)
      modifies this
      ensures var next := Next(old(rows), id, BeginRow); won == next.Some? && rows == Replace(old(rows), id, next)
      ensures won <==> id in old(rows) && old(rows)[id].status == Pending
      ensures won ==> rows[id] == var r := old(rows)[id]; r.(status := Completing, version := r.version + 1)
    {
      if id in rows {
        var x := rows[id];
        var changed := ExecuteUpdate(id, x.status == Pending, x.(status := Completing, version := x.version + 1));
        return changed == 1;
      }
      return false;
    }

    method TryFinishComplete(id: Id, finalName: string, checksum: Option<string>, fp: Option<string>, now: int) returns (won: bool)
      modifies this
      ensures var next := Next(old(rows), id, r => FinishRow(EntityFramework, r, finalName, checksum, fp, now));
              won == next.Some? && rows == Replace(old(rows), id, next)
      ensures won <==> id in old(rows) && old(rows)[id].status == Completing
      ensures won ==> rows[id] == var r := old(rows)[id]; r.(status := Completed, finalFileName := Some(finalName), checksum := checksum, fingerprint := fp,
                 completedAt := Some(now), version := r.version + 1)
    {
      if id in rows {
        var x := rows[id];
        var changed := ExecuteUpdate(id, x.status == Completing,
          x.(status := Completed, finalFileName := Some(finalName), checksum := checksum, fingerprint := fp,
             completedAt := Some(now), version := x.version + 1));
        return changed == 1;
      }
      return false;
    }

    method TryFailComplete(id: Id, checksum: Option<string>) returns (won: bool)
      modifies this
      ensures var next := Next(old(rows), id, r => FailRow(EntityFramework, r, checksum));
              won == next.Some? && rows == Replace(old(rows), id, next)
      ensures won <==> id in old(rows) && old(rows)[id].status == Completing
      ensures won ==> rows[id] == var r := old(rows)[id]; r.(status := Failed, checksum := checksum, version := r.version + 1)
    {
      if id in rows {
        var x := rows[id];
        var changed := ExecuteUpdate(id, x.status == Completing, x.(status := Failed, checksum := checksum, version := x.version + 1));
        return changed == 1;
      }
      return false;
    }

    method TryClaimExpired(id: Id, now: int) returns (won: bool)
      modifies this
      ensures var next := Next(old(rows), id, r => ClaimRow(r, now)); won == next.Some? && rows == Replace(old(rows), id, next)
      ensures won <==> id in old(rows) && var r := old(rows)[id]; r.status in {Pending, Completing} && r.expiresAt <= now
      ensures won ==> rows[id] == var r := old(rows)[id]; r.(status := Expired, version := r.version + 1)
    {
      if id in rows {
        var x := rows[id];
        var changed := ExecuteUpdate(id, x.Active() && x.expiresAt <= now, x.(status := Expired, version := x.version + 1));
        return changed == 1;
      }
      return false;
    }

    method TryAbort(id: Id) returns (won: bool)
      modifies this
      ensures var next := Next(old(rows), id, AbortRow); won == next.Some? && rows == Replace(old(rows), id, next)
      ensures won <==> id in old(rows) && old(rows)[id].status == Pending
      ensures won ==> rows[id] == var r := old(rows)[id]; r.(status := Aborted, version := r.version + 1)
    {
      if id in rows {
        var x := rows[id];
        var changed := ExecuteUpdate(id, x.status == Pending, x.(status := Aborted, version := x.version + 1));
        return changed == 1;
      }
      return false;
    }
  }
}

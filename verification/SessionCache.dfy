/** WebApi/Services/SessionCache.cs: sessions by id, each entry good until an absolute time. */
module SessionCaching {
  import opened Base
  import opened Repository

  datatype Entry = Entry(session: Session, expiresAt: int)

  type Entries = map<Id, Entry>

  function Fresh(entries: Entries, id: Id, now: int): Option<Session> {
    if id in entries && now < entries[id].expiresAt then Some(entries[id].session) else None
  }

  function Put(entries: Entries, id: Id, session: Session, now: int, ttl: nat): Entries {
    entries[id := Entry(session, now + ttl)]
  }

  class SessionCache {
    var entries: Entries
    const ttl: nat

    /** A non-positive lifetime falls back to thirty seconds. */
    constructor (ttl: int)
      ensures entries == map[] && this.ttl == if ttl <= 0 then 30 else ttl
    {
      entries := map[];
      this.ttl := if ttl <= 0 then 30 else ttl;
    }

    /** A stale entry is removed as it is found. */
    method TryGet(id: Id, now: int) returns (found: Option<Session>)
      modifies this`entries
      ensures found == Fresh(old(entries), id, now)
      ensures found.Some? <==> id in old(entries) && now < old(entries)[id].expiresAt
      ensures found.Some? ==> found.value == old(entries)[id].session
      ensures entries == if id in old(entries) && found.None? then old(entries) - {id} else old(entries)
    {
      if id !in entries {
        return None;
      }
      if now >= entries[id].expiresAt {
        entries := entries - {id};
        return None;
      }
      return Some(entries[id].session);
    }

    method Set(id: Id, session: Session, now: int)
      modifies this`entries
      ensures entries == Put(old(entries), id, session, now, ttl) && entries[id] == Entry(session, now + ttl)
    {
      entries := entries[id := Entry(session, now + ttl)];
    }

    method Remove(id: Id)
      modifies this`entries
      ensures entries == old(entries) - {id}
    {
      entries := entries - {id};
    }
  }
}

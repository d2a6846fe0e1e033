/** The map of per-host refresh mutexes in one process. It holds weak
    references: an entry outlives its mutex until the next lookup prunes it. */
module RefreshLocks {

  type Host = string
  type MutexId = nat
  type HandleId = nat

  /** A strong reference a caller holds to one host's mutex. */
  datatype Handle = Handle(host: Host, mutex: MutexId)

  class RefreshLocks {
    /** Weak entries: the mutex may have no handle left. */
    var entries: map<Host, MutexId>
    var handles: map<HandleId, Handle>
    /** The handles whose callers have their mutex locked. */
    var lockedBy: set<HandleId>
    var mutexes: nat

    ghost predicate Valid()
      reads this
    {
      && (forall h <- handles ::
            && handles[h].host in entries
            && entries[handles[h].host] == handles[h].mutex)
      && (forall a, b | a in entries && b in entries && entries[a] == entries[b] :: a == b)
      && (forall host <- entries :: entries[host] < mutexes)
      && (forall h <- lockedBy :: h in handles)
      && (forall a, b | a in lockedBy && b in lockedBy && handles[a].mutex == handles[b].mutex :: a == b)
    }

    constructor ()
      ensures Valid() && entries == map[] && handles == map[] && lockedBy == {}
    {
      entries, handles, lockedBy, mutexes := map[], map[], {}, 0;
    }

    /** Whether some caller still holds a reference to the mutex. */
    predicate Live(mutex: MutexId)
      reads this`handles
    {
      exists h <- handles :: handles[h].mutex == mutex
    }

    predicate HasHandle(host: Host)
      reads this`handles
    {
      exists h <- handles :: handles[h].host == host
    }

    /** Drops the entries whose mutex no caller refers to. */
    method Prune()
      requires Valid()
      modifies this`entries
      ensures Valid()
      ensures forall host :: host in entries <==> HasHandle(host)
      ensures forall host <- entries :: host in old(entries) && entries[host] == old(entries)[host]
    {
      ghost var before := entries;
      entries := map host | host in entries && Live(entries[host]) :: entries[host];
      forall h | h in handles ensures handles[h].host in entries && entries[handles[h].host] == handles[h].mutex {
        assert Live(before[handles[h].host]);
      }
      forall host | host in entries ensures HasHandle(host) {
        var h :| h in handles && handles[h].mutex == before[host];
        assert handles[h].host == host;
      }
    }

    /** The mutex the map has for the host, or a new one put there. */
    method EntryFor(host: Host) returns (mutex: MutexId)
      requires Valid()
      modifies this`entries, this`mutexes
      ensures Valid()
      ensures entries == old(entries)[host := mutex]
      ensures host in old(entries) ==> mutex == old(entries)[host]
    {
      mutex := mutexes;
      if host in entries {
        mutex := entries[host];
      } else {
        entries := entries[host := mutex];
        mutexes := mutexes + 1;
      }
    }

    /** The host's mutex: the one every live handle of the host has, or a new one.
        The map then holds exactly the hosts with a live handle. */
    method RefreshLockFor(host: Host, handle: HandleId)
      requires Valid() && handle !in handles
      modifies this
      ensures Valid()
      ensures handle in handles && handles == old(handles)[handle := Handle(host, handles[handle].mutex)]
      ensures lockedBy == old(lockedBy)
      ensures forall h <- old(handles) ::
                old(handles)[h].host == host <==> old(handles)[h].mutex == handles[handle].mutex
      ensures forall other :: other in entries <==> HasHandle(other)
    {
      Prune();
      var mutex := EntryFor(host);
      AddHandle(host, mutex, handle);
    }

    method AddHandle(host: Host, mutex: MutexId, handle: HandleId)
      requires Valid() && handle !in handles && host in entries && entries[host] == mutex
      modifies this`handles
      ensures Valid()
      ensures handles == old(handles)[handle := Handle(host, mutex)]
      ensures forall other :: HasHandle(other) <==> other == host || old(HasHandle(other))
    {
      ghost var before := handles;
      handles := handles[handle := Handle(host, mutex)];
      assert handles[handle].host == host;
      forall other | old(HasHandle(other)) ensures HasHandle(other) {
        var h :| h in before && before[h].host == other;
        assert handles[h].host == other;
      }
    }

    /** Locks the mutex a handle refers to; waiting is over once no one has it. */
    method Lock(handle: HandleId)
      requires Valid() && handle in handles
      requires forall h <- lockedBy :: handles[h].mutex != handles[handle].mutex
      modifies this`lockedBy
      ensures Valid() && lockedBy == old(lockedBy) + {handle}
    {
      lockedBy := lockedBy + {handle};
    }

    /** A caller is done: its handle goes, and its lock with it. The map keeps
        the entry, dead or not. */
    method Drop(handle: HandleId)
      requires Valid() && handle in handles
      modifies this`handles, this`lockedBy
      ensures Valid()
      ensures handles == old(handles) - {handle} && lockedBy == old(lockedBy) - {handle}
    {
      handles := handles - {handle};
      lockedBy := lockedBy - {handle};
    }

    /** **Single flight**: two callers of a host never hold its lock at once. */
    lemma OneLockHolderAHost(a: HandleId, b: HandleId)
      requires Valid() && a in lockedBy && b in lockedBy && handles[a].host == handles[b].host
      ensures a == b
    {
      assert handles[a].mutex == handles[b].mutex;
    }

    /** Live handles share a mutex exactly when they are of one host. */
    lemma OneMutexAHost(a: HandleId, b: HandleId)
      requires Valid() && a in handles && b in handles
      ensures handles[a].host == handles[b].host <==> handles[a].mutex == handles[b].mutex
    {
      assert entries[handles[a].host] == handles[a].mutex && entries[handles[b].host] == handles[b].mutex;
    }
  }
}

/** The key-value state machine of store/kv_state_machine.go: a map in memory and its stored copy. */
module KvStateMachines {
  import opened RaftTypes
  import opened KvStore

  /** Copies a map entry by entry. */
  method CopyEntries(from: Kv) returns (to: Kv)
    ensures to == from
  {
    to := map[];
    var left := from.Keys;
    while left != {}
      invariant left <= from.Keys && to.Keys == from.Keys - left
      invariant forall key | key in to :: to[key] == from[key]
      decreases |left|
    {
      var key :| key in left;
      to := to[key := from[key]];
      left := left - {key};
    }
  }

  class KvStateMachine {
    var data: Kv
    /** The stored bucket; absent for a machine that lives in memory only. */
    var bucket: Option<Kv>

    /** Memory and storage agree. */
    ghost predicate Valid()
      reads this
    {
      bucket.Some? ==> bucket.value == data
    }

    constructor InMemory()
      ensures Valid() && data == map[] && bucket == None
    {
      data, bucket := map[], None;
    }

    /** Opens a stored bucket, or a new one, and loads it into memory. */
    constructor Open(stored: Option<Kv>)
      ensures Valid() && bucket.Some? && data == if stored.Some? then stored.value else map[]
    {
      var contents := if stored.Some? then stored.value else map[];
      var loaded := CopyEntries(contents);
      data, bucket := loaded, Some(contents);
    }

    /** Storage first, then memory. A membership entry is not a key-value command and is refused. */
    method Apply(entry: LogEntry) returns (ok: bool)
      requires Valid()
      modifies this
      ensures Valid() && bucket.Some? == old(bucket).Some?
      ensures ok <==> !entry.command.IsMembership()
      ensures data == ApplyCommand(old(data), entry.command)
    {
      if entry.command.IsMembership() {
        return false;
      }
      if bucket.Some? {
        match entry.command {
          case Put(key, value) => bucket := Some(bucket.value[key := value]);
          case Delete(key) => bucket := Some(bucket.value - {key});
          case _ =>
        }
      }
      match entry.command {
        case Put(key, value) => data := data[key := value];
        case Delete(key) => data := data - {key};
        case _ =>
      }
      return true;
    }

    method Lookup(key: string) returns (value: Option<string>)
      ensures value == Get(data, key)
    {
      value := if key in data then Some(data[key]) else None;
    }

    method Snapshot() returns (snapshot: Kv)
      ensures snapshot == data
    {
      snapshot := CopyEntries(data);
    }

    /** An absent snapshot restores nothing; otherwise both copies become the snapshot. */
    method RestoreSnapshot(snapshot: Option<Kv>)
      requires Valid()
      modifies this
      ensures Valid() && bucket.Some? == old(bucket).Some?
      ensures data == if snapshot.Some? then snapshot.value else old(data)
    {
      if snapshot.None? {
        return;
      }
      var restored := CopyEntries(snapshot.value);
      if bucket.Some? {
        var stored := CopyEntries(restored);
        bucket := Some(stored);
      }
      data := restored;
    }
  }
}

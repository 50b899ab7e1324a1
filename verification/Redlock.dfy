/** The mutual-exclusion contract of redis.redlock.ts: a table from resource to holder. Leases do not run out. */
module Redlock {
  import opened Wrappers
  import opened Store

  class RedisRedlock {
    var locks: map<LockKey, int>

    constructor ()
      ensures locks == map[]
    {
      locks := map[];
    }

    /** Fails with a conflict when the resource is held to the last retry, or with whatever Redis threw. */
    method AcquireLock(key: LockKey, client: int, fault: bool) returns (r: Result<(), Error>)
      modifies this
      ensures r.Success? <==> key !in old(locks) && !fault
      ensures r.Failure? ==> r.error == if fault then Fault else Locked
      ensures locks == if r.Success? then old(locks)[key := client] else old(locks)
    {
      if fault {
        return Failure(Fault);
      }
      if key in locks {
        return Failure(Locked);
      }
      locks := locks[key := client];
      return Success(());
    }

    /** Only the holder's release takes the entry out. */
    method ReleaseLock(key: LockKey, client: int)
      modifies this
      ensures locks == if key in old(locks) && old(locks)[key] == client then old(locks) - {key} else old(locks)
    {
      if key in locks && locks[key] == client {
        locks := locks - {key};
      }
    }
  }
}

/**
 * `LoginAttemptService`: failed-login counts per username, kept in a loading cache whose entries
 * expire 15 minutes after their last write, that holds at most 100 entries, and whose loader
 * yields 0 for a missing key. Times are integer milliseconds.
 */
module LoginAttempts {

  const MAXIMUM_NUMBER_OF_ATTEMPTS: nat := 5
  const ATTEMPT_INCREMENT: nat := 1
  /** `expireAfterWrite(15, TimeUnit.MINUTES)`, in milliseconds. */
  const EXPIRE_AFTER_WRITE: int := 15 * 60 * 1000
  /** `maximumSize(100)`. */
  const MAXIMUM_SIZE: nat := 100

  /** A cached count and the time it was last written. */
  datatype Entry = Entry(attempts: nat, writtenAt: int)

  /** The entry for `key` exists and is less than 15 minutes old at `now`. */
  predicate IsLive(entries: map<string, Entry>, key: string, now: int)
  {
    key in entries && now - entries[key].writtenAt < EXPIRE_AFTER_WRITE
  }

  /** The count a read of `key` at `now` sees; absent and expired entries read as 0. */
  function Attempts(entries: map<string, Entry>, key: string, now: int): nat
  {
    if IsLive(entries, key, now) then entries[key].attempts else 0
  }

  /** Apart from `key`, every entry of `after` was in `before` with the same value: others are kept or evicted, never altered. */
  ghost predicate OthersKeptOrEvicted(before: map<string, Entry>, after: map<string, Entry>, key: string)
  {
    forall k :: k in after && k != key ==> k in before && after[k] == before[k]
  }

  /** A write of `value` for `key` at `now`: the entry is set, the size stays bounded, and other entries are kept or evicted. */
  ghost predicate Written(before: map<string, Entry>, after: map<string, Entry>, key: string, value: nat, now: int)
  {
    && key in after && after[key] == Entry(value, now)
    && |after| <= MAXIMUM_SIZE
    && OthersKeptOrEvicted(before, after, key)
  }

  /** The state change of one failed attempt for `key` at `now`: its count goes up by one and is rewritten. */
  ghost predicate AddedAttempt(before: map<string, Entry>, after: map<string, Entry>, key: string, now: int)
  {
    && key in after && after[key] == Entry(Attempts(before, key, now) + ATTEMPT_INCREMENT, now)
    && |after| <= MAXIMUM_SIZE
    && OthersKeptOrEvicted(before, after, key)
  }

  /** The Guava `LoadingCache<String, Integer>` built in the service's constructor. */
  class AttemptCache {
    var entries: map<string, Entry>

    ghost predicate Valid()
      reads this
    {
      |entries| <= MAXIMUM_SIZE
    }

    constructor ()
      ensures Valid() && entries == map[]
    {
      entries := map[];
    }

    /**
     * Size-based eviction after a write of `key`: some set of other entries is dropped so that at
     * most 100 remain. Which ones, and whether any are dropped below 100, is left open: the cache
     * bounds each of its segments separately and may evict before the total limit is reached.
     */
    method EvictIfOverCapacity(key: string)
      requires key in entries
      modifies this
      ensures Valid() && key in entries && entries[key] == old(entries)[key]
      ensures OthersKeptOrEvicted(old(entries), entries, key)
    {
      assert |entries - (entries.Keys - {key})| <= MAXIMUM_SIZE by {
        assert (entries - (entries.Keys - {key})).Keys == {key};
      }
      var victims :| victims <= entries.Keys - {key} && |entries - victims| <= MAXIMUM_SIZE;
      entries := entries - victims;
    }

    /** `put(key, value)`: writes the entry at `now`. */
    method Put(key: string, value: nat, now: int)
      requires Valid()
      modifies this
      ensures Valid() && Written(old(entries), entries, key, value, now)
    {
      entries := entries[key := Entry(value, now)];
      EvictIfOverCapacity(key);
    }

    /**
     * `get(key)`: a live entry's count, left exactly as it was (reads do not extend its life);
     * otherwise the loader's 0, which is written into the cache at `now`.
     */
    method Get(key: string, now: int) returns (attempts: nat)
      requires Valid()
      modifies this
      ensures Valid() && attempts == Attempts(old(entries), key, now)
      ensures IsLive(old(entries), key, now) ==> entries == old(entries)
      ensures !IsLive(old(entries), key, now) ==> Written(old(entries), entries, key, 0, now)
    {
      if IsLive(entries, key, now) {
        attempts := entries[key].attempts;
      } else {
        Put(key, 0, now);
        attempts := 0;
      }
    }

    /** `invalidate(key)`. */
    method Invalidate(key: string)
      requires Valid()
      modifies this
      ensures Valid() && entries == old(entries) - {key}
    {
      entries := entries - {key};
    }
  }

  class LoginAttemptService {
    const loginAttemptCache: AttemptCache

    ghost predicate Valid()
      reads this, loginAttemptCache
    {
      loginAttemptCache.Valid()
    }

    constructor ()
      ensures Valid() && fresh(loginAttemptCache) && loginAttemptCache.entries == map[]
    {
      loginAttemptCache := new AttemptCache();
    }

    /** Removes `username` and nothing else. */
    method EvictUserFromLoginAttemptCache(username: string)
      requires Valid()
      modifies loginAttemptCache
      ensures Valid() && loginAttemptCache.entries == old(loginAttemptCache.entries) - {username}
    {
      loginAttemptCache.Invalidate(username);
    }

    /** Reads the count (loading 0 if needed), adds one, and writes the sum back. */
    method AddUserToLoginAttemptCache(username: string, now: int)
      requires Valid()
      modifies loginAttemptCache
      ensures Valid() && AddedAttempt(old(loginAttemptCache.entries), loginAttemptCache.entries, username, now)
    {
      var attempts := 0;
      var current := loginAttemptCache.Get(username, now);
      attempts := ATTEMPT_INCREMENT + current;
      ghost var loaded := loginAttemptCache.entries;
      loginAttemptCache.Put(username, attempts, now);
      assert OthersKeptOrEvicted(loaded, loginAttemptCache.entries, username);
    }

    /** True iff the count read at `now` is at least 5; a missing key is loaded as 0, an existing count is never changed. */
    method HasExceededMaxAttempts(username: string, now: int) returns (exceeded: bool)
      requires Valid()
      modifies loginAttemptCache
      ensures Valid()
      ensures exceeded <==> Attempts(old(loginAttemptCache.entries), username, now) >= MAXIMUM_NUMBER_OF_ATTEMPTS
      ensures IsLive(old(loginAttemptCache.entries), username, now) ==> loginAttemptCache.entries == old(loginAttemptCache.entries)
      ensures !IsLive(old(loginAttemptCache.entries), username, now) ==>
        Written(old(loginAttemptCache.entries), loginAttemptCache.entries, username, 0, now)
    {
      var attempts := loginAttemptCache.Get(username, now);
      exceeded := attempts >= MAXIMUM_NUMBER_OF_ATTEMPTS;
    }
  }

  /** An absent or expired user is counted from 0, so the first failure stores 1. */
  lemma FirstFailureStoresOne(before: map<string, Entry>, after: map<string, Entry>, username: string, now: int)
    requires !IsLive(before, username, now)
    requires AddedAttempt(before, after, username, now)
    ensures after[username].attempts == 1
  {
  }

  /** A failure for a user whose entry is live adds exactly one to its count and refreshes its write time. */
  lemma FailureIncrementsLiveCount(before: map<string, Entry>, after: map<string, Entry>, username: string, now: int)
    requires IsLive(before, username, now)
    requires AddedAttempt(before, after, username, now)
    ensures after[username] == Entry(before[username].attempts + 1, now)
  {
  }

  /** An entry written 15 minutes or more before `now` reads as absent, whatever its count. */
  lemma ExpiredEntryReadsAsZero(entries: map<string, Entry>, username: string, now: int)
    requires username in entries && entries[username].writtenAt + EXPIRE_AFTER_WRITE <= now
    ensures Attempts(entries, username, now) == 0
  {
  }

  /** After an eviction the user reads as 0, so it is under the limit. */
  lemma EvictedUserUnderLimit(entries: map<string, Entry>, username: string, now: int)
    ensures Attempts(entries - {username}, username, now) < MAXIMUM_NUMBER_OF_ATTEMPTS
  {
  }

  /**
   * `states[i+1]` is `states[i]` after a failure for `username` at `times[i]`, each failure less
   * than 15 minutes after the one before: every failure adds one to what the first one saw.
   */
  lemma {:induction false} ConsecutiveFailuresCount(states: seq<map<string, Entry>>, times: seq<int>, username: string)
    requires |times| >= 1 && |states| == |times| + 1
    requires forall i :: 0 <= i < |times| ==> AddedAttempt(states[i], states[i + 1], username, times[i])
    requires forall i :: 0 < i < |times| ==> times[i - 1] <= times[i] < times[i - 1] + EXPIRE_AFTER_WRITE
    ensures Attempts(states[|times|], username, times[|times| - 1]) == Attempts(states[0], username, times[0]) + |times|
  {
    var n := |times|;
    if n > 1 {
      ConsecutiveFailuresCount(states[..n], times[..n - 1], username);
      assert IsLive(states[n - 1], username, times[n - 1]);
    }
  }

  /** Five failures with no 15-minute gap reach the limit, and any further failures keep it reached. */
  lemma FiveFailuresExceedLimit(states: seq<map<string, Entry>>, times: seq<int>, username: string)
    requires |times| >= MAXIMUM_NUMBER_OF_ATTEMPTS && |states| == |times| + 1
    requires forall i :: 0 <= i < |times| ==> AddedAttempt(states[i], states[i + 1], username, times[i])
    requires forall i :: 0 < i < |times| ==> times[i - 1] <= times[i] < times[i - 1] + EXPIRE_AFTER_WRITE
    ensures Attempts(states[|times|], username, times[|times| - 1]) >= MAXIMUM_NUMBER_OF_ATTEMPTS
  {
    ConsecutiveFailuresCount(states, times, username);
  }
}

/** The context store: one shared document under a context key, guarded by a
    distributed lock, saved through a storage backend. */
module Context {
  import opened Protocol
  import opened Memory
  import opened Backend

  /** Default time to live of the lock, in milliseconds. */
  const DefaultLockTimeout: int := 10000
  /** Default pause between two acquisition attempts: 0.1 s, in milliseconds. */
  const DefaultRetryDelay: nat := 100
  /** Default number of acquisition attempts. */
  const DefaultMaxRetries: int := 50

  const UpdateFailure: string := "Failed to acquire lock for updating context"
  const TransactionFailure: string := "Failed to acquire lock for transactional update"

  /** The lock key derived from a context key. */
  function LockKeyOf(contextKey: string): (k: string)
    ensures |k| == |contextKey| + 5 && k[..|contextKey|] == contextKey && k[|contextKey|..] == "_lock"
  {
    contextKey + "_lock"
  }

  /** Distinct contexts never share a lock. */
  lemma LockKeyInjective(a: string, b: string)
    requires LockKeyOf(a) == LockKeyOf(b)
    ensures a == b
  {
    assert a == LockKeyOf(a)[..|a|];
  }

  /** The clock reading at acquisition attempt `attempt` (counted from 0). */
  function AttemptTime(now: int, retryDelay: nat, attempt: nat): int {
    now + attempt * retryDelay
  }

  /** Whether attempt `attempt` finds the lock held by a live record. */
  predicate BusyAt(locks: LockTable, key: string, now: int, retryDelay: nat, attempt: nat) {
    Held(locks, key, AttemptTime(now, retryDelay, attempt))
  }

  /** The first attempt from `from` on, below `maxRetries`, that finds the lock free. */
  function FirstFreeFrom(locks: LockTable, key: string, now: int, retryDelay: nat,
                         from: nat, maxRetries: int): (found: Option<nat>)
    ensures found.Some? ==> from <= found.value < maxRetries
                            && !BusyAt(locks, key, now, retryDelay, found.value)
                            && forall j :: from <= j < found.value ==> BusyAt(locks, key, now, retryDelay, j)
    ensures found.None? ==> forall j :: from <= j < maxRetries ==> BusyAt(locks, key, now, retryDelay, j)
    decreases maxRetries - from
  {
    if maxRetries <= from then None
    else if !BusyAt(locks, key, now, retryDelay, from) then Some(from)
    else FirstFreeFrom(locks, key, now, retryDelay, from + 1, maxRetries)
  }

  /** The attempt at which a lock loop over a table nobody else changes succeeds, if any. */
  function FirstFree(locks: LockTable, key: string, now: int, retryDelay: nat, maxRetries: int): Option<nat> {
    FirstFreeFrom(locks, key, now, retryDelay, 0, maxRetries)
  }

  /** The successful attempt is characterised by its two properties: every earlier
      attempt finds the lock busy and this one finds it free. */
  lemma FirstFreeAt(locks: LockTable, key: string, now: int, retryDelay: nat, maxRetries: int, i: nat)
    requires i < maxRetries
    requires forall j :: 0 <= j < i ==> BusyAt(locks, key, now, retryDelay, j)
    requires !BusyAt(locks, key, now, retryDelay, i)
    ensures FirstFree(locks, key, now, retryDelay, maxRetries) == Some(i)
  {
  }

  /** How many acquisition calls the lock loop makes. */
  function Attempts(found: Option<nat>, maxRetries: int): nat {
    match found
    case Some(i) => i + 1
    case None => if maxRetries > 0 then maxRetries else 0
  }

  /** `n` identical acquisition calls. */
  function AcquireCalls(key: string, token: string, ttl: int, n: nat): (r: seq<Op>)
    ensures |r| == n
    ensures forall j :: 0 <= j < n ==> r[j] == Acquire(key, token, ttl)
  {
    seq(n, _ => Acquire(key, token, ttl))
  }

  lemma AcquireCallsStep(key: string, token: string, ttl: int, n: nat)
    ensures AcquireCalls(key, token, ttl, n + 1) == AcquireCalls(key, token, ttl, n) + [Acquire(key, token, ttl)]
  {
    assert AcquireCalls(key, token, ttl, n + 1)[..n] == AcquireCalls(key, token, ttl, n);
  }

  /** The retry window: when nobody else touches the lock, the loop obtains it exactly when
      there is at least one attempt and the lock is absent or expires by the last attempt. */
  lemma RetryWindow(locks: LockTable, key: string, now: int, retryDelay: nat, maxRetries: int)
    ensures FirstFree(locks, key, now, retryDelay, maxRetries).Some?
        <==> maxRetries > 0
             && (key !in locks || locks[key].expiresAt <= AttemptTime(now, retryDelay, maxRetries - 1))
  {
    var found := FirstFree(locks, key, now, retryDelay, maxRetries);
    if found.Some? {
      var i := found.value;
      assert (maxRetries - 1) * retryDelay - i * retryDelay == (maxRetries - 1 - i) * retryDelay;
    } else if maxRetries > 0 {
      assert BusyAt(locks, key, now, retryDelay, maxRetries - 1);
    }
  }

  /** A free lock is obtained at the first attempt, with a single call. */
  lemma FreeLockFirstAttempt(locks: LockTable, key: string, now: int, retryDelay: nat, maxRetries: int)
    requires maxRetries > 0 && !Held(locks, key, now)
    ensures FirstFree(locks, key, now, retryDelay, maxRetries) == Some(0)
    ensures Attempts(FirstFree(locks, key, now, retryDelay, maxRetries), maxRetries) == 1
  {
    assert !BusyAt(locks, key, now, retryDelay, 0);
  }

  /** The loop never makes more than `maxRetries` acquisition calls. */
  lemma AttemptsBounded(locks: LockTable, key: string, now: int, retryDelay: nat, maxRetries: int)
    ensures Attempts(FirstFree(locks, key, now, retryDelay, maxRetries), maxRetries)
            <= if maxRetries > 0 then maxRetries else 0
  {
  }

  /** Contention between two instances: once one of them holds the lock for `ttl`,
      another instance's loop started while it is held gives up exactly when the
      record outlives its last attempt, and succeeds at a free attempt otherwise. */
  lemma {:induction false} LockedOut(locks: LockTable, key: string, holder: string, ttl: int, acquiredAt: int,
                                     now: int, retryDelay: nat, maxRetries: int)
    requires !Held(locks, key, acquiredAt)
    requires maxRetries > 0
    ensures FirstFree(Acquired(locks, key, holder, ttl, acquiredAt), key, now, retryDelay, maxRetries).None?
        <==> AttemptTime(now, retryDelay, maxRetries - 1) < acquiredAt + ttl
  {
    RetryWindow(Acquired(locks, key, holder, ttl, acquiredAt), key, now, retryDelay, maxRetries);
  }

  /** Applying a batch of field writes in any order leaves each written field with its new
      value and every other field as it was. */
  lemma BatchSemantics(context: Document, ops: Document, k: string)
    ensures k in context + ops <==> k in context || k in ops
    ensures k in ops ==> (context + ops)[k] == ops[k]
    ensures k in context && k !in ops ==> (context + ops)[k] == context[k]
  {
  }

  class Contextd {
    const contextKey: string
    const storage: Storage
    const lockKey: string
    /** The token identifying this instance as a lock owner. */
    const lockValue: string
    const enableNotifications: bool
    /** The in-memory copy of the shared document. */
    var context: Document
    /** Every storage call this instance has made, in order. */
    var trace: seq<Op>

    ghost predicate Valid() {
      storage.Valid() && lockKey == LockKeyOf(contextKey)
    }

    /** The documents held by the authoritative backend. */
    function Docs(): map<string, Document>
      reads storage.Primary()
    {
      storage.Primary().docs
    }

    /** The lock table of the authoritative backend. */
    function Locks(): LockTable
      reads storage.Primary()
    {
      storage.Primary().locks
    }

    /** The attempt at which the default lock loop succeeds against `locks`, if any. */
    function Grant(locks: LockTable, now: int): Option<nat> {
      FirstFree(locks, lockKey, now, DefaultRetryDelay, DefaultMaxRetries)
    }

    /** Whether the default lock loop, started at `now` against `locks`, obtains the lock. */
    predicate Obtained(locks: LockTable, now: int) {
      storage.Primary().available && Grant(locks, now).Some?
    }

    /** The secondaries' `states` after this instance saved its in-memory document and then
        released its lock, each reaching the same prefix of the secondaries. */
    function Committed(states: seq<StoreState>): seq<StoreState>
      reads this
    {
      ReleasedPrefix(SavedPrefix(states, storage.Reach(), contextKey, context), storage.Reach(), lockKey, lockValue)
    }

    constructor (contextKey: string, storage: Storage, lockValue: string, enableNotifications: bool := true)
      ensures storage.Valid() ==> Valid()
      ensures this.contextKey == contextKey && this.storage == storage
      ensures this.lockValue == lockValue && this.enableNotifications == enableNotifications
      ensures lockKey == contextKey + "_lock"
      ensures context == map[] && trace == []
    {
      this.contextKey, this.storage := contextKey, storage;
      this.lockKey := LockKeyOf(contextKey);
      this.lockValue, this.enableNotifications := lockValue, enableNotifications;
      context, trace := map[], [];
    }

    /** Loads the shared document and, when notifications are on, registers this
        instance's reload as the callback for the context key's channel. */
    method Initialize() returns (r: Result<()>)
      requires Valid()
      modifies this, storage.Front()
      ensures Docs() == old(Docs()) && Locks() == old(Locks())
      ensures storage.Primary().published == old(storage.Primary().published)
      ensures storage.MirrorStates() == old(storage.MirrorStates())
      ensures !storage.Primary().available ==>
                r == Err(StorageUnavailable) && context == old(context)
                && trace == old(trace) + [Load(contextKey)]
      ensures storage.Primary().available ==>
                context == LoadDoc(Docs(), contextKey)
                && trace == old(trace) + [Load(contextKey)]
                   + (if enableNotifications then [Subscribe(contextKey, LoadContextOf(lockValue))] else [])
                && (r.Ok? <==> !enableNotifications || storage.CanSignal())
      ensures r.Err? ==> r.error == StorageUnavailable
      ensures storage.Primary().subscriptions
              == if enableNotifications && storage.Signalling() && storage.Primary().available
                 then old(storage.Primary().subscriptions) + [Subscription(contextKey, LoadContextOf(lockValue))]
                 else old(storage.Primary().subscriptions)
    {
      var loaded := Backend.LoadContext(storage, contextKey);
      trace := trace + [Load(contextKey)];
      if loaded.Err? {
        return Err(loaded.error);
      }
      context := loaded.value;
      r := Ok(());
      if enableNotifications {
        r := Backend.SubscribeToUpdates(storage, contextKey, LoadContextOf(lockValue));
        trace := trace + [Subscribe(contextKey, LoadContextOf(lockValue))];
      }
    }

    /** Replaces the in-memory document wholesale with the stored one. */
    method LoadContext() returns (r: Result<()>)
      requires Valid()
      modifies this, storage.Reader()
      ensures storage.Primary().State() == old(storage.Primary().State())
      ensures storage.MirrorStates() == old(storage.MirrorStates())
      ensures trace == old(trace) + [Load(contextKey)]
      ensures r.Ok? <==> storage.Primary().available
      ensures r.Err? ==> r.error == StorageUnavailable
      ensures context == if r.Ok? then LoadDoc(Docs(), contextKey) else old(context)
    {
      var loaded := Backend.LoadContext(storage, contextKey);
      trace := trace + [Load(contextKey)];
      if loaded.Err? {
        return Err(loaded.error);
      }
      context := loaded.value;
      r := Ok(());
    }

    /** Writes the in-memory document under the context key. */
    method SaveContext() returns (r: Result<()>)
      requires Valid()
      modifies this, storage.Repr()
      ensures context == old(context)
      ensures trace == old(trace) + [Save(contextKey, context)]
      ensures r.Ok? <==> storage.AllAvailable()
      ensures r.Err? ==> r.error == StorageUnavailable
      ensures storage.Primary().State() == storage.AfterStore(old(storage.Primary().State()), contextKey, context)
      ensures storage.MirrorStates() == SavedPrefix(old(storage.MirrorStates()), storage.Reach(), contextKey, context)
      ensures Docs() == if storage.Primary().available then old(Docs())[contextKey := context] else old(Docs())
      ensures Locks() == old(Locks())
    {
      r := Backend.SaveContext(storage, contextKey, context);
      trace := trace + [Save(contextKey, context)];
    }

    /** Tries to take the lock up to `maxRetries` times, attempt `i` at time
        `now + i * retryDelay`, and reports whether it was obtained. */
    method AcquireLock(now: int, lockTimeout: int := DefaultLockTimeout, retryDelay: nat := DefaultRetryDelay,
                       maxRetries: int := DefaultMaxRetries) returns (r: Result<bool>)
      requires Valid()
      modifies this, storage.Front()
      ensures context == old(context) && Docs() == old(Docs())
      ensures storage.Primary().published == old(storage.Primary().published)
      ensures storage.Primary().subscriptions == old(storage.Primary().subscriptions)
      ensures storage.MirrorStates() == old(storage.MirrorStates())
      ensures maxRetries <= 0 ==> r == Ok(false) && trace == old(trace) && Locks() == old(Locks())
      ensures maxRetries > 0 && !storage.Primary().available ==>
                r == Err(StorageUnavailable) && Locks() == old(Locks())
                && trace == old(trace) + [Acquire(lockKey, lockValue, lockTimeout)]
      ensures maxRetries > 0 && storage.Primary().available ==>
                var found := FirstFree(old(Locks()), lockKey, now, retryDelay, maxRetries);
                r == Ok(found.Some?)
                && trace == old(trace) + AcquireCalls(lockKey, lockValue, lockTimeout, Attempts(found, maxRetries))
                && Locks() == if found.Some?
                              then old(Locks())[lockKey := LockRecord(lockValue, AttemptTime(now, retryDelay, found.value) + lockTimeout)]
                              else old(Locks())
    {
      ghost var locks0 := Locks();
      var i: nat := 0;
      while i < maxRetries
        invariant i <= (if maxRetries > 0 then maxRetries else 0)
        invariant i > 0 ==> storage.Primary().available
        invariant forall j :: 0 <= j < i ==> BusyAt(locks0, lockKey, now, retryDelay, j)
        invariant trace == old(trace) + AcquireCalls(lockKey, lockValue, lockTimeout, i)
        invariant Locks() == locks0 && Docs() == old(Docs()) && context == old(context)
        invariant storage.Primary().published == old(storage.Primary().published)
        invariant storage.Primary().subscriptions == old(storage.Primary().subscriptions)
        invariant storage.MirrorStates() == old(storage.MirrorStates())
        decreases maxRetries - i
      {
        var got := Backend.AcquireLock(storage, lockKey, lockValue, lockTimeout, AttemptTime(now, retryDelay, i));
        AcquireCallsStep(lockKey, lockValue, lockTimeout, i);
        trace := trace + [Acquire(lockKey, lockValue, lockTimeout)];
        if got.Err? {
          return Err(got.error);
        }
        if got.value {
          FirstFreeAt(locks0, lockKey, now, retryDelay, maxRetries, i);
          return Ok(true);
        }
        i := i + 1;
      }
      r := Ok(false);
    }

    /** Releases the lock if this instance still owns it. */
    method ReleaseLock() returns (r: Result<()>)
      requires Valid()
      modifies this, storage.Repr()
      ensures context == old(context) && Docs() == old(Docs())
      ensures trace == old(trace) + [Release(lockKey, lockValue)]
      ensures r.Ok? <==> storage.AllAvailable()
      ensures r.Err? ==> r.error == StorageUnavailable
      ensures storage.Primary().State() == AfterRelease(old(storage.Primary().State()), lockKey, lockValue)
      ensures storage.MirrorStates() == ReleasedPrefix(old(storage.MirrorStates()), storage.Reach(), lockKey, lockValue)
      ensures Locks() == if storage.Primary().available then Released(old(Locks()), lockKey, lockValue) else old(Locks())
    {
      r := Backend.ReleaseLock(storage, lockKey, lockValue);
      trace := trace + [Release(lockKey, lockValue)];
    }

    /** The tail of every update, run once the lock is held: saves the in-memory document,
        then releases the lock whatever the save did; the release's failure wins. */
    method Commit() returns (r: Result<()>)
      requires Valid() && storage.Primary().available
      modifies this, storage.Repr()
      ensures context == old(context)
      ensures trace == old(trace) + [Save(contextKey, context), Release(lockKey, lockValue)]
      ensures Docs() == old(Docs())[contextKey := context]
      ensures Locks() == Released(old(Locks()), lockKey, lockValue)
      ensures storage.Primary().subscriptions == old(storage.Primary().subscriptions)
      ensures storage.Primary().published == old(storage.Primary().published) + storage.Announced(contextKey)
      ensures storage.MirrorStates() == Committed(old(storage.MirrorStates()))
      ensures r.Ok? <==> storage.AllAvailable()
      ensures r.Err? ==> r.error == StorageUnavailable
    {
      var saved := SaveContext();
      var released := ReleaseLock();
      r := if released.Err? then released else saved;
    }

    /** Sets one field under the lock, saves, and releases the lock whatever the save did. */
    method UpdateContext(key: string, value: Value, now: int) returns (r: Result<()>)
      requires Valid()
      modifies this, storage.Repr()
      ensures storage.Primary().subscriptions == old(storage.Primary().subscriptions)
      ensures storage.Primary().published
              == if Obtained(old(Locks()), now) then old(storage.Primary().published) + storage.Announced(contextKey)
                 else old(storage.Primary().published)
      ensures storage.MirrorStates()
              == if Obtained(old(Locks()), now) then Committed(old(storage.MirrorStates())) else old(storage.MirrorStates())
      ensures !storage.Primary().available ==>
                r == Err(StorageUnavailable) && context == old(context)
                && trace == old(trace) + [Acquire(lockKey, lockValue, DefaultLockTimeout)]
                && Docs() == old(Docs()) && Locks() == old(Locks())
      ensures storage.Primary().available && Grant(old(Locks()), now).None? ==>
                r == Err(LockNotAcquired(UpdateFailure)) && context == old(context)
                && trace == old(trace) + AcquireCalls(lockKey, lockValue, DefaultLockTimeout, DefaultMaxRetries as nat)
                && Docs() == old(Docs()) && Locks() == old(Locks())
      ensures storage.Primary().available && Grant(old(Locks()), now).Some? ==>
                context == old(context)[key := value]
                && trace == old(trace) + AcquireCalls(lockKey, lockValue, DefaultLockTimeout, Grant(old(Locks()), now).value + 1)
                   + [Save(contextKey, context), Release(lockKey, lockValue)]
                && Docs() == old(Docs())[contextKey := context]
                && Locks() == old(Locks()) - {lockKey}
                && (r.Ok? <==> storage.AllAvailable())
                && (r.Err? ==> r.error == StorageUnavailable)
    {
      var acquired := AcquireLock(now);
      if acquired.Err? {
        return Err(acquired.error);
      }
      if !acquired.value {
        return Err(LockNotAcquired(UpdateFailure));
      }
      assert Obtained(old(Locks()), now);
      ghost var locked := Locks();
      context := context[key := value];
      r := Commit();
      assert Released(locked, lockKey, lockValue) == old(Locks()) - {lockKey};
    }

    /** Corrected update: once the lock is held, reloads the stored document and applies
        the write to it, so that a field another instance saved meanwhile is kept. */
    method RefreshingUpdate(key: string, value: Value, now: int) returns (r: Result<()>)
      requires Valid()
      modifies this, storage.Repr()
      ensures storage.Primary().subscriptions == old(storage.Primary().subscriptions)
      ensures storage.Primary().published
              == if Obtained(old(Locks()), now) then old(storage.Primary().published) + storage.Announced(contextKey)
                 else old(storage.Primary().published)
      ensures storage.MirrorStates()
              == if Obtained(old(Locks()), now) then Committed(old(storage.MirrorStates())) else old(storage.MirrorStates())
      ensures !storage.Primary().available ==>
                r == Err(StorageUnavailable) && context == old(context)
                && trace == old(trace) + [Acquire(lockKey, lockValue, DefaultLockTimeout)]
                && Docs() == old(Docs()) && Locks() == old(Locks())
      ensures storage.Primary().available && Grant(old(Locks()), now).None? ==>
                r == Err(LockNotAcquired(UpdateFailure)) && context == old(context)
                && trace == old(trace) + AcquireCalls(lockKey, lockValue, DefaultLockTimeout, DefaultMaxRetries as nat)
                && Docs() == old(Docs()) && Locks() == old(Locks())
      ensures storage.Primary().available && Grant(old(Locks()), now).Some? ==>
                context == LoadDoc(old(Docs()), contextKey)[key := value]
                && trace == old(trace) + AcquireCalls(lockKey, lockValue, DefaultLockTimeout, Grant(old(Locks()), now).value + 1)
                   + [Load(contextKey), Save(contextKey, context), Release(lockKey, lockValue)]
                && Docs() == old(Docs())[contextKey := context]
                && Locks() == old(Locks()) - {lockKey}
                && (r.Ok? <==> storage.AllAvailable())
                && (r.Err? ==> r.error == StorageUnavailable)
    {
      var acquired := AcquireLock(now);
      if acquired.Err? {
        return Err(acquired.error);
      }
      if !acquired.value {
        return Err(LockNotAcquired(UpdateFailure));
      }
      assert Obtained(old(Locks()), now);
      ghost var locked := Locks();
      var loaded := LoadContext();
      if loaded.Err? {
        // the primary answered the lock request, so it answers the read too
        assert false;
      }
      context := context[key := value];
      r := Commit();
      assert Released(locked, lockKey, lockValue) == old(Locks()) - {lockKey};
    }

    /** Applies every write of `ops` under the lock, saves once, and releases the lock
        whatever the save did. */
    method TransactionalUpdate(ops: map<string, Value>, now: int) returns (r: Result<()>)
      requires Valid()
      modifies this, storage.Repr()
      ensures storage.Primary().subscriptions == old(storage.Primary().subscriptions)
      ensures storage.Primary().published
              == if Obtained(old(Locks()), now) then old(storage.Primary().published) + storage.Announced(contextKey)
                 else old(storage.Primary().published)
      ensures storage.MirrorStates()
              == if Obtained(old(Locks()), now) then Committed(old(storage.MirrorStates())) else old(storage.MirrorStates())
      ensures !storage.Primary().available ==>
                r == Err(StorageUnavailable) && context == old(context)
                && trace == old(trace) + [Acquire(lockKey, lockValue, DefaultLockTimeout)]
                && Docs() == old(Docs()) && Locks() == old(Locks())
      ensures storage.Primary().available && Grant(old(Locks()), now).None? ==>
                r == Err(LockNotAcquired(TransactionFailure)) && context == old(context)
                && trace == old(trace) + AcquireCalls(lockKey, lockValue, DefaultLockTimeout, DefaultMaxRetries as nat)
                && Docs() == old(Docs()) && Locks() == old(Locks())
      ensures storage.Primary().available && Grant(old(Locks()), now).Some? ==>
                context == old(context) + ops
                && trace == old(trace) + AcquireCalls(lockKey, lockValue, DefaultLockTimeout, Grant(old(Locks()), now).value + 1)
                   + [Save(contextKey, context), Release(lockKey, lockValue)]
                && Docs() == old(Docs())[contextKey := context]
                && Locks() == old(Locks()) - {lockKey}
                && (r.Ok? <==> storage.AllAvailable())
                && (r.Err? ==> r.error == StorageUnavailable)
    {
      var acquired := AcquireLock(now);
      if acquired.Err? {
        return Err(acquired.error);
      }
      if !acquired.value {
        return Err(LockNotAcquired(TransactionFailure));
      }
      assert Obtained(old(Locks()), now);
      ghost var locked := Locks();
      context := ApplyOperations(context, ops);
      r := Commit();
      assert Released(locked, lockKey, lockValue) == old(Locks()) - {lockKey};
    }

    /** Writes every field of `ops` into `doc`, one at a time: a field of `ops` takes its
        new value, every other field keeps its own. */
    static method ApplyOperations(doc: Document, ops: map<string, Value>) returns (updated: Document)
      ensures updated == doc + ops
    {
      updated := doc;
      var remaining := ops.Keys;
      while remaining != {}
        invariant remaining <= ops.Keys
        invariant updated == doc + (ops - remaining)
        decreases remaining
      {
        var k :| k in remaining;
        updated := updated[k := ops[k]];
        remaining := remaining - {k};
      }
      assert ops - {} == ops;
    }

    /** The in-memory document, without any storage call. */
    method GetContext() returns (c: Document)
      ensures c == context
    {
      c := context;
    }
  }
}

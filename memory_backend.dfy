/** The storage interface implemented in memory, with the lock semantics of the
    key-value store: acquisition is set-if-absent with a time to live, release is
    compare-and-delete. Time is an explicit clock in milliseconds. */
module Memory {
  import opened Protocol

  /** The record held under a lock key: who owns it and when it stops counting. */
  datatype LockRecord = LockRecord(owner: string, expiresAt: int)

  type LockTable = map<string, LockRecord>

  /** A lock record is live strictly before its deadline; from then on it is as if absent. */
  predicate Held(locks: LockTable, key: string, now: int) {
    key in locks && now < locks[key].expiresAt
  }

  /** The lock table after `acquire_lock(key, token, ttl)` at time `now`: set only if absent. */
  function Acquired(locks: LockTable, key: string, token: string, ttl: int, now: int): LockTable {
    if Held(locks, key, now) then locks else locks[key := LockRecord(token, now + ttl)]
  }

  /** The lock table after `release_lock(key, token)`: deleted only if the token matches. */
  function Released(locks: LockTable, key: string, token: string): LockTable {
    if key in locks && locks[key].owner == token then locks - {key} else locks
  }

  /** The document stored under `key`; a key never saved loads as the empty document. */
  function LoadDoc(docs: map<string, Document>, key: string): Document {
    if key in docs then docs[key] else map[]
  }

  datatype Subscription = Subscription(channel: string, callback: Callback)

  /** Everything a backend holds, as one value. */
  datatype StoreState = StoreState(
    docs: map<string, Document>,
    locks: LockTable,
    published: seq<string>,
    subscriptions: seq<Subscription>,
    notify: bool,
    available: bool)

  function Loaded(s: StoreState, key: string): Result<Document> {
    if s.available then Ok(LoadDoc(s.docs, key)) else Err(StorageUnavailable)
  }

  /** Publish and subscribe do I/O, and so can fail, only when notifications are on. */
  predicate Signals(s: StoreState) {
    !s.notify || s.available
  }

  function AfterSave(s: StoreState, key: string, doc: Document): StoreState {
    if !s.available then s
    else s.(docs := s.docs[key := doc],
            published := if s.notify then s.published + [key] else s.published)
  }

  function AfterPublish(s: StoreState, channel: string): StoreState {
    if s.notify && s.available then s.(published := s.published + [channel]) else s
  }

  function AfterSubscribe(s: StoreState, channel: string, callback: Callback): StoreState {
    if s.notify && s.available
    then s.(subscriptions := s.subscriptions + [Subscription(channel, callback)])
    else s
  }

  function AfterAcquire(s: StoreState, key: string, token: string, ttl: int, now: int): StoreState {
    if s.available then s.(locks := Acquired(s.locks, key, token, ttl, now)) else s
  }

  function AfterRelease(s: StoreState, key: string, token: string): StoreState {
    if s.available then s.(locks := Released(s.locks, key, token)) else s
  }

  /** Saving then loading the same key gives the saved document back; other keys
      load as before; a key never saved loads as the empty document. */
  lemma SaveThenLoad(s: StoreState, key: string, doc: Document, other: string)
    requires s.available
    ensures Loaded(AfterSave(s, key, doc), key) == Ok(doc)
    ensures other != key ==> Loaded(AfterSave(s, key, doc), other) == Loaded(s, other)
    ensures other !in s.docs && other != key ==> Loaded(AfterSave(s, key, doc), other) == Ok(map[])
  {
  }

  /** Mutual exclusion: once `a` holds a free lock, every attempt by anyone before the
      deadline fails and leaves the record as it is. */
  lemma MutualExclusion(locks: LockTable, key: string, a: string, ttl: int, now: int,
                        b: string, ttl2: int, later: int)
    requires !Held(locks, key, now)
    requires now <= later < now + ttl
    ensures Held(Acquired(locks, key, a, ttl, now), key, later)
    ensures Acquired(locks, key, a, ttl, now)[key].owner == a
    ensures Acquired(Acquired(locks, key, a, ttl, now), key, b, ttl2, later)
         == Acquired(locks, key, a, ttl, now)
  {
  }

  /** Self-expiry: a lock never released can be taken by another token from its deadline on. */
  lemma SelfExpiry(locks: LockTable, key: string, a: string, ttl: int, now: int,
                   b: string, ttl2: int, later: int)
    requires !Held(locks, key, now)
    requires later >= now + ttl
    ensures !Held(Acquired(locks, key, a, ttl, now), key, later)
    ensures Acquired(Acquired(locks, key, a, ttl, now), key, b, ttl2, later)[key]
         == LockRecord(b, later + ttl2)
  {
  }

  /** Release authorisation: a release presenting another token changes nothing. */
  lemma ReleaseAuthorization(locks: LockTable, key: string, token: string)
    requires key in locks && locks[key].owner != token
    ensures Released(locks, key, token) == locks
  {
  }

  /** The owner's own release removes the record it created, and only that record. */
  lemma OwnerRelease(locks: LockTable, key: string, token: string, ttl: int, now: int)
    requires !Held(locks, key, now)
    ensures Released(Acquired(locks, key, token, ttl, now), key, token) == locks - {key}
  {
  }

  /** An in-memory storage backend. `available` stands for the reachability of the
      store: when it is false every call that does I/O raises. */
  class MemoryBackend {
    var docs: map<string, Document>
    var locks: LockTable
    var published: seq<string>
    var subscriptions: seq<Subscription>
    const enableNotifications: bool
    const available: bool

    function State(): StoreState
      reads this
    {
      StoreState(docs, locks, published, subscriptions, enableNotifications, available)
    }

    constructor (enableNotifications: bool, available: bool)
      ensures State() == StoreState(map[], map[], [], [], enableNotifications, available)
    {
      docs, locks, published, subscriptions := map[], map[], [], [];
      this.enableNotifications, this.available := enableNotifications, available;
    }

    method LoadContext(key: string) returns (r: Result<Document>)
      ensures r == Loaded(State(), key)
      ensures r.Ok? <==> available
      ensures r.Ok? && key !in docs ==> r.value == map[]
    {
      if !available {
        return Err(StorageUnavailable);
      }
      r := Ok(if key in docs then docs[key] else map[]);
    }

    method SaveContext(key: string, doc: Document) returns (r: Result<()>)
      modifies this
      ensures State() == AfterSave(old(State()), key, doc)
      ensures r.Ok? <==> available
      ensures r.Err? ==> r.error == StorageUnavailable
    {
      if !available {
        return Err(StorageUnavailable);
      }
      docs := docs[key := doc];
      if enableNotifications {
        published := published + [key];
      }
      r := Ok(());
    }

    method PublishUpdate(channel: string) returns (r: Result<()>)
      modifies this
      ensures State() == AfterPublish(old(State()), channel)
      ensures r.Ok? <==> Signals(State())
      ensures r.Err? ==> r.error == StorageUnavailable
    {
      r := Ok(());
      if enableNotifications {
        if !available {
          return Err(StorageUnavailable);
        }
        published := published + [channel];
      }
    }

    method SubscribeToUpdates(channel: string, callback: Callback) returns (r: Result<()>)
      modifies this
      ensures State() == AfterSubscribe(old(State()), channel, callback)
      ensures r.Ok? <==> Signals(State())
      ensures r.Err? ==> r.error == StorageUnavailable
    {
      r := Ok(());
      if enableNotifications {
        if !available {
          return Err(StorageUnavailable);
        }
        subscriptions := subscriptions + [Subscription(channel, callback)];
      }
    }

    /** Set-if-absent: succeeds exactly when no live record exists for `key`. */
    method AcquireLock(key: string, token: string, ttl: int, now: int) returns (r: Result<bool>)
      modifies this
      ensures State() == AfterAcquire(old(State()), key, token, ttl, now)
      ensures r == if available then Ok(!Held(old(locks), key, now)) else Err(StorageUnavailable)
    {
      if !available {
        return Err(StorageUnavailable);
      }
      if key in locks && now < locks[key].expiresAt {
        r := Ok(false);
      } else {
        locks := locks[key := LockRecord(token, now + ttl)];
        r := Ok(true);
      }
    }

    /** Compare-and-delete: removes the record only when `token` owns it. */
    method ReleaseLock(key: string, token: string) returns (r: Result<()>)
      modifies this
      ensures State() == AfterRelease(old(State()), key, token)
      ensures r.Ok? <==> available
      ensures r.Err? ==> r.error == StorageUnavailable
    {
      if !available {
        return Err(StorageUnavailable);
      }
      if key in locks && locks[key].owner == token {
        locks := locks - {key};
      }
      r := Ok(());
    }
  }
}

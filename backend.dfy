/** The storage a context store is given: one backend, or an overlay of several.
    Each call is dispatched to the backend or to the overlay; the contracts give the new
    state of the primary, whose documents and locks are authoritative in both cases, and
    of every secondary. */
module Backend {
  import opened Protocol
  import opened Memory
  import opened Overlay

  datatype Storage = Direct(store: MemoryBackend) | Layered(overlay: OverlayBackend)
  {
    ghost predicate Valid() {
      Layered? ==> overlay.Valid()
    }

    /** The backend that answers reads and lock acquisition. */
    function Primary(): MemoryBackend {
      if Direct? then store else overlay.primary
    }

    function Repr(): set<object> {
      if Direct? then {store} else {overlay} + overlay.Backends()
    }

    /** Whether a save or a release can reach every backend it is sent to. */
    predicate AllAvailable() {
      if Direct? then store.available
      else overlay.primary.available && overlay.SecondariesAvailable()
    }

    /** The objects a call that touches only the primary may change. */
    function Front(): set<object> {
      if Direct? then {store} else {overlay, overlay.primary}
    }

    /** Whether a subscription or a publication reaches the primary's notification channel. */
    predicate Signalling() {
      if Direct? then store.enableNotifications
      else overlay.enableNotifications && overlay.primary.enableNotifications
    }

    /** Whether a publication or a subscription goes through: it does no I/O at all
        when notifications are off, and otherwise needs the primary. */
    predicate CanSignal() {
      !Signalling() || Primary().available
    }

    /** The objects a read may change: only the overlay's record of calls. */
    function Reader(): set<object> {
      if Layered? then {overlay} else {}
    }

    /** The secondaries of an overlay; none for a single backend. */
    function Mirrors(): seq<MemoryBackend> {
      if Direct? then [] else overlay.secondaries
    }

    /** The state of every secondary, in order. */
    function MirrorStates(): (states: seq<StoreState>)
      reads Mirrors()
    {
      seq(|Mirrors()|, j requires 0 <= j < |Mirrors()| reads Mirrors() => Mirrors()[j].State())
    }

    /** How many secondaries a save or a release reaches. */
    function Reach(): (n: nat)
      ensures n <= |Mirrors()|
    {
      if Direct? then 0 else overlay.Attempted()
    }

    /** The primary's state after a save of `doc` under `key`: the backend's own save,
        followed for an overlay by its publication once every backend took the write. */
    function AfterStore(before: StoreState, key: string, doc: Document): StoreState {
      if Layered? && AllAvailable() && overlay.enableNotifications
      then AfterPublish(AfterSave(before, key, doc), key)
      else AfterSave(before, key, doc)
    }

    /** The channels a save of `key` publishes on a reachable primary. */
    function Announced(key: string): seq<string> {
      (if Primary().enableNotifications then [key] else [])
      + (if Layered? && AllAvailable() && overlay.enableNotifications && Primary().enableNotifications
         then [key] else [])
    }
  }

  /** `states` after a save of `doc` under `key` reached the first `n` of them. */
  function SavedPrefix(states: seq<StoreState>, n: nat, key: string, doc: Document): seq<StoreState> {
    seq(|states|, j requires 0 <= j < |states| => if j < n then AfterSave(states[j], key, doc) else states[j])
  }

  /** `states` after a release of `key` by `token` reached the first `n` of them. */
  function ReleasedPrefix(states: seq<StoreState>, n: nat, key: string, token: string): seq<StoreState> {
    seq(|states|, j requires 0 <= j < |states| => if j < n then AfterRelease(states[j], key, token) else states[j])
  }

  /** A read consults the primary only and changes no backend. */
  method LoadContext(s: Storage, key: string) returns (r: Result<Document>)
    modifies s.Reader()
    ensures r == Loaded(s.Primary().State(), key)
  {
    match s {
      case Direct(store) => r := store.LoadContext(key);
      case Layered(overlay) => r := overlay.LoadContext(key);
    }
  }

  method SaveContext(s: Storage, key: string, doc: Document) returns (r: Result<()>)
    requires s.Valid()
    modifies s.Repr()
    ensures r.Ok? <==> s.AllAvailable()
    ensures r.Err? ==> r.error == StorageUnavailable
    ensures s.Primary().State() == s.AfterStore(old(s.Primary().State()), key, doc)
    ensures s.MirrorStates() == SavedPrefix(old(s.MirrorStates()), s.Reach(), key, doc)
    ensures s.Primary().docs == if s.Primary().available then old(s.Primary().docs)[key := doc]
                                else old(s.Primary().docs)
    ensures s.Primary().locks == old(s.Primary().locks)
  {
    match s {
      case Direct(store) => r := store.SaveContext(key, doc);
      case Layered(overlay) => r := overlay.SaveContext(key, doc);
    }
  }

  /** A publication reaches the primary only, and only when notifications are on. */
  method PublishUpdate(s: Storage, channel: string) returns (r: Result<()>)
    modifies s.Front()
    ensures r.Ok? <==> s.CanSignal()
    ensures r.Err? ==> r.error == StorageUnavailable
    ensures s.Primary().State() == if s.Signalling() then AfterPublish(old(s.Primary().State()), channel)
                                   else old(s.Primary().State())
  {
    match s {
      case Direct(store) => r := store.PublishUpdate(channel);
      case Layered(overlay) => r := overlay.PublishUpdate(channel);
    }
  }

  /** A subscription is registered on the primary only, and only when notifications are on. */
  method SubscribeToUpdates(s: Storage, channel: string, callback: Callback) returns (r: Result<()>)
    modifies s.Front()
    ensures r.Ok? <==> s.CanSignal()
    ensures r.Err? ==> r.error == StorageUnavailable
    ensures s.Primary().State() == if s.Signalling() then AfterSubscribe(old(s.Primary().State()), channel, callback)
                                   else old(s.Primary().State())
  {
    match s {
      case Direct(store) => r := store.SubscribeToUpdates(channel, callback);
      case Layered(overlay) => r := overlay.SubscribeToUpdates(channel, callback);
    }
  }

  /** Lock acquisition is set-if-absent on the primary; no other backend is touched. */
  method AcquireLock(s: Storage, key: string, token: string, ttl: int, now: int) returns (r: Result<bool>)
    requires s.Valid()
    modifies s.Front()
    ensures r == if s.Primary().available then Ok(!Held(old(s.Primary().locks), key, now))
                 else Err(StorageUnavailable)
    ensures s.Primary().State() == AfterAcquire(old(s.Primary().State()), key, token, ttl, now)
  {
    match s {
      case Direct(store) => r := store.AcquireLock(key, token, ttl, now);
      case Layered(overlay) => r := overlay.AcquireLock(key, token, ttl, now);
    }
  }

  method ReleaseLock(s: Storage, key: string, token: string) returns (r: Result<()>)
    requires s.Valid()
    modifies s.Repr()
    ensures r.Ok? <==> s.AllAvailable()
    ensures r.Err? ==> r.error == StorageUnavailable
    ensures s.Primary().State() == AfterRelease(old(s.Primary().State()), key, token)
    ensures s.MirrorStates() == ReleasedPrefix(old(s.MirrorStates()), s.Reach(), key, token)
  {
    match s {
      case Direct(store) => r := store.ReleaseLock(key, token);
      case Layered(overlay) => r := overlay.ReleaseLock(key, token);
    }
  }
}

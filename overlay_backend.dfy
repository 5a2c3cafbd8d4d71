/** A storage backend made of one primary and an ordered sequence of secondaries:
    reads, notifications and lock acquisition go to the primary only; saves and lock
    releases go to the primary first and then to every secondary in order. */
module Overlay {
  import opened Protocol
  import opened Memory

  /** Which underlying backend a delegated call went to. */
  datatype Target = Primary | Secondary(index: nat)

  datatype Routed = Routed(target: Target, op: Op)

  /** The two writes that are fanned out to the secondaries. */
  datatype Write = SaveDoc(key: string, doc: Document) | DropLock(key: string, token: string)

  function OpOf(w: Write): Op {
    match w
    case SaveDoc(k, d) => Save(k, d)
    case DropLock(k, t) => Release(k, t)
  }

  /** The state of one backend after it has received `w`. */
  function Applied(s: StoreState, w: Write): StoreState {
    match w
    case SaveDoc(k, d) => AfterSave(s, k, d)
    case DropLock(k, t) => AfterRelease(s, k, t)
  }

  /** Index of the first backend that is unreachable, or the length when all are reachable:
      the sequential fan-out stops with an error there. */
  function FirstUnavailable(up: seq<bool>): (i: nat)
    ensures i <= |up|
    ensures forall j :: 0 <= j < i ==> up[j]
    ensures i < |up| ==> !up[i]
  {
    if up == [] then 0
    else if !up[0] then 0
    else 1 + FirstUnavailable(up[1..])
  }

  /** The fan-out index is characterised by its two properties: every backend before it
      is reachable and it is either the end or unreachable. */
  lemma {:induction false} FirstUnavailableAt(up: seq<bool>, i: nat)
    requires i <= |up|
    requires forall j :: 0 <= j < i ==> up[j]
    requires i < |up| ==> !up[i]
    ensures FirstUnavailable(up) == i
  {
    if i > 0 {
      FirstUnavailableAt(up[1..], i - 1);
    }
  }

  /** The calls a fan-out of `w` issues to the first `n` secondaries, in order. */
  function Fanned(w: Write, n: nat): (r: seq<Routed>)
    ensures |r| == n
    ensures forall j :: 0 <= j < n ==> r[j] == Routed(Secondary(j), OpOf(w))
  {
    seq(n, j requires 0 <= j < n => Routed(Secondary(j), OpOf(w)))
  }

  lemma FannedStep(w: Write, n: nat)
    ensures Fanned(w, n + 1) == Fanned(w, n) + [Routed(Secondary(n), OpOf(w))]
  {
    assert Fanned(w, n + 1)[..n] == Fanned(w, n);
  }

  class OverlayBackend {
    const primary: MemoryBackend
    const secondaries: seq<MemoryBackend>
    const enableNotifications: bool
    /** Every call delegated so far, in order, with the backend it went to. */
    var calls: seq<Routed>

    /** The primary and the secondaries are distinct objects. */
    ghost predicate Valid() {
      primary !in secondaries &&
      forall i, j :: 0 <= i < |secondaries| && 0 <= j < |secondaries| && i != j ==> secondaries[i] != secondaries[j]
    }

    function Backends(): set<object> {
      {primary} + set b | b in secondaries
    }

    /** The reachability of each secondary, in order. */
    function Reachability(): (up: seq<bool>)
      ensures |up| == |secondaries|
      ensures forall j :: 0 <= j < |up| ==> up[j] == secondaries[j].available
    {
      seq(|secondaries|, j requires 0 <= j < |secondaries| => secondaries[j].available)
    }

    /** Whether a fan-out runs through every secondary. */
    predicate SecondariesAvailable() {
      FirstUnavailable(Reachability()) == |secondaries|
    }

    /** How many secondaries a fan-out calls: none when the primary fails, otherwise
        every one up to and including the first that fails. */
    function Attempted(): (n: nat)
      ensures n <= |secondaries|
      ensures primary.available && SecondariesAvailable() ==> n == |secondaries|
    {
      var stop := FirstUnavailable(Reachability());
      if !primary.available then 0
      else if stop < |secondaries| then stop + 1
      else stop
    }

    constructor (primary: MemoryBackend, secondaries: seq<MemoryBackend>, enableNotifications: bool := true)
      requires primary !in secondaries
      requires forall i, j :: 0 <= i < |secondaries| && 0 <= j < |secondaries| && i != j ==> secondaries[i] != secondaries[j]
      ensures Valid() && calls == []
      ensures this.primary == primary && this.secondaries == secondaries
      ensures this.enableNotifications == enableNotifications
    {
      this.primary, this.secondaries := primary, secondaries;
      this.enableNotifications := enableNotifications;
      calls := [];
    }

    /** Reads go to the primary only. */
    method LoadContext(key: string) returns (r: Result<Document>)
      modifies this
      ensures r == Loaded(primary.State(), key)
      ensures calls == old(calls) + [Routed(Primary, Load(key))]
    {
      r := primary.LoadContext(key);
      calls := calls + [Routed(Primary, Load(key))];
    }

    /** Writes the primary, then each secondary in order, stopping at the first failure;
        after a complete fan-out, publishes on the primary if notifications are on. */
    method SaveContext(key: string, doc: Document) returns (r: Result<()>)
      requires Valid()
      modifies this, primary, secondaries
      ensures r.Ok? <==> primary.available && SecondariesAvailable()
      ensures r.Err? ==> r.error == StorageUnavailable
      ensures primary.State() == if r.Ok? && enableNotifications
                                 then AfterPublish(AfterSave(old(primary.State()), key, doc), key)
                                 else AfterSave(old(primary.State()), key, doc)
      ensures forall j :: 0 <= j < Attempted() ==> secondaries[j].State() == AfterSave(old(secondaries[j].State()), key, doc)
      ensures forall j :: Attempted() <= j < |secondaries| ==> secondaries[j].State() == old(secondaries[j].State())
      ensures calls == old(calls) + [Routed(Primary, Save(key, doc))] + Fanned(SaveDoc(key, doc), Attempted())
                       + (if r.Ok? && enableNotifications then [Routed(Primary, Publish(key))] else [])
    {
      r := primary.SaveContext(key, doc);
      calls := calls + [Routed(Primary, Save(key, doc))];
      if r.Err? {
        return;
      }
      r := Replicate(SaveDoc(key, doc));
      if r.Ok? && enableNotifications {
        r := primary.PublishUpdate(key);
        calls := calls + [Routed(Primary, Publish(key))];
      }
    }

    /** Sends `w` to secondary `i` and records the call. */
    method Forward(i: nat, w: Write) returns (r: Result<()>)
      requires i < |secondaries|
      modifies this, secondaries[i]
      ensures secondaries[i].State() == Applied(old(secondaries[i].State()), w)
      ensures r.Ok? <==> secondaries[i].available
      ensures r.Err? ==> r.error == StorageUnavailable
      ensures calls == old(calls) + [Routed(Secondary(i), OpOf(w))]
    {
      match w {
        case SaveDoc(key, doc) =>
          r := secondaries[i].SaveContext(key, doc);
        case DropLock(key, token) =>
          r := secondaries[i].ReleaseLock(key, token);
      }
      calls := calls + [Routed(Secondary(i), OpOf(w))];
    }

    /** Forwards `w` to each secondary in order, stopping at the first that fails. */
    method Replicate(w: Write) returns (r: Result<()>)
      requires Valid() && primary.available
      modifies this, secondaries
      ensures r.Ok? <==> SecondariesAvailable()
      ensures r.Err? ==> r.error == StorageUnavailable
      ensures forall j :: 0 <= j < Attempted() ==> secondaries[j].State() == Applied(old(secondaries[j].State()), w)
      ensures forall j :: Attempted() <= j < |secondaries| ==> secondaries[j].State() == old(secondaries[j].State())
      ensures calls == old(calls) + Fanned(w, Attempted())
    {
      r := Ok(());
      var i := 0;
      while i < |secondaries|
        invariant 0 <= i <= |secondaries|
        invariant forall j :: 0 <= j < i ==> secondaries[j].available
        invariant forall j :: 0 <= j < i ==> secondaries[j].State() == Applied(old(secondaries[j].State()), w)
        invariant forall j :: i <= j < |secondaries| ==> secondaries[j].State() == old(secondaries[j].State())
        invariant calls == old(calls) + Fanned(w, i)
      {
        var ri := Forward(i, w);
        FannedStep(w, i);
        if ri.Err? {
          FirstUnavailableAt(Reachability(), i);
          return ri;
        }
        i := i + 1;
      }
      FirstUnavailableAt(Reachability(), i);
    }

    /** Publishes on the primary when notifications are on; otherwise does nothing. */
    method PublishUpdate(channel: string) returns (r: Result<()>)
      modifies this, primary
      ensures primary.State() == (if enableNotifications then AfterPublish(old(primary.State()), channel)
                                  else old(primary.State()))
      ensures calls == old(calls) + (if enableNotifications then [Routed(Primary, Publish(channel))] else [])
      ensures r.Ok? <==> !enableNotifications || Signals(primary.State())
      ensures r.Err? ==> r.error == StorageUnavailable
    {
      r := Ok(());
      if enableNotifications {
        r := primary.PublishUpdate(channel);
        calls := calls + [Routed(Primary, Publish(channel))];
      }
    }

    /** Subscribes on the primary when notifications are on; otherwise does nothing. */
    method SubscribeToUpdates(channel: string, callback: Callback) returns (r: Result<()>)
      modifies this, primary
      ensures primary.State() == (if enableNotifications then AfterSubscribe(old(primary.State()), channel, callback)
                                  else old(primary.State()))
      ensures calls == old(calls) + (if enableNotifications then [Routed(Primary, Subscribe(channel, callback))] else [])
      ensures r.Ok? <==> !enableNotifications || Signals(primary.State())
      ensures r.Err? ==> r.error == StorageUnavailable
    {
      r := Ok(());
      if enableNotifications {
        r := primary.SubscribeToUpdates(channel, callback);
        calls := calls + [Routed(Primary, Subscribe(channel, callback))];
      }
    }

    /** Locking is the primary's alone: its answer is returned and no secondary is touched. */
    method AcquireLock(key: string, token: string, ttl: int, now: int) returns (r: Result<bool>)
      requires Valid()
      modifies this, primary
      ensures primary.State() == AfterAcquire(old(primary.State()), key, token, ttl, now)
      ensures r == if primary.available then Ok(!Held(old(primary.locks), key, now)) else Err(StorageUnavailable)
      ensures forall j :: 0 <= j < |secondaries| ==> secondaries[j].State() == old(secondaries[j].State())
      ensures calls == old(calls) + [Routed(Primary, Acquire(key, token, ttl))]
    {
      r := primary.AcquireLock(key, token, ttl, now);
      calls := calls + [Routed(Primary, Acquire(key, token, ttl))];
    }

    /** Releases on the primary, then on each secondary in order, stopping at the first failure. */
    method ReleaseLock(key: string, token: string) returns (r: Result<()>)
      requires Valid()
      modifies this, primary, secondaries
      ensures r.Ok? <==> primary.available && SecondariesAvailable()
      ensures r.Err? ==> r.error == StorageUnavailable
      ensures primary.State() == AfterRelease(old(primary.State()), key, token)
      ensures forall j :: 0 <= j < Attempted() ==> secondaries[j].State() == AfterRelease(old(secondaries[j].State()), key, token)
      ensures forall j :: Attempted() <= j < |secondaries| ==> secondaries[j].State() == old(secondaries[j].State())
      ensures calls == old(calls) + [Routed(Primary, Release(key, token))] + Fanned(DropLock(key, token), Attempted())
    {
      r := primary.ReleaseLock(key, token);
      calls := calls + [Routed(Primary, Release(key, token))];
      if r.Err? {
        return;
      }
      r := Replicate(DropLock(key, token));
    }
  }
}

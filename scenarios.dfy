/** End-to-end runs of the model: an overlay that replicates a save, and two context
    stores contending for the same lock over one shared backend. */
module Scenarios {
  import opened Protocol
  import opened Memory
  import opened Overlay
  import opened Backend
  import opened Context

  /** A save through an overlay of one primary and one secondary is read back the same
      from the primary, from the secondary and through the overlay. */
  method OverlaySaveAndLoad() returns (fromPrimary: Result<Document>, fromSecondary: Result<Document>,
                                       throughOverlay: Result<Document>)
    ensures fromPrimary == Ok(map["key" := Text("value")])
    ensures fromSecondary == Ok(map["key" := Text("value")])
    ensures throughOverlay == Ok(map["key" := Text("value")])
  {
    var primary := new MemoryBackend(true, true);
    var secondary := new MemoryBackend(false, true);
    var overlay := new OverlayBackend(primary, [secondary]);
    var doc := map["key" := Text("value")];
    var saved := overlay.SaveContext("test_key", doc);
    assert overlay.Attempted() == 1;
    fromPrimary := primary.LoadContext("test_key");
    fromSecondary := secondary.LoadContext("test_key");
    throughOverlay := overlay.LoadContext("test_key");
  }

  /** A lock taken through an overlay is held by the primary alone; releasing it clears
      the record. */
  method OverlayAcquireAndRelease() returns (acquired: Result<bool>, heldAfterRelease: bool)
    ensures acquired == Ok(true)
    ensures !heldAfterRelease
  {
    var primary := new MemoryBackend(true, true);
    var secondary := new MemoryBackend(false, true);
    var overlay := new OverlayBackend(primary, [secondary]);
    acquired := overlay.AcquireLock("test_key", "test_value", 1000, 0);
    var released := overlay.ReleaseLock("test_key", "test_value");
    heldAfterRelease := "test_key" in primary.locks;
  }

  /** Two stores share one backend. While the first holds the lock the second's update
      fails after its whole retry budget; once the lock has expired the second's update
      goes through, and the first then reloads the updated document. */
  method Contention() returns (first: Result<bool>, blocked: Result<()>, later: Result<()>,
                               reloaded: Document)
    ensures first == Ok(true)
    ensures blocked == Err(LockNotAcquired(UpdateFailure))
    ensures later.Ok?
    ensures reloaded == map["k" := Text("v")]
  {
    var shared := new MemoryBackend(true, true);
    var a := new Contextd("ctx", Direct(shared), "a");
    var b := new Contextd("ctx", Direct(shared), "b");
    first := a.AcquireLock(0);
    FreeLockFirstAttempt(map[], a.lockKey, 0, DefaultRetryDelay, DefaultMaxRetries);
    LockedOut(map[], b.lockKey, "a", DefaultLockTimeout, 0, 1000, DefaultRetryDelay, DefaultMaxRetries);
    blocked := b.UpdateContext("k", Text("v"), 1000);
    FreeLockFirstAttempt(shared.locks, b.lockKey, DefaultLockTimeout, DefaultRetryDelay, DefaultMaxRetries);
    later := b.UpdateContext("k", Text("v"), DefaultLockTimeout);
    var loaded := a.LoadContext();
    reloaded := a.GetContext();
  }

  /** As written, an update applies to the instance's cached copy: two stores that loaded
      the same empty document and then update distinct fields one after the other, with
      notifications off, persist only the second field. */
  method LostUpdate() returns (persisted: Result<Document>)
    ensures persisted == Ok(map["y" := Number(2)])
  {
    var shared := new MemoryBackend(false, true);
    var a := new Contextd("ctx", Direct(shared), "a", false);
    var b := new Contextd("ctx", Direct(shared), "b", false);
    var ia := a.Initialize();
    var ib := b.Initialize();
    FreeLockFirstAttempt(shared.locks, a.lockKey, 0, DefaultRetryDelay, DefaultMaxRetries);
    var ra := a.UpdateContext("x", Number(1), 0);
    FreeLockFirstAttempt(shared.locks, b.lockKey, 0, DefaultRetryDelay, DefaultMaxRetries);
    var rb := b.UpdateContext("y", Number(2), 0);
    persisted := shared.LoadContext("ctx");
  }

  /** With the refreshing update, the same sequence persists both fields. */
  method NoLostUpdate() returns (persisted: Result<Document>)
    ensures persisted == Ok(map["x" := Number(1), "y" := Number(2)])
  {
    var shared := new MemoryBackend(false, true);
    var a := new Contextd("ctx", Direct(shared), "a", false);
    var b := new Contextd("ctx", Direct(shared), "b", false);
    var ia := a.Initialize();
    var ib := b.Initialize();
    FreeLockFirstAttempt(shared.locks, a.lockKey, 0, DefaultRetryDelay, DefaultMaxRetries);
    var ra := a.RefreshingUpdate("x", Number(1), 0);
    FreeLockFirstAttempt(shared.locks, b.lockKey, 0, DefaultRetryDelay, DefaultMaxRetries);
    var rb := b.RefreshingUpdate("y", Number(2), 0);
    persisted := shared.LoadContext("ctx");
  }
}

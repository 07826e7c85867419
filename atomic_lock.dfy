/** `scope_atomic_lock`: a try-lock guard over a shared `std::atomic_flag`. Memory ordering is
    not modelled: the flag is a plain boolean and each call runs to completion. */
module AtomicLock {

  /** `std::atomic_flag`. */
  class AtomicFlag {
    var flagged: bool

    /** `ATOMIC_FLAG_INIT`: clear. */
    constructor ()
      ensures !flagged
    {
      flagged := false;
    }

    /** `test_and_set()`: sets the flag and returns its previous value. */
    method TestAndSet() returns (was: bool)
      modifies this
      ensures was == old(flagged) && flagged
    {
      was := flagged;
      flagged := true;
    }

    /** `clear()`. */
    method Clear()
      modifies this
      ensures !flagged
    {
      flagged := false;
    }
  }

  class ScopeAtomicLock {
    var locked: bool
    const atomic: AtomicFlag

    /** A guard that holds the lock keeps the flag set. */
    ghost predicate Valid()
      reads this, atomic
    {
      locked ==> atomic.flagged
    }

    /** `scope_atomic_lock(atomic)`: starts unlocked and tries `lock()` once, so it holds the
        lock exactly when the flag was clear. */
    constructor (atomic: AtomicFlag)
      modifies atomic
      ensures this.atomic == atomic && Valid()
      ensures locked == !old(atomic.flagged) && atomic.flagged
    {
      this.atomic := atomic;
      locked := false;
      new;
      Lock();
    }

    /** `lock()`: when not yet holding, tries to take the flag; it acquires only if the flag was
        clear, and the flag is set afterwards either way. A guard that holds does nothing. */
    method Lock()
      requires Valid()
      modifies this, atomic
      ensures Valid() && atomic.flagged
      ensures old(locked) ==> locked
      ensures !old(locked) ==> locked == !old(atomic.flagged)
    {
      if !locked {
        var was := atomic.TestAndSet();
        locked := !was;
      }
    }

    /** `unlock()`: clears the flag only when this guard holds it; a guard that does not hold
        leaves a flag taken by another guard alone. */
    method Unlock()
      requires Valid()
      modifies this, atomic
      ensures Valid() && !locked
      ensures old(locked) ==> !atomic.flagged
      ensures !old(locked) ==> atomic.flagged == old(atomic.flagged)
    {
      if locked {
        atomic.Clear();
      }
      locked := false;
    }

    /** `locked()`: a guard that reports holding the lock has the flag set. */
    predicate Locked()
      reads this, atomic
      requires Valid()
      ensures Locked() ==> atomic.flagged
    {
      locked
    }

    /** `~scope_atomic_lock()`: `unlock()`. */
    method Destroy()
      requires Valid()
      modifies this, atomic
      ensures Valid() && !locked
      ensures old(locked) ==> !atomic.flagged
      ensures !old(locked) ==> atomic.flagged == old(atomic.flagged)
    {
      Unlock();
    }
  }
}

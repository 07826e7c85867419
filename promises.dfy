/** The outcome of a synchronous call and the one-shot promise a message may carry for it. A
    promise is an identity; fulfilling one (`set_value`) appends to a resolution log. */
module Promises {
  import opened Wrappers

  /** `sync_call_result`. */
  datatype SyncCallResult = Success | NotApplicable | Duplicate | Timeout

  type PromiseId = nat

  /** One `set_value(result)` on the promise `promise`. */
  datatype Resolution = Resolution(promise: PromiseId, result: SyncCallResult)

  /** The `set_value` calls made so far, in order. */
  class ResolutionLog {
    var entries: seq<Resolution>

    constructor ()
      ensures entries == []
    {
      entries := [];
    }

    /** `p->set_value(result)`. */
    method SetValue(promise: PromiseId, result: SyncCallResult)
      modifies this
      ensures entries == old(entries) + [Resolution(promise, result)]
    {
      entries := entries + [Resolution(promise, result)];
    }
  }

  /** `check_and_create_promise(need_promise)` on the current promise `p`: drops it when none
      is needed, keeps an existing one, and otherwise creates `created`. */
  function CheckAndCreatePromise(p: Option<PromiseId>, needPromise: bool, created: PromiseId): (r: Option<PromiseId>)
    ensures r.Some? <==> needPromise
    ensures needPromise && p.Some? ==> r == p
    ensures r.Some? && r != p ==> r == Some(created)
  {
    if !needPromise then None else if p.None? then Some(created) else p
  }

  /** Asking again for a promise that is needed keeps it: creation happens at most once. */
  lemma CheckAndCreateIdempotent(p: Option<PromiseId>, needPromise: bool, created1: PromiseId, created2: PromiseId)
    ensures var q := CheckAndCreatePromise(p, needPromise, created1);
      CheckAndCreatePromise(q, needPromise, created2) == q
  {
  }
}

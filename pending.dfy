/** The pending-message helpers `POP_FIRST_PENDING_MSG(_NOTIFY)` and
    `POP_ALL_PENDING_MSG(_NOTIFY)` over a queue of messages that may carry a promise
    (`obj_with_begin_time_promise`). The `_NOTIFY` forms fulfil the promise of every message
    they take out with NOT_APPLICABLE, so that no synchronous sender waits for it forever. */
module Pending {
  import opened Wrappers
  import opened Accounting
  import opened Buffers
  import opened Promises
  import opened MsgQueue

  /** `obj_with_begin_time_promise<T>`: a message body, the instant it was queued and an
      optional promise. */
  datatype PendingMsg = PendingMsg(body: Bytes, beginTime: int, promise: Option<PromiseId>)

  /** `item.size()`: the size of the body, which is what the pending queues count. */
  function MsgSize(m: PendingMsg): nat
  {
    |m.body|
  }

  /** A message after `clear()`: empty body, default instant, no promise. */
  const Cleared: PendingMsg := PendingMsg([], 0, None)

  /** The `set_value(NOT_APPLICABLE)` calls made for `xs`, front to back: one per message
      that carries a promise. */
  function Notified(xs: seq<PendingMsg>): seq<Resolution>
  {
    if xs == [] then []
    else (if xs[0].promise.Some? then [Resolution(xs[0].promise.value, NotApplicable)] else [])
         + Notified(xs[1..])
  }

  lemma {:induction false} NotifiedConcat(a: seq<PendingMsg>, b: seq<PendingMsg>)
    ensures Notified(a + b) == Notified(a) + Notified(b)
  {
    if a != [] {
      assert (a + b)[1..] == a[1..] + b;
      NotifiedConcat(a[1..], b);
    } else {
      assert a + b == b;
    }
  }

  /** Every message that carries a promise has it fulfilled with NOT_APPLICABLE. */
  lemma {:induction false} NotifiedComplete(xs: seq<PendingMsg>, i: nat)
    requires i < |xs| && xs[i].promise.Some?
    ensures Resolution(xs[i].promise.value, NotApplicable) in Notified(xs)
  {
    if i > 0 {
      NotifiedComplete(xs[1..], i - 1);
    }
  }

  /** Nothing else is fulfilled: each resolution is NOT_APPLICABLE for the promise of one of
      the messages. */
  lemma {:induction false} NotifiedSound(xs: seq<PendingMsg>, k: nat)
    requires k < |Notified(xs)|
    ensures Notified(xs)[k].result == NotApplicable
    ensures exists i :: 0 <= i < |xs| && xs[i].promise == Some(Notified(xs)[k].promise)
  {
    var head := if xs[0].promise.Some? then [Resolution(xs[0].promise.value, NotApplicable)] else [];
    if k >= |head| {
      NotifiedSound(xs[1..], k - |head|);
      var i :| 0 <= i < |xs[1..]| && xs[1..][i].promise == Some(Notified(xs[1..])[k - |head|].promise);
      assert xs[i + 1].promise == Some(Notified(xs)[k].promise);
    } else {
      assert xs[0].promise == Some(Notified(xs)[k].promise);
    }
  }

  /** Messages whose promises are pairwise different. */
  ghost predicate DistinctPromises(xs: seq<PendingMsg>)
  {
    forall i, j :: 0 <= i < j < |xs| && xs[i].promise.Some? ==> xs[i].promise != xs[j].promise
  }

  /** When no two messages share a promise, no promise is fulfilled twice (a second
      `set_value` on one promise would throw). */
  lemma {:induction false} NotifiedOnce(xs: seq<PendingMsg>)
    requires DistinctPromises(xs)
    ensures forall k, l :: 0 <= k < l < |Notified(xs)| ==> Notified(xs)[k].promise != Notified(xs)[l].promise
  {
    if xs != [] {
      var tail := xs[1..];
      assert DistinctPromises(tail) by {
        forall i, j | 0 <= i < j < |tail| && tail[i].promise.Some?
          ensures tail[i].promise != tail[j].promise
        {
          assert tail[i] == xs[i + 1] && tail[j] == xs[j + 1];
        }
      }
      NotifiedOnce(tail);
      if xs[0].promise.Some? {
        forall l | 0 < l < |Notified(xs)|
          ensures Notified(xs)[0].promise != Notified(xs)[l].promise
        {
          NotifiedSound(tail, l - 1);
          var i :| 0 <= i < |tail| && tail[i].promise == Some(Notified(tail)[l - 1].promise);
          assert xs[i + 1] == tail[i];
        }
      }
    }
  }

  /** `POP_FIRST_PENDING_MSG(msg)`: `msg.clear()`, then `try_dequeue(msg)`. */
  method PopFirstPendingMsg(q: Queue<PendingMsg>) returns (msg: PendingMsg)
    requires q.Valid() && !q.held && q.sizeOf == MsgSize
    modifies q
    ensures q.Valid() && !q.held
    ensures old(q.items) == [] ==> msg == Cleared && q.items == [] && q.buffSize == old(q.buffSize)
    ensures old(q.items) != [] ==>
      msg == old(q.items)[0] && q.items == old(q.items)[1..] && q.buffSize == old(q.buffSize) - MsgSize(msg)
  {
    var ok;
    ok, msg := q.TryDequeue(Cleared);
  }

  /** `POP_FIRST_PENDING_MSG_NOTIFY(msg)`: as `POP_FIRST_PENDING_MSG`, and a dequeued message
      that carries a promise has it fulfilled with NOT_APPLICABLE. */
  method PopFirstPendingMsgNotify(q: Queue<PendingMsg>, log: ResolutionLog) returns (msg: PendingMsg)
    requires q.Valid() && !q.held && q.sizeOf == MsgSize
    modifies q, log
    ensures q.Valid() && !q.held
    ensures old(q.items) == [] ==>
      msg == Cleared && q.items == [] && q.buffSize == old(q.buffSize) && log.entries == old(log.entries)
    ensures old(q.items) != [] ==>
      msg == old(q.items)[0] && q.items == old(q.items)[1..] && q.buffSize == old(q.buffSize) - MsgSize(msg)
    ensures old(q.items) != [] ==> log.entries == old(log.entries) + Notified([msg])
  {
    var ok;
    ok, msg := q.TryDequeue(Cleared);
    if ok && msg.promise.Some? {
      log.SetValue(msg.promise.value, NotApplicable);
    }
    assert Notified([msg]) == (if msg.promise.Some? then [Resolution(msg.promise.value, NotApplicable)] else []) + Notified([]);
  }

  /** `POP_ALL_PENDING_MSG(can)`: `can.clear()`, then `swap(can)`: `can` takes every queued
      message in order and the queue is left empty with zero bytes. */
  method PopAllPendingMsg(q: Queue<PendingMsg>, can: Container<PendingMsg>)
    requires q.Valid() && !q.held && q.sizeOf == MsgSize
    modifies q, can
    ensures q.Valid() && !q.held
    ensures can.elems == old(q.items) && q.items == [] && q.buffSize == 0
  {
    can.elems := [];
    q.Swap(can);
  }

  /** `POP_ALL_PENDING_MSG_NOTIFY(can)`: as `POP_ALL_PENDING_MSG`, then every message now in
      `can` that carries a promise has it fulfilled with NOT_APPLICABLE, front to back. */
  method PopAllPendingMsgNotify(q: Queue<PendingMsg>, can: Container<PendingMsg>, log: ResolutionLog)
    requires q.Valid() && !q.held && q.sizeOf == MsgSize
    modifies q, can, log
    ensures q.Valid() && !q.held
    ensures can.elems == old(q.items) && q.items == [] && q.buffSize == 0
    ensures log.entries == old(log.entries) + Notified(old(q.items))
  {
    can.elems := [];
    q.Swap(can);
    var i := 0;
    while i < |can.elems|
      invariant q.Valid() && !q.held && q.items == [] && q.buffSize == 0
      invariant can.elems == old(q.items) && i <= |can.elems|
      invariant log.entries == old(log.entries) + Notified(can.elems[..i])
    {
      var msg := can.elems[i];
      NotifiedConcat(can.elems[..i], [msg]);
      assert can.elems[..i + 1] == can.elems[..i] + [msg];
      assert Notified([msg]) == (if msg.promise.Some? then [Resolution(msg.promise.value, NotApplicable)] else []) + Notified([]);
      if msg.promise.Some? {
        log.SetValue(msg.promise.value, NotApplicable);
      }
      i := i + 1;
    }
    assert can.elems[..i] == can.elems;
  }
}

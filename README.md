# ascs message queue and base utilities, in Dafny

This project models the sequential core of ascs, an asynchronous socket library built on
asio. It covers:

- The byte-accounted FIFO `queue<Container, Lockable>` (`include/ascs/container.h`) that
  every TCP and UDP endpoint uses for its send and receive buffers. It is a sequence of
  messages plus a running byte count `buff_size`. The invariant proved throughout is that
  `buff_size` equals the byte sum of the queued messages. It holds after enqueue, splice in,
  dequeue, the two bounded move-out operations, swap and clear.
- From `include/ascs/base.h`, the helpers the send and receive paths rely on:
  - `get_size_in_byte`.
  - The O(1)-size `list` replacement with its element counter.
  - `auto_buffer` and `shared_buffer`.
  - `statistic` and `auto_duration`.
  - `scope_atomic_lock`.
  - `sync_call_result` and the promise handling of `obj_with_begin_time_promise`.
  - The `POP_*_PENDING_MSG(_NOTIFY)` macros.
  - The admission, packing and retry decisions of the TCP and UDP send macros.

Modules, one per file:

- `Wrappers` (wrappers.dfy): the `Option` type. A null pointer or an absent promise is
  `None`.
- `Accounting` (accounting.dfy): byte sums of containers, `get_size_in_byte`, and the
  `(size_t) -1` sentinel.
- `MsgQueue` (queue.dfy): the queue class, its lock policies, and the item-count and
  byte-budget rules of the move-out operations.
- `CountedList` (list.dfy): the `list` wrapper.
- `Buffers` (buffers.dfy): `auto_buffer` and `shared_buffer`. A missing object (`nullptr`) is
  `None`.
- `Stats` (statistic.dfy): `statistic` and `auto_duration`. Instants and durations are
  integers supplied by the caller.
- `AtomicLock` (atomic_lock.dfy): `scope_atomic_lock` over a flag object.
- `Promises` (promises.dfy): `sync_call_result`, promise creation, and a log of
  `set_value` calls.
- `Pending` (pending.dfy): the pending-message macros.
- `Sending` (sending.dfy): the send macros. The endpoint's collaborators are an `Oracle`:
  - `is_send_buffer_available`;
  - the packer's result;
  - `do_direct_(sync_)send_msg`;
  - `is_ready`.

  A non-retrying send is a function. It returns its result and the ordered list of
  collaborator calls it made. A safe send is a loop over a script of per-attempt oracles.

## Model

| member | source | states |
|---|---|---|
| Accounting.SumConcat | include/ascs/container.h:115-122 | the byte sum of two containers spliced together is the sum of their byte sums, which is why `buff_size += size_in_byte` keeps the accounting exact |
| Accounting.SumSplit | include/ascs/container.h:139-143 | cutting a container at any position splits its byte sum between the moved prefix and the remainder |
| Accounting.GetSizeInByte | include/ascs/base.h:555-561 | the loop's accumulated total is the byte sum of the whole container |
| MsgQueue.LockPolicy.IsLockable | include/ascs/container.h:21-44 | only `lockable` reports being lockable; `dummy_lockable` does not |
| MsgQueue.Queue.IsThreadSafe | include/ascs/container.h:76 | the queue is thread safe exactly when its lock policy is `lockable` |
| MsgQueue.Queue.Size | include/ascs/container.h:69 | `size()` is the number of queued items |
| MsgQueue.Queue.Empty | include/ascs/container.h:70 | `empty()` holds exactly when the size is zero |
| MsgQueue.Queue.Unlock | include/ascs/container.h:29-40 | releasing the lock leaves it not held under either policy |
| MsgQueue.Queue.SpliceOut | include/ascs/container.h:139-143 | the first k items move in order to the back of `dest` (`splice_after` when k reaches the end, `splice_after_until` otherwise), the rest stay, and their byte sum leaves the count |
| MsgQueue.Queue.constructor | include/ascs/container.h:72 | a new queue is empty with zero bytes and satisfies the accounting invariant |
| MsgQueue.Queue.SizeInByte | include/ascs/container.h:77 | `size_in_byte()` is the byte sum of the queued items |
| MsgQueue.Queue.Lock | include/ascs/container.h:39 | taking the lock holds a mutex only under the `lockable` policy |
| MsgQueue.Queue.Clear | include/ascs/container.h:78 | the queue is left empty with zero bytes and the invariant holds |
| MsgQueue.Queue.Swap | include/ascs/container.h:79-86 | the queue and the container exchange contents, and the new byte count is the byte sum of what the queue received |
| MsgQueue.Queue.EnqueueUnlocked | include/ascs/container.h:98-113 | on success the item is appended and its size added; when the container cannot hold it, the result is false and nothing changes |
| MsgQueue.Queue.Enqueue | include/ascs/container.h:88 | the same as `enqueue_`, with the lock released afterwards |
| MsgQueue.Queue.MoveItemsInUnlocked | include/ascs/container.h:115-122 | all of `src` is appended in order and `src` is emptied; a zero size hint is recomputed, so the byte count grows by exactly `src`'s byte sum |
| MsgQueue.Queue.MoveItemsIn | include/ascs/container.h:89 | the same as `move_items_in_`, under the lock |
| MsgQueue.Queue.TryDequeueUnlocked | include/ascs/container.h:124 | it succeeds exactly when the queue is non-empty; the front item comes out and its size leaves the count; an empty queue and the caller's item are untouched |
| MsgQueue.Queue.TryDequeue | include/ascs/container.h:90 | the same as `try_dequeue_`, under the lock |
| MsgQueue.CountCut | include/ascs/container.h:126-145 | the number of items moved is all of them for the `(size_t) -1` sentinel, and otherwise min(max_item_num, size) (zero moves nothing) |
| MsgQueue.Queue.MoveItemsOutUnlocked | include/ascs/container.h:126-145 | the first `CountCut` items move in order to the back of `dest`, the rest stay, and their byte sum leaves the count |
| MsgQueue.Queue.MoveItemsOut | include/ascs/container.h:91 | the same as the count-bounded `move_items_out_`, under the lock |
| MsgQueue.ByteCut | include/ascs/container.h:147-166 | the number of items moved under a byte budget is at most the queue length and at least one when the queue is non-empty |
| MsgQueue.ByteCutIsByteCut | include/ascs/container.h:156-158 | the computed count is the shortest non-empty prefix whose byte sum reaches the budget, crossing item included, or everything when no prefix does |
| MsgQueue.ByteCutMinimal | include/ascs/container.h:156-158 | two counts that both satisfy the byte-budget rule cannot differ in either direction |
| MsgQueue.ByteCutCharacterised | include/ascs/container.h:147-166 | a count satisfies the byte-budget rule if and only if it is the one `ByteCut` computes |
| MsgQueue.ByteCutZero | include/ascs/container.h:158 | a zero budget still moves the front item, because the visitor adds the size before testing it |
| MsgQueue.ByteCutReaches | include/ascs/container.h:156-163 | a positive budget no larger than the queue's bytes is reached: the moved prefix holds at least the budget, and without its last item it holds less |
| MsgQueue.Queue.MoveItemsOutBytesUnlocked | include/ascs/container.h:147-166 | the first `ByteCut` items, or all of them for the sentinel, move in order to `dest`, and their byte sum leaves the count |
| MsgQueue.Queue.MoveItemsOutBytes | include/ascs/container.h:92 | the same as the byte-bounded `move_items_out_`, under the lock |
| MsgQueue.Queue.DoSomethingToAllUnlocked | include/ascs/container.h:168-171 | the visitor sees every item front to back; its final state is the fold over all items |
| MsgQueue.Queue.DoSomethingToAll | include/ascs/container.h:93 | the same as `do_something_to_all_`, under the lock |
| MsgQueue.Queue.DoSomethingToOneUnlocked | include/ascs/container.h:173-176 | the visitor sees items front to back and stops right after the first item where it answers true, or after the last item; it never stops earlier |
| MsgQueue.Queue.DoSomethingToOne | include/ascs/container.h:94 | the same as `do_something_to_one_`, under the lock |
| CountedList.List.constructor | include/ascs/base.h:193 | a new list is empty with counter zero |
| CountedList.List.WithSize | include/ascs/base.h:194 | `list(n)` holds n default elements and its counter is n |
| CountedList.List.FromMove | include/ascs/base.h:195 | the new list takes the other's elements and counter, and the other is left empty |
| CountedList.List.MoveAssign | include/ascs/base.h:197 | move assignment takes the other's elements and empties it; moving a list into itself leaves it empty |
| CountedList.List.Swap | include/ascs/base.h:198 | elements and counters are exchanged and both counters stay exact |
| CountedList.List.Empty | include/ascs/base.h:200 | testing the counter for zero is the same as testing for no elements |
| CountedList.List.Size | include/ascs/base.h:201 | the cached counter is the element count |
| CountedList.List.Resize | include/ascs/base.h:202-218 | growing appends default elements and shrinking keeps the prefix; either way the counter the loop maintains is the new length |
| CountedList.List.Clear | include/ascs/base.h:219 | the list and its counter become empty and zero |
| CountedList.List.Erase | include/ascs/base.h:220 | the element at the position is removed and the counter drops by one; the position of the next element is returned |
| CountedList.List.PushFront | include/ascs/base.h:222-225 | the element is prepended and the counter stays exact |
| CountedList.List.PopFront | include/ascs/base.h:226 | the front element is removed and the counter stays exact |
| CountedList.List.PushBack | include/ascs/base.h:234-237 | the element is appended and the counter stays exact |
| CountedList.List.PopBack | include/ascs/base.h:238 | the last element is removed and the counter stays exact |
| CountedList.List.Front | include/ascs/base.h:227-230 | `front()` is the first element of a non-empty list |
| CountedList.List.Back | include/ascs/base.h:239-242 | `back()` is the last element of a non-empty list |
| CountedList.List.SpliceAllFromStd | include/ascs/base.h:246 | all of a plain list is inserted at the position and counted in; the plain list is emptied |
| CountedList.List.SpliceOneFromStd | include/ascs/base.h:247 | one element moves from a plain list to the position; the counter grows by one |
| CountedList.List.SpliceRangeFromStd | include/ascs/base.h:248-255 | a range moves from a plain list to the position; the counter grows by its distance |
| CountedList.List.SpliceAll | include/ascs/base.h:257 | all of another counted list moves here; this counter gains what the other had and the other's counter becomes zero |
| CountedList.List.SpliceOne | include/ascs/base.h:258 | one element moves between counted lists; the counters change by plus and minus one and both stay exact |
| CountedList.List.SpliceRange | include/ascs/base.h:259-267 | a range moves between counted lists; its distance is added to one counter and taken from the other, and both stay exact |
| Buffers.HolderSize | include/ascs/base.h:119-120 | a missing object has size zero, and size zero means the holder is empty |
| Buffers.HolderData | include/ascs/base.h:121 | there is no data pointer exactly when there is no object; otherwise it covers `size()` bytes |
| Buffers.AutoBuffer.constructor | include/ascs/base.h:108 | a default `auto_buffer` holds nothing |
| Buffers.AutoBuffer.Own | include/ascs/base.h:109 | the buffer takes ownership of the given object |
| Buffers.AutoBuffer.FromMove | include/ascs/base.h:110 | the new buffer takes the object and the source is left holding nothing |
| Buffers.AutoBuffer.MoveAssign | include/ascs/base.h:113 | move assignment takes the other's object and leaves the other holding nothing; self-assignment frees the object |
| Buffers.AutoBuffer.RawBuffer | include/ascs/base.h:115 | the raw object is absent exactly when `data()` is null, and its size is `size()` |
| Buffers.AutoBuffer.SetRawBuffer | include/ascs/base.h:116 | `raw_buffer(p)` installs the given object |
| Buffers.AutoBuffer.Empty | include/ascs/base.h:119 | a buffer without an object is empty |
| Buffers.AutoBuffer.Size | include/ascs/base.h:120 | no object means size zero, and size zero means empty |
| Buffers.AutoBuffer.Data | include/ascs/base.h:121 | the data pointer is null exactly when there is no object |
| Buffers.AutoBuffer.Swap | include/ascs/base.h:122 | the two buffers exchange their objects |
| Buffers.AutoBuffer.Clear | include/ascs/base.h:123 | the object is released and the buffer holds nothing |
| Buffers.SharedBuffer.constructor | include/ascs/base.h:138 | a default `shared_buffer` holds nothing |
| Buffers.SharedBuffer.Own | include/ascs/base.h:139-140 | the buffer takes the given object |
| Buffers.SharedBuffer.Copy | include/ascs/base.h:132-160 | a copy shares the same object |
| Buffers.SharedBuffer.RawBuffer | include/ascs/base.h:147 | the raw object is absent exactly when `data()` is null, and its size is `size()` |
| Buffers.SharedBuffer.SetRawBuffer | include/ascs/base.h:148-149 | `raw_buffer(p)` installs the given object |
| Buffers.SharedBuffer.Empty | include/ascs/base.h:152 | a buffer without an object is empty |
| Buffers.SharedBuffer.Size | include/ascs/base.h:153 | no object means size zero, and size zero means empty |
| Buffers.SharedBuffer.Data | include/ascs/base.h:154 | the data pointer is null exactly when there is no object |
| Buffers.SharedBuffer.Swap | include/ascs/base.h:155 | the two buffers exchange their objects |
| Buffers.SharedBuffer.Clear | include/ascs/base.h:156 | the buffer drops its object |
| Stats.Figures.AddDuration | include/ascs/base.h:483 | adding to one duration changes that duration by the amount and nothing else |
| Stats.ResetNumbers | include/ascs/base.h:384-397 | the four counters and the four instants become zero; the durations are kept |
| Stats.Plus | include/ascs/base.h:413-429 | counters and durations add field by field; the four instants are those of the left operand |
| Stats.PlusAssociative | include/ascs/base.h:413-429 | accumulating statistics is associative |
| Stats.PlusZero | include/ascs/base.h:413-429 | adding a statistic with all counters and durations zero changes nothing |
| Stats.Statistic.constructor | include/ascs/base.h:382 | a new statistic has all counters, instants and durations zero |
| Stats.Statistic.ResetNumber | include/ascs/base.h:384-397 | `reset_number()` zeroes the counters and instants and leaves the durations |
| Stats.Statistic.ResetDuration | include/ascs/base.h:401-408 | `reset_duration()` zeroes the seven durations and leaves the counters and instants |
| Stats.Statistic.Reset | include/ascs/base.h:400-410 | everything becomes zero, in both the full and the reduced build |
| Stats.Statistic.AddAssign | include/ascs/base.h:413-429 | `+=` makes this statistic the `Plus` of the two old values, so the instants are unchanged |
| Stats.Statistic.AddToDuration | include/ascs/base.h:483 | one duration grows by the amount in the full build; in the reduced build nothing changes |
| Stats.AutoDuration.constructor | include/ascs/base.h:480 | a new guard is started and records the current instant |
| Stats.AutoDuration.End | include/ascs/base.h:483 | the elapsed time is added once, only if the guard was still started; afterwards it is stopped |
| Stats.AutoDuration.Destroy | include/ascs/base.h:481 | the destructor ends the guard, so a duration is never added twice |
| AtomicLock.AtomicFlag.TestAndSet | include/ascs/base.h:56 | `test_and_set` returns the old flag and leaves it set |
| AtomicLock.AtomicFlag.Clear | include/ascs/base.h:57 | `clear` leaves the flag clear |
| AtomicLock.ScopeAtomicLock.constructor | include/ascs/base.h:53 | the guard tries to lock at once; it holds the lock exactly when the flag was clear, and the flag is set afterwards |
| AtomicLock.ScopeAtomicLock.Lock | include/ascs/base.h:56 | holding the lock is kept; otherwise the lock is acquired exactly when the flag was clear; the flag ends up set either way |
| AtomicLock.ScopeAtomicLock.Unlock | include/ascs/base.h:57 | the flag is cleared only when this guard held it; the guard holds nothing afterwards, so a second unlock is a no-op |
| AtomicLock.ScopeAtomicLock.Locked | include/ascs/base.h:58 | a guard that reports holding the lock has the shared flag set |
| AtomicLock.ScopeAtomicLock.Destroy | include/ascs/base.h:54 | the destructor unlocks |
| Promises.ResolutionLog.SetValue | include/ascs/base.h:594-598 | a `set_value` appends one resolution to the log |
| Promises.CheckAndCreatePromise | include/ascs/base.h:532 | a promise is present exactly when one is needed; an existing one is kept, and only a missing one is created |
| Promises.CheckAndCreateIdempotent | include/ascs/base.h:532 | asking again with the same need changes nothing, so a promise is created at most once |
| Pending.NotifiedConcat | include/ascs/base.h:597-598 | the resolutions for a concatenation are those of each part, in order |
| Pending.NotifiedComplete | include/ascs/base.h:597-598 | every message that carries a promise gets it resolved with NOT_APPLICABLE |
| Pending.NotifiedSound | include/ascs/base.h:597-598 | every resolution is NOT_APPLICABLE for the promise of one of the messages |
| Pending.NotifiedOnce | include/ascs/base.h:597-598 | when no two messages share a promise, no promise is resolved twice |
| Pending.PopFirstPendingMsg | include/ascs/base.h:593 | `msg` is cleared and then receives the front message, if any, which leaves the queue with its bytes; an empty queue leaves `msg` cleared |
| Pending.PopFirstPendingMsgNotify | include/ascs/base.h:594-595 | the same as `POP_FIRST_PENDING_MSG`; in addition a dequeued message's promise, if present, is resolved with NOT_APPLICABLE, and nothing is resolved otherwise |
| Pending.PopAllPendingMsg | include/ascs/base.h:596 | `can` receives every queued message in order and the queue is left empty with zero bytes |
| Pending.PopAllPendingMsgNotify | include/ascs/base.h:597-598 | the same as `POP_ALL_PENDING_MSG`; in addition the log gains exactly the NOT_APPLICABLE resolutions of the moved messages' promises, front to back |
| Sending.TcpSend | include/ascs/base.h:602-656 | a send makes no collaborator calls exactly when it is refused; it reports true only after calling `do_direct_send_msg` |
| Sending.TcpSyncSend | include/ascs/base.h:681-736 | a sync send makes no calls exactly when refused; its result is NOT_APPLICABLE or the direct sync send's result, except for the native two-message form |
| Sending.UdpSend | include/ascs/base.h:760-776 | a UDP send makes no calls exactly when refused, and it reports true exactly when it is admitted and the direct send succeeds |
| Sending.UdpSyncSend | include/ascs/base.h:791-810 | a UDP sync send makes no calls exactly when refused; its result is the direct sync send's result when admitted and NOT_APPLICABLE otherwise |
| Sending.RefusedSendCallsNothing | include/ascs/base.h:609-610 | without overflow permission and with a full send buffer, every TCP and UDP form, sync or not, returns false or NOT_APPLICABLE and calls neither the packer nor a direct send |
| Sending.NativeTwoMsgsSucceeds | include/ascs/base.h:619-628 | an admitted native two-message send reports true or SUCCESS whatever the direct sends answer |
| Sending.PackFailureFails | include/ascs/base.h:629-646 | a non-native two-message or container send whose packing fails reports false or NOT_APPLICABLE and sends nothing |
| Sending.OneMsgFallsBackToFragments | include/ascs/base.h:602-617 | a non-native one-message send whose packing fails is sent again as one fragment through the fragment overload |
| Sending.SuccessIsTheDirectSend | include/ascs/base.h:606-655 | except for the native two-message form, true means the last call was a direct send that succeeded |
| Sending.PackerCalls | include/ascs/base.h:606-656 | a send calls the packer at most twice, and twice exactly when a non-native one-message send's packing fails and the fragment fallback packs again; native sends other than the fragment form never pack; the sync macros pack exactly as often as the asynchronous ones |
| Sending.SyncMirrorsAsync | include/ascs/base.h:686-735 | when the direct sync send succeeds exactly when the direct send does, the sync macros make the same decisions and the same calls as the asynchronous ones |
| Sending.RetryUntilSent | include/ascs/base.h:586-590 | attempts continue while an attempt fails and the endpoint is ready; the result is true exactly when the last attempt succeeded, and false exactly when it failed with the endpoint not ready; 50 ms pass between attempts |
| Sending.RetryUntilSuccess | include/ascs/base.h:586-590 | any result other than SUCCESS, TIMEOUT and DUPLICATE included, leads to a retry while the endpoint is ready; the result is SUCCESS or NOT_APPLICABLE accordingly |
| Sending.TcpSafeSend | include/ascs/base.h:660-669 | a TCP safe send returns true only right after an attempt returned true, and false exactly when an attempt failed while the endpoint was not ready |
| Sending.TcpSyncSafeSend | include/ascs/base.h:740-753 | a TCP sync safe send returns SUCCESS only right after an attempt returned SUCCESS, and NOT_APPLICABLE exactly when an attempt failed while the endpoint was not ready |
| Sending.UdpSafeSend | include/ascs/base.h:780-784 | the UDP safe send follows the same rule as the TCP one, over `UdpSend` |
| Sending.UdpSyncSafeSend | include/ascs/base.h:814-820 | the UDP sync safe send follows the same rule as the TCP one, over `UdpSyncSend` |
| Sending.TcpBroadcast | include/ascs/base.h:671-674 | every client of the pool gets the fragment send, in pool order; a client whose send buffer is full and that may not overflow gets no calls |

## Left out

- Logging (`unified_out`, `log_formater`) and `statistic::to_string`: formatting and console
  output only. The error message in `enqueue_`'s exception handler is not modelled.
- `i_matrix`, `tcp::i_server`, `tracked_executor` and `service_pump`: interfaces to the
  object pool and the event loop, which are not part of this model.
- The concrete packers and unpackers. The packer is represented only by its result in the
  `Oracle`. No framing is modelled.
- `do_direct_send_msg`, `do_direct_sync_send_msg`, `is_send_buffer_available` and `is_ready`:
  not part of this model, represented by oracle answers. Within one call, each query
  answers the same way. This includes the fragment fallback of the one-message send, which
  asks `is_send_buffer_available` a second time.
- The pack-time measurement around each `pack_msg` call (`auto_duration` on
  `pack_time_sum`): `auto_duration` itself is modelled in `Stats`, but the send functions
  do not carry a statistic.
- The sleep in `SAFE_SEND_MSG_CHECK`: only the total pause (50 ms per retry) is counted.
  Blocking on promises and futures, and time-outs, are not modelled.
- RetryUntilSent: models only runs that stop. A precondition demands that the script of
  attempt outcomes reaches a success or a not-ready endpoint. A safe send that retries
  forever is not modelled.
- RetryUntilSuccess: models only runs that stop, for the same reason.
- Sending.TcpSafeSend: carries the same stop-point precondition over `TcpSend`; a TCP safe
  send that retries forever is not modelled.
- Sending.TcpSyncSafeSend: the same stop-point precondition over `TcpSyncSend`.
- Sending.UdpSafeSend: the same stop-point precondition over `UdpSend`.
- Sending.UdpSyncSafeSend: the same stop-point precondition over `UdpSyncSend`.
- Sending.TcpBroadcast: models only a non-safe `SEND_FUNNAME`, the fragment send of
  `TcpSend`. A broadcast built on a safe send retries each full client instead of skipping
  it, and that instance is not modelled.
- The mutex of `lockable` and the memory ordering of `std::atomic_flag`: these are
  concurrency concerns only. The lock is a ghost flag, and the atomic flag is a plain
  boolean in an object shared by the guards.
- The mutating overloads of `do_something_to_all_` and `do_something_to_one_`: only the
  read-only visitors are modelled. They carry the visitor's state explicitly. In the
  queue's own code, every visitor (in `move_items_out_` and `get_size_in_byte`) is
  read-only.
- `queue(size_t capacity)`: the capacity is a property of the underlying container, which
  has no capacity in this model. The queue starts empty, as the default constructor does.
- The forwarding overloads of the send macros: `TCP_SEND_MSG_CALL_SWITCH` and the UDP ones
  forward `(pstr, len)` and `Buffer` arguments to the fragment form, and the UDP forms
  without a peer use the endpoint's own `peer_addr`. They are covered through `Form` and
  the `peer` argument, not as separate members.
- `list::begin`, `end` and the reverse iterators: iterators are positions in the sequence,
  and there is no separate iterator member.
- Splicing a counted list into itself: the source's `splice` overloads that take another
  `list` are modelled only for two different lists. A self-splice leaves `std::list`'s
  element order to the standard library's rules.
- Default arguments: `move_items_in`'s `size_in_byte = 0` and `move_items_out`'s
  `max_item_num = -1` are Dafny default parameters. The send macros' defaults
  (`can_overflow = false`, `duration = 0`) are not: every send function takes these arguments
  explicitly.
- `obj_with_begin_time`'s constructors, assignments and `restart`: the pending-message
  macros use only `clear()` and, through `try_dequeue_`,
  `swap(obj_with_begin_time_promise&)`. That swap exchanges the body, `begin_time` and the
  promise. A cleared message is `Cleared`, and the swap is the whole-value move of the front
  message.
- CountedList.List.PushFront: assumes the insert succeeds. In the source, `push_front` and
  `emplace_front` run `++s` before inserting, so an allocation or element copy that throws
  leaves `s` one above the element count.
- CountedList.List.PushBack: assumes the insert succeeds. In the source, `push_back` runs
  `++s` before inserting, so a throwing insert leaves `s` one too high. `emplace_back`
  counts after the insert and stays exact.
- Promises.ResolutionLog.SetValue: always succeeds. `std::promise::set_value` on a promise
  that is already satisfied throws `future_error`. In `POP_ALL_PENDING_MSG_NOTIFY` that
  would stop the loop and leave the remaining promises unresolved, and the model does not
  capture this. `Pending.NotifiedOnce` states when no promise is resolved twice.
- `MsgQueue.Queue.EnqueueUnlocked`: the exception raised when the container cannot hold one
  more item is the `canHold` argument.
- Fixed-width overflow of the `uint_fast64_t` counters and of `size_t` byte counts: all
  counters are unbounded. Underflow of `buff_size` is ruled out by the accounting
  invariant. `size_t` arguments are bounded by `2^64 - 1`, which is the `(size_t) -1`
  sentinel.
- The MSVC workarounds (`_MSC_VER` branches) and the `std::list` alias used when the
  standard library already has an O(1) `size()`.
- The echo server example is not part of this model.

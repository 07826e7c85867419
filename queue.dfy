/** The byte-accounted FIFO `queue<Container, Lockable>` and its two lock policies. */
module MsgQueue {
  import opened Accounting

  /** A `size_t` argument. */
  type SizeT = x: nat | x <= SIZE_MAX

  /** The `Lockable` template argument: `dummy_lockable` or `lockable`. */
  datatype LockPolicy = DummyLockable | Lockable
  {
    /** `is_lockable()`: only the mutex-backed policy gives mutual exclusion. */
    predicate IsLockable()
      ensures IsLockable() <==> this == Lockable
    {
      Lockable?
    }
  }

  /** A `Container` passed by reference to the queue (a source, a destination or a swap partner).
      Only the contents matter to the queue: `splice_after(src)` appends all of `src` and
      empties it, `splice_after_until(src, it)` moves the prefix of `src` before `it`. */
  class Container<T> {
    var elems: seq<T>

    constructor (elems: seq<T>)
      ensures this.elems == elems
    {
      this.elems := elems;
    }
  }

  /** The visitor's state after it has been applied to the first `i` items (each call
      returns the new state and whether to stop). */
  function StateAfter<S, T>(xs: seq<T>, init: S, visit: (S, T) -> (S, bool), i: nat): S
    requires i <= |xs|
  {
    if i == 0 then init else visit(StateAfter(xs, init, visit, i - 1), xs[i - 1]).0
  }

  /** Whether the visitor asks to stop at item `j`. */
  predicate StopsAt<S, T>(xs: seq<T>, init: S, visit: (S, T) -> (S, bool), j: nat)
    requires j < |xs|
  {
    visit(StateAfter(xs, init, visit, j), xs[j]).1
  }

  /** The state of a visitor that never stops after it has seen the first `i` items. */
  function Folded<S, T>(xs: seq<T>, init: S, visit: (S, T) -> S, i: nat): S
    requires i <= |xs|
  {
    if i == 0 then init else visit(Folded(xs, init, visit, i - 1), xs[i - 1])
  }

  /** How many items `move_items_out_(dest, max_item_num)` moves from a queue of `n`. */
  function CountCut(n: nat, maxItemNum: SizeT): (k: nat)
    ensures k <= n
    ensures maxItemNum == SIZE_MAX ==> k == n
    ensures maxItemNum < SIZE_MAX ==> k <= maxItemNum && (k == maxItemNum || k == n)
  {
    if maxItemNum == SIZE_MAX then n else if maxItemNum < n then maxItemNum else n
  }

  /** The byte-budget rule as a characterisation: `k` items are the shortest non-empty prefix
      whose byte sum reaches `b` (the crossing item included), or all of them if none does. */
  ghost predicate IsByteCut<T>(xs: seq<T>, size: T -> nat, b: nat, k: nat)
  {
    && k <= |xs|
    && (xs != [] ==> k >= 1)
    && (forall j :: 1 <= j < k ==> Sum(xs[..j], size) < b)
    && (k == |xs| || Sum(xs[..k], size) >= b)
  }

  /** How many items `move_items_out_(max_size_in_byte, dest)` moves below the sentinel. */
  function ByteCut<T>(xs: seq<T>, size: T -> nat, b: nat): (k: nat)
    ensures k <= |xs|
    ensures xs != [] ==> k >= 1
  {
    if xs == [] then 0
    else if size(xs[0]) >= b then 1
    else 1 + ByteCut(xs[1..], size, b - size(xs[0]))
  }

  lemma {:induction false} ByteCutIsByteCut<T>(xs: seq<T>, size: T -> nat, b: nat)
    ensures IsByteCut(xs, size, b, ByteCut(xs, size, b))
  {
    if xs != [] && size(xs[0]) < b {
      var tail, b' := xs[1..], b - size(xs[0]);
      var k' := ByteCut(tail, size, b');
      ByteCutIsByteCut(tail, size, b');
      forall j | 1 <= j < k' + 1
        ensures Sum(xs[..j], size) < b
      {
        assert xs[..j][1..] == tail[..j - 1];
      }
      if k' + 1 < |xs| {
        assert xs[..k' + 1][1..] == tail[..k'];
      }
    }
  }

  /** Two solutions of the byte-budget rule cannot differ: neither can be shorter. */
  lemma ByteCutMinimal<T>(xs: seq<T>, size: T -> nat, b: nat, k1: nat, k2: nat)
    requires IsByteCut(xs, size, b, k1) && IsByteCut(xs, size, b, k2)
    ensures k1 <= k2
  {
  }

  /** The byte-budget rule has exactly one solution, and `ByteCut` computes it. */
  lemma ByteCutCharacterised<T>(xs: seq<T>, size: T -> nat, b: nat, k: nat)
    ensures IsByteCut(xs, size, b, k) <==> k == ByteCut(xs, size, b)
  {
    var c := ByteCut(xs, size, b);
    ByteCutIsByteCut(xs, size, b);
    if IsByteCut(xs, size, b, k) {
      ByteCutMinimal(xs, size, b, k, c);
      ByteCutMinimal(xs, size, b, c, k);
    }
  }

  /** With a zero budget a non-empty queue gives up exactly its front item. */
  lemma ByteCutZero<T>(xs: seq<T>, size: T -> nat)
    requires xs != []
    ensures ByteCut(xs, size, 0) == 1
  {
  }

  /** A positive budget at most the whole byte sum is always reached: the moved prefix holds
      at least `b` bytes, and without its last item it holds fewer. */
  lemma ByteCutReaches<T>(xs: seq<T>, size: T -> nat, b: nat)
    requires 0 < b <= Sum(xs, size)
    ensures var k := ByteCut(xs, size, b);
      && 1 <= k <= |xs|
      && Sum(xs[..k], size) >= b
      && Sum(xs[..k - 1], size) < b
  {
    var k := ByteCut(xs, size, b);
    ByteCutIsByteCut(xs, size, b);
    assert xs[..|xs|] == xs;
    if k > 1 {
      assert Sum(xs[..k - 1], size) < b;
    } else {
      assert xs[..0] == [];
    }
  }

  /** `queue<Container, Lockable>`: a sequence of messages plus the running byte count
      `buff_size`; the private `Container` base is the `items` field. */
  class Queue<T> {
    /** `item.size()` of the message type. */
    const sizeOf: T -> nat
    const policy: LockPolicy
    var items: seq<T>
    var buffSize: nat
    /** Whether a `lock_guard` of this queue holds its mutex (only ever true for `lockable`). */
    ghost var held: bool

    /** `buff_size` equals the byte sum of the queued items. */
    ghost predicate Valid()
      reads this
    {
      buffSize == Sum(items, sizeOf)
    }

    /** `queue()`: no items, no bytes. */
    constructor (sizeOf: T -> nat, policy: LockPolicy)
      ensures Valid() && !held
      ensures this.sizeOf == sizeOf && this.policy == policy
      ensures items == [] && buffSize == 0
    {
      this.sizeOf := sizeOf;
      this.policy := policy;
      items := [];
      buffSize := 0;
      held := false;
    }

    /** `is_thread_safe()`. */
    predicate IsThreadSafe()
      ensures IsThreadSafe() <==> policy == Lockable
    {
      policy.IsLockable()
    }

    /** `size()`. */
    function Size(): (n: nat)
      reads this
      ensures n == |items|
    {
      |items|
    }

    /** `empty()`. */
    predicate Empty()
      reads this
      ensures Empty() <==> Size() == 0
    {
      items == []
    }

    /** `size_in_byte()`: the byte count of the queued items. */
    function SizeInByte(): (n: nat)
      reads this
      requires Valid()
      ensures n == Sum(items, sizeOf)
    {
      buffSize
    }

    /** `Lockable::lock()`: takes the mutex of a `lockable` queue, does nothing for a dummy one. */
    method Lock()
      requires !held
      modifies this`held
      ensures held == policy.IsLockable()
    {
      held := policy.IsLockable();
    }

    /** `Lockable::unlock()`. */
    method Unlock()
      modifies this`held
      ensures !held
    {
      held := false;
    }

    /** `clear()`: empties the queue and zeroes `buff_size`. */
    method Clear()
      requires !held
      modifies this
      ensures Valid() && !held
      ensures items == [] && buffSize == 0
    {
      Lock();
      items := [];
      buffSize := 0;
      Unlock();
    }

    /** `swap(can)`: the queue takes `can`'s contents with their byte sum, `can` takes the
        queue's old contents. */
    method Swap(can: Container<T>)
      requires !held
      modifies this, can
      ensures Valid() && !held
      ensures items == old(can.elems) && can.elems == old(items)
      ensures buffSize == Sum(old(can.elems), sizeOf)
    {
      var sizeInByte := GetSizeInByte(can.elems, sizeOf);
      Lock();
      items, can.elems := can.elems, items;
      buffSize := sizeInByte;
      Unlock();
    }

    /** `enqueue_(item)`: appends `item` and adds its size. `canHold` is whether the container
        manages to store one more item; when it cannot, the source catches the exception and
        returns false with the queue unchanged. */
    method EnqueueUnlocked(item: T, canHold: bool) returns (ok: bool)
      requires Valid()
      modifies this`items, this`buffSize
      ensures Valid()
      ensures ok == canHold
      ensures items == if ok then old(items) + [item] else old(items)
      ensures buffSize == if ok then old(buffSize) + sizeOf(item) else old(buffSize)
    {
      if !canHold {
        return false;
      }
      var s := sizeOf(item);
      items := items + [item];
      SumConcat(old(items), [item], sizeOf);
      buffSize := buffSize + s;
      assert Sum([item], sizeOf) == s + Sum([item][1..], sizeOf);
      return true;
    }

    /** `enqueue(item)`: `enqueue_` under the queue's lock. */
    method Enqueue(item: T, canHold: bool) returns (ok: bool)
      requires Valid() && !held
      modifies this
      ensures Valid() && !held
      ensures ok == canHold
      ensures items == if ok then old(items) + [item] else old(items)
      ensures buffSize == if ok then old(buffSize) + sizeOf(item) else old(buffSize)
    {
      Lock();
      ok := EnqueueUnlocked(item, canHold);
      Unlock();
    }

    /** `move_items_in_(src, size_in_byte)`: splices all of `src` to the back. A zero
        `size_in_byte` means "unknown" and is recomputed with `get_size_in_byte`; a non-zero
        one is trusted, so it must be the true byte sum of `src`. */
    method MoveItemsInUnlocked(src: Container<T>, sizeInByte: SizeT := 0)
      requires Valid()
      requires sizeInByte == 0 || sizeInByte == Sum(src.elems, sizeOf)
      modifies this`items, this`buffSize, src
      ensures Valid()
      ensures items == old(items) + old(src.elems) && src.elems == []
      ensures buffSize == old(buffSize) + Sum(old(src.elems), sizeOf)
    {
      var size: nat := sizeInByte;
      if size == 0 {
        size := GetSizeInByte(src.elems, sizeOf);
      }
      SumConcat(items, src.elems, sizeOf);
      items, src.elems := items + src.elems, [];
      buffSize := buffSize + size;
    }

    /** `move_items_in(src, size_in_byte)`: `move_items_in_` under the queue's lock. */
    method MoveItemsIn(src: Container<T>, sizeInByte: SizeT := 0)
      requires Valid() && !held
      requires sizeInByte == 0 || sizeInByte == Sum(src.elems, sizeOf)
      modifies this, src
      ensures Valid() && !held
      ensures items == old(items) + old(src.elems) && src.elems == []
      ensures buffSize == old(buffSize) + Sum(old(src.elems), sizeOf)
    {
      Lock();
      MoveItemsInUnlocked(src, sizeInByte);
      Unlock();
    }

    /** `try_dequeue_(item)`: false with nothing changed on an empty queue; otherwise the
        front moves into `item` (returned as `out`) and its size leaves `buff_size`. */
    method TryDequeueUnlocked(item: T) returns (ok: bool, out: T)
      requires Valid()
      modifies this`items, this`buffSize
      ensures Valid()
      ensures ok == (old(items) != [])
      ensures ok ==> out == old(items)[0] && items == old(items)[1..]
                     && buffSize == old(buffSize) - sizeOf(out)
      ensures !ok ==> out == item && items == old(items) && buffSize == old(buffSize)
    {
      if items == [] {
        return false, item;
      }
      out := items[0];
      items := items[1..];
      buffSize := buffSize - sizeOf(out);
      ok := true;
    }

    /** `try_dequeue(item)`: `try_dequeue_` under the queue's lock. */
    method TryDequeue(item: T) returns (ok: bool, out: T)
      requires Valid() && !held
      modifies this
      ensures Valid() && !held
      ensures ok == (old(items) != [])
      ensures ok ==> out == old(items)[0] && items == old(items)[1..]
                     && buffSize == old(buffSize) - sizeOf(out)
      ensures !ok ==> out == item && items == old(items) && buffSize == old(buffSize)
    {
      Lock();
      ok, out := TryDequeueUnlocked(item);
      Unlock();
    }

    /** Moves the first `k` items to the back of `dest` (`splice_after` when `k` reaches the
        end, `splice_after_until` otherwise) and takes `s`, their byte sum, off `buff_size`. */
    method SpliceOut(dest: Container<T>, k: nat, s: nat)
      requires Valid() && k <= |items| && s == Sum(items[..k], sizeOf)
      modifies this`items, this`buffSize, dest
      ensures Valid()
      ensures dest.elems == old(dest.elems) + old(items)[..k] && items == old(items)[k..]
      ensures buffSize == old(buffSize) - s
    {
      SumSplit(items, k, sizeOf);
      if k == |items| {
        assert items[..k] == items;
        dest.elems, items := dest.elems + items, [];
      } else {
        dest.elems, items := dest.elems + items[..k], items[k..];
      }
      buffSize := buffSize - s;
    }

    /** `move_items_out_(dest, max_item_num)`: moves the first min(k, n) items, in order, to the
        back of `dest`; `(size_t) -1` moves everything and zeroes `buff_size`. */
    method MoveItemsOutUnlocked(dest: Container<T>, maxItemNum: SizeT := SIZE_MAX)
      requires Valid()
      modifies this`items, this`buffSize, dest
      ensures Valid()
      ensures var k := CountCut(|old(items)|, maxItemNum);
        && dest.elems == old(dest.elems) + old(items)[..k]
        && items == old(items)[k..]
        && buffSize == old(buffSize) - Sum(old(items)[..k], sizeOf)
    {
      if maxItemNum == SIZE_MAX {
        assert items[..|items|] == items;
        dest.elems, items := dest.elems + items, [];
        buffSize := 0;
      } else if maxItemNum > 0 {
        var s, index, endIter := 0, 0, 0;
        // do_something_to_one_ with the counting visitor
        var iter := 0;
        while iter < |items|
          invariant items == old(items) && buffSize == old(buffSize) && dest.elems == old(dest.elems)
          invariant iter == index == endIter <= maxItemNum && endIter <= |items|
          invariant s == Sum(items[..endIter], sizeOf)
        {
          index := index + 1;
          if index > maxItemNum {
            break;
          }
          SumPrefixStep(items, endIter, sizeOf);
          s := s + sizeOf(items[endIter]);
          endIter := endIter + 1;
          iter := iter + 1;
        }
        SpliceOut(dest, endIter, s);
      } else {
        assert old(items)[..0] == [];
      }
    }

    /** `move_items_out(dest, max_item_num)`: `move_items_out_` under the queue's lock. */
    method MoveItemsOut(dest: Container<T>, maxItemNum: SizeT := SIZE_MAX)
      requires Valid() && !held
      modifies this, dest
      ensures Valid() && !held
      ensures var k := CountCut(|old(items)|, maxItemNum);
        && dest.elems == old(dest.elems) + old(items)[..k]
        && items == old(items)[k..]
        && buffSize == old(buffSize) - Sum(old(items)[..k], sizeOf)
    {
      Lock();
      MoveItemsOutUnlocked(dest, maxItemNum);
      Unlock();
    }

    /** `move_items_out_(max_size_in_byte, dest)`: moves the shortest prefix whose byte sum
        reaches the budget, the crossing item included (all items when no prefix does);
        `(size_t) -1` moves everything and zeroes `buff_size`. */
    method MoveItemsOutBytesUnlocked(maxSizeInByte: SizeT, dest: Container<T>)
      requires Valid()
      modifies this`items, this`buffSize, dest
      ensures Valid()
      ensures var k := if maxSizeInByte == SIZE_MAX then |old(items)|
                       else ByteCut(old(items), sizeOf, maxSizeInByte);
        && dest.elems == old(dest.elems) + old(items)[..k]
        && items == old(items)[k..]
        && buffSize == old(buffSize) - Sum(old(items)[..k], sizeOf)
    {
      if maxSizeInByte == SIZE_MAX {
        assert items[..|items|] == items;
        dest.elems, items := dest.elems + items, [];
        buffSize := 0;
      } else {
        var s, endIter := 0, 0;
        // do_something_to_one_ with the byte-summing visitor
        var iter := 0;
        while iter < |items|
          invariant items == old(items) && buffSize == old(buffSize) && dest.elems == old(dest.elems)
          invariant iter == endIter <= |items|
          invariant s == Sum(items[..endIter], sizeOf)
          invariant forall j :: 1 <= j <= endIter ==> Sum(items[..j], sizeOf) < maxSizeInByte
        {
          SumPrefixStep(items, endIter, sizeOf);
          s := s + sizeOf(items[endIter]);
          endIter := endIter + 1;
          if s >= maxSizeInByte {
            break;
          }
          iter := iter + 1;
        }
        ByteCutCharacterised(items, sizeOf, maxSizeInByte, endIter);
        SpliceOut(dest, endIter, s);
      }
    }

    /** `move_items_out(max_size_in_byte, dest)`: `move_items_out_` under the queue's lock. */
    method MoveItemsOutBytes(maxSizeInByte: SizeT, dest: Container<T>)
      requires Valid() && !held
      modifies this, dest
      ensures Valid() && !held
      ensures var k := if maxSizeInByte == SIZE_MAX then |old(items)|
                       else ByteCut(old(items), sizeOf, maxSizeInByte);
        && dest.elems == old(dest.elems) + old(items)[..k]
        && items == old(items)[k..]
        && buffSize == old(buffSize) - Sum(old(items)[..k], sizeOf)
    {
      Lock();
      MoveItemsOutBytesUnlocked(maxSizeInByte, dest);
      Unlock();
    }

    /** `do_something_to_all_(pred)` (the read-only overload): visits every item front to back,
        threading the visitor's state. */
    method DoSomethingToAllUnlocked<S>(init: S, visit: (S, T) -> S) returns (final: S)
      ensures final == Folded(items, init, visit, |items|)
    {
      final := init;
      for i := 0 to |items|
        invariant final == Folded(items, init, visit, i)
      {
        final := visit(final, items[i]);
      }
    }

    /** `do_something_to_all(pred)`: `do_something_to_all_` under the queue's lock. */
    method DoSomethingToAll<S>(init: S, visit: (S, T) -> S) returns (final: S)
      requires !held
      modifies this`held
      ensures !held
      ensures final == Folded(items, init, visit, |items|)
    {
      Lock();
      final := DoSomethingToAllUnlocked(init, visit);
      Unlock();
    }

    /** `do_something_to_one_(pred)` (the read-only overload): visits items front to back and
        stops right after the first one for which the visitor answers true. `visited` is the
        number of items the visitor saw, `final` its state afterwards. */
    method DoSomethingToOneUnlocked<S>(init: S, visit: (S, T) -> (S, bool)) returns (final: S, visited: nat)
      ensures visited <= |items|
      ensures forall j :: 0 <= j < visited - 1 ==> !StopsAt(items, init, visit, j)
      ensures visited == |items| || (visited > 0 && StopsAt(items, init, visit, visited - 1))
      ensures final == StateAfter(items, init, visit, visited)
    {
      final, visited := init, 0;
      var iter := 0;
      while iter < |items|
        invariant iter == visited <= |items|
        invariant final == StateAfter(items, init, visit, visited)
        invariant forall j :: 0 <= j < visited ==> !StopsAt(items, init, visit, j)
      {
        var stop;
        final, stop := visit(final, items[iter]).0, visit(final, items[iter]).1;
        visited := visited + 1;
        if stop {
          break;
        }
        iter := iter + 1;
      }
    }

    /** `do_something_to_one(pred)`: `do_something_to_one_` under the queue's lock. */
    method DoSomethingToOne<S>(init: S, visit: (S, T) -> (S, bool)) returns (final: S, visited: nat)
      requires !held
      modifies this`held
      ensures !held
      ensures visited <= |items|
      ensures forall j :: 0 <= j < visited - 1 ==> !StopsAt(items, init, visit, j)
      ensures visited == |items| || (visited > 0 && StopsAt(items, init, visit, visited - 1))
      ensures final == StateAfter(items, init, visit, visited)
    {
      Lock();
      final, visited := DoSomethingToOneUnlocked(init, visit);
      Unlock();
    }
  }
}

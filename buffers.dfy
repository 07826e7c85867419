/** The message holders `auto_buffer` (sole owner of a heap object) and `shared_buffer`
    (a `shared_ptr` to it). Both are null-aware: a null holder is an empty message. The held
    object is a byte string, so `None` stands for `nullptr` and `Some(b)` for an object
    holding `b`. */
module Buffers {
  import opened Wrappers

  newtype byte = x: int | 0 <= x < 256
  type Bytes = seq<byte>

  /** `empty()` of a holder: null, or an empty object. */
  predicate HolderEmpty(buffer: Option<Bytes>)
  {
    buffer.None? || buffer.value == []
  }

  /** `size()` of a holder: 0 when null, else the object's size. */
  function HolderSize(buffer: Option<Bytes>): (n: nat)
    ensures buffer.None? ==> n == 0
    ensures HolderEmpty(buffer) <==> n == 0
  {
    if buffer.None? then 0 else |buffer.value|
  }

  /** `data()` of a holder: null when the holder is null, else the object's bytes. */
  function HolderData(buffer: Option<Bytes>): (d: Option<Bytes>)
    ensures d.None? <==> buffer.None?
    ensures d.Some? ==> |d.value| == HolderSize(buffer)
  {
    buffer
  }

  /** `auto_buffer<T>`: owns the object it points to and deletes it on `clear()`. */
  class AutoBuffer {
    var buffer: Option<Bytes>

    /** `auto_buffer()`: a null holder. */
    constructor ()
      ensures buffer == None
    {
      buffer := None;
    }

    /** `auto_buffer(T*)`: takes ownership of `b` (null when `b` is `None`). */
    constructor Own(b: Option<Bytes>)
      ensures buffer == b
    {
      buffer := b;
    }

    /** `auto_buffer(auto_buffer&& other)`: takes `other`'s object and leaves `other` null. */
    constructor FromMove(other: AutoBuffer)
      modifies other
      ensures buffer == old(other.buffer) && other.buffer == None
    {
      buffer := other.buffer;
      new;
      other.buffer := None;
    }

    /** `operator=(auto_buffer&& other)`: `clear()` then `swap(other)`; moving a holder into
        itself therefore leaves it null. */
    method MoveAssign(other: AutoBuffer)
      modifies this, other
      ensures other == this ==> buffer == None
      ensures other != this ==> buffer == old(other.buffer) && other.buffer == None
    {
      Clear();
      Swap(other);
    }

    /** `raw_buffer()`. */
    function RawBuffer(): (r: Option<Bytes>)
      reads this
      ensures r.None? <==> Data().None?
      ensures HolderSize(r) == Size()
    {
      buffer
    }

    /** `raw_buffer(T*)`: replaces the pointer without deleting the old object. */
    method SetRawBuffer(b: Option<Bytes>)
      modifies this
      ensures buffer == b
    {
      buffer := b;
    }

    predicate Empty()
      reads this
      ensures buffer.None? ==> Empty()
    {
      HolderEmpty(buffer)
    }

    function Size(): (n: nat)
      reads this
      ensures buffer.None? ==> n == 0
      ensures n == 0 <==> Empty()
    {
      HolderSize(buffer)
    }

    function Data(): (d: Option<Bytes>)
      reads this
      ensures d.None? <==> buffer.None?
    {
      HolderData(buffer)
    }

    /** `swap(other)`: exchanges the pointers. */
    method Swap(other: AutoBuffer)
      modifies this, other
      ensures buffer == old(other.buffer) && other.buffer == old(buffer)
    {
      buffer, other.buffer := other.buffer, buffer;
    }

    /** `clear()`: deletes the object and nulls the pointer. */
    method Clear()
      modifies this
      ensures buffer == None
    {
      buffer := None;
    }
  }

  /** `shared_buffer<T>`: a copyable holder over a `shared_ptr`. */
  class SharedBuffer {
    var buffer: Option<Bytes>

    /** `shared_buffer()`: a null holder. */
    constructor ()
      ensures buffer == None
    {
      buffer := None;
    }

    /** `shared_buffer(T*)` and `shared_buffer(shared_ptr)`. */
    constructor Own(b: Option<Bytes>)
      ensures buffer == b
    {
      buffer := b;
    }

    /** The implicit copy constructor: both holders share one object. */
    constructor Copy(other: SharedBuffer)
      ensures buffer == other.buffer
    {
      buffer := other.buffer;
    }

    function RawBuffer(): (r: Option<Bytes>)
      reads this
      ensures r.None? <==> Data().None?
      ensures HolderSize(r) == Size()
    {
      buffer
    }

    /** `raw_buffer(T*)` (`reset`) and `raw_buffer(shared_ptr)` (assignment). */
    method SetRawBuffer(b: Option<Bytes>)
      modifies this
      ensures buffer == b
    {
      buffer := b;
    }

    predicate Empty()
      reads this
      ensures buffer.None? ==> Empty()
    {
      HolderEmpty(buffer)
    }

    function Size(): (n: nat)
      reads this
      ensures buffer.None? ==> n == 0
      ensures n == 0 <==> Empty()
    {
      HolderSize(buffer)
    }

    function Data(): (d: Option<Bytes>)
      reads this
      ensures d.None? <==> buffer.None?
    {
      HolderData(buffer)
    }

    /** `swap(other)`: `shared_ptr::swap`. */
    method Swap(other: SharedBuffer)
      modifies this, other
      ensures buffer == old(other.buffer) && other.buffer == old(buffer)
    {
      buffer, other.buffer := other.buffer, buffer;
    }

    /** `clear()`: `reset()`, so the holder becomes null. */
    method Clear()
      modifies this
      ensures buffer == None
    {
      buffer := None;
    }
  }
}

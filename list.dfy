/** The replacement `list`: a `std::list` (`impl`) with a cached element counter `s`, so that
    `size()` is constant time. Iterators are modelled as positions in `impl`. */
module CountedList {

  /** A plain `std::list` (`_Mybase`), the other operand of three of the splice overloads. */
  class StdList<T> {
    var elems: seq<T>

    constructor (elems: seq<T>)
      ensures this.elems == elems
    {
      this.elems := elems;
    }
  }

  class List<T> {
    var s: nat
    var impl: seq<T>

    /** The counter is in step with the elements. */
    ghost predicate Valid()
      reads this
    {
      s == |impl|
    }

    /** `list()`. */
    constructor ()
      ensures Valid() && impl == []
    {
      s, impl := 0, [];
    }

    /** `list(n)`: `n` value-initialised elements; `initial` is `_Ty()`. */
    constructor WithSize(n: nat, initial: T)
      ensures Valid() && impl == seq(n, _ => initial)
    {
      s, impl := n, seq(n, _ => initial);
    }

    /** `list(list&& other)`: starts empty and swaps with `other`, which is left empty. */
    constructor FromMove(other: List<T>)
      requires other.Valid()
      modifies other
      ensures Valid() && other.Valid()
      ensures impl == old(other.impl) && other.impl == []
    {
      s, impl := other.s, other.impl;
      new;
      other.s, other.impl := 0, [];
    }

    /** `size()`: the cached counter, which is the element count. */
    function Size(): (n: nat)
      reads this
      requires Valid()
      ensures n == |impl|
    {
      s
    }

    /** `empty()`: tests the counter. */
    predicate Empty()
      reads this
      requires Valid()
      ensures Empty() <==> impl == []
    {
      0 == s
    }

    /** `swap(other)`: exchanges elements and counters. */
    method Swap(other: List<T>)
      requires Valid() && other.Valid()
      modifies this, other
      ensures Valid() && other.Valid()
      ensures impl == old(other.impl) && other.impl == old(impl)
    {
      impl, other.impl := other.impl, impl;
      s, other.s := other.s, s;
    }

    /** `operator=(list&& other)`: `clear()` then `swap(other)`. Moving a list into itself
        therefore leaves it empty. */
    method MoveAssign(other: List<T>)
      requires Valid() && other.Valid()
      modifies this, other
      ensures Valid() && other.Valid()
      ensures other == this ==> impl == []
      ensures other != this ==> impl == old(other.impl) && other.impl == []
    {
      Clear();
      Swap(other);
    }

    /** `clear()`. */
    method Clear()
      modifies this
      ensures Valid() && impl == []
    {
      s := 0;
      impl := [];
    }

    /** `resize(n)`: appends value-initialised elements (`initial`) one at a time while the
        counter is below `n`, then erases the tail beyond `n`. */
    method Resize(newSize: nat, initial: T)
      requires Valid()
      modifies this
      ensures Valid() && |impl| == newSize
      ensures newSize <= |old(impl)| ==> impl == old(impl)[..newSize]
      ensures newSize > |old(impl)| ==> impl == old(impl) + seq(newSize - |old(impl)|, _ => initial)
    {
      while s < newSize
        invariant Valid()
        invariant |old(impl)| <= |impl|
        invariant |old(impl)| < newSize ==> |impl| <= newSize
        invariant impl == old(impl) + seq(|impl| - |old(impl)|, _ => initial)
      {
        impl := impl + [initial];
        s := s + 1;
      }
      if s > newSize {
        // the erase starts at position `newSize`, reached from whichever end is nearer
        s := newSize;
        impl := impl[..newSize];
      }
    }

    /** `erase(where)`: removes the element at `where` and returns the position of the element
        that followed it. */
    method Erase(where: nat) returns (next: nat)
      requires Valid() && where < |impl|
      modifies this
      ensures Valid() && next == where
      ensures impl == old(impl)[..where] + old(impl)[where + 1..]
    {
      s := s - 1;
      impl := impl[..where] + impl[where + 1..];
      next := where;
    }

    /** `push_front` and `emplace_front`. */
    method PushFront(x: T)
      requires Valid()
      modifies this
      ensures Valid() && impl == [x] + old(impl)
    {
      s := s + 1;
      impl := [x] + impl;
    }

    /** `pop_front()` (undefined behaviour on an empty list, which callers never do). */
    method PopFront()
      requires Valid() && impl != []
      modifies this
      ensures Valid() && impl == old(impl)[1..]
    {
      s := s - 1;
      impl := impl[1..];
    }

    /** `push_back` and `emplace_back`. */
    method PushBack(x: T)
      requires Valid()
      modifies this
      ensures Valid() && impl == old(impl) + [x]
    {
      s := s + 1;
      impl := impl + [x];
    }

    /** `pop_back()`. */
    method PopBack()
      requires Valid() && impl != []
      modifies this
      ensures Valid() && impl == old(impl)[..|old(impl)| - 1]
    {
      s := s - 1;
      impl := impl[..|impl| - 1];
    }

    /** `front()`. */
    function Front(): (x: T)
      reads this
      requires impl != []
      ensures impl == [x] + impl[1..]
    {
      impl[0]
    }

    /** `back()`. */
    function Back(): (x: T)
      reads this
      requires impl != []
      ensures impl == impl[..|impl| - 1] + [x]
    {
      impl[|impl| - 1]
    }

    /** `splice(where, std::list& right)`: inserts all of `right` before `where`. */
    method SpliceAllFromStd(where: nat, right: StdList<T>)
      requires Valid() && where <= |impl|
      modifies this, right
      ensures Valid() && right.elems == []
      ensures impl == old(impl)[..where] + old(right.elems) + old(impl)[where..]
    {
      s := s + |right.elems|;
      impl := impl[..where] + right.elems + impl[where..];
      right.elems := [];
    }

    /** `splice(where, std::list& right, first)`: moves the element at `first` of `right`. */
    method SpliceOneFromStd(where: nat, right: StdList<T>, first: nat)
      requires Valid() && where <= |impl| && first < |right.elems|
      modifies this, right
      ensures Valid()
      ensures impl == old(impl)[..where] + [old(right.elems)[first]] + old(impl)[where..]
      ensures right.elems == old(right.elems)[..first] + old(right.elems)[first + 1..]
    {
      s := s + 1;
      impl := impl[..where] + [right.elems[first]] + impl[where..];
      right.elems := right.elems[..first] + right.elems[first + 1..];
    }

    /** `splice(where, std::list& right, first, last)`: moves `[first, last)` of `right`,
        counting it with `std::distance`. */
    method SpliceRangeFromStd(where: nat, right: StdList<T>, first: nat, last: nat)
      requires Valid() && where <= |impl| && first <= last <= |right.elems|
      modifies this, right
      ensures Valid()
      ensures impl == old(impl)[..where] + old(right.elems)[first..last] + old(impl)[where..]
      ensures right.elems == old(right.elems)[..first] + old(right.elems)[last..]
    {
      var size := last - first;
      s := s + size;
      impl := impl[..where] + right.elems[first..last] + impl[where..];
      right.elems := right.elems[..first] + right.elems[last..];
    }

    /** `splice(where, list& right)`: moves all of another counted list; the moved count goes
        from `right`'s counter to this one. */
    method SpliceAll(where: nat, right: List<T>)
      requires Valid() && right.Valid() && right != this && where <= |impl|
      modifies this, right
      ensures Valid() && right.Valid() && right.impl == []
      ensures impl == old(impl)[..where] + old(right.impl) + old(impl)[where..]
      ensures s == old(s) + old(right.s)
    {
      s := s + right.s;
      right.s := 0;
      impl := impl[..where] + right.impl + impl[where..];
      right.impl := [];
    }

    /** `splice(where, list& right, first)`: moves one element of another counted list. */
    method SpliceOne(where: nat, right: List<T>, first: nat)
      requires Valid() && right.Valid() && right != this
      requires where <= |impl| && first < |right.impl|
      modifies this, right
      ensures Valid() && right.Valid()
      ensures impl == old(impl)[..where] + [old(right.impl)[first]] + old(impl)[where..]
      ensures right.impl == old(right.impl)[..first] + old(right.impl)[first + 1..]
      ensures s == old(s) + 1 && right.s == old(right.s) - 1
    {
      s := s + 1;
      right.s := right.s - 1;
      impl := impl[..where] + [right.impl[first]] + impl[where..];
      right.impl := right.impl[..first] + right.impl[first + 1..];
    }

    /** `splice(where, list& right, first, last)`: moves `[first, last)` of another counted
        list; `std::distance` of the range is added here and subtracted there. */
    method SpliceRange(where: nat, right: List<T>, first: nat, last: nat)
      requires Valid() && right.Valid() && right != this
      requires where <= |impl| && first <= last <= |right.impl|
      modifies this, right
      ensures Valid() && right.Valid()
      ensures impl == old(impl)[..where] + old(right.impl)[first..last] + old(impl)[where..]
      ensures right.impl == old(right.impl)[..first] + old(right.impl)[last..]
      ensures s == old(s) + (last - first) && right.s == old(right.s) - (last - first)
    {
      var size := last - first;
      s := s + size;
      right.s := right.s - size;
      impl := impl[..where] + right.impl[first..last] + impl[where..];
      right.impl := right.impl[..first] + right.impl[last..];
    }
  }
}

/** Byte accounting shared by the queue and the pending-message helpers:
    the byte sum of a container of messages (`get_size_in_byte`) and the
    size_t sentinel `(size_t) -1`. */
module Accounting {

  /** `(size_t) -1` on a 64-bit target: the "no limit" sentinel of the move-out operations. */
  const SIZE_MAX: nat := 0xFFFF_FFFF_FFFF_FFFF

  /** The sum of `size()` over the items of a container, front to back. */
  function Sum<T>(xs: seq<T>, size: T -> nat): nat
  {
    if xs == [] then 0 else size(xs[0]) + Sum(xs[1..], size)
  }

  /** The byte sum of a concatenation is the sum of the byte sums. */
  lemma {:induction false} SumConcat<T>(a: seq<T>, b: seq<T>, size: T -> nat)
    ensures Sum(a + b, size) == Sum(a, size) + Sum(b, size)
  {
    if a == [] {
      assert a + b == b;
    } else {
      assert (a + b)[1..] == a[1..] + b;
      SumConcat(a[1..], b, size);
    }
  }

  /** Splitting a container at any point splits its byte sum. */
  lemma SumSplit<T>(xs: seq<T>, k: nat, size: T -> nat)
    requires k <= |xs|
    ensures Sum(xs, size) == Sum(xs[..k], size) + Sum(xs[k..], size)
  {
    assert xs == xs[..k] + xs[k..];
    SumConcat(xs[..k], xs[k..], size);
  }

  /** Extending a prefix by one item adds that item's size. */
  lemma SumPrefixStep<T>(xs: seq<T>, k: nat, size: T -> nat)
    requires k < |xs|
    ensures Sum(xs[..k + 1], size) == Sum(xs[..k], size) + size(xs[k])
  {
    assert xs[..k + 1] == xs[..k] + [xs[k]];
    SumConcat(xs[..k], [xs[k]], size);
    assert Sum([xs[k]], size) == size(xs[k]) + Sum([xs[k]][1..], size);
  }

  /** `get_size_in_byte`: visit every item of the container and accumulate its size. */
  method GetSizeInByte<T>(can: seq<T>, size: T -> nat) returns (sizeInByte: nat)
    ensures sizeInByte == Sum(can, size)
  {
    sizeInByte := 0;
    var i := 0;
    while i < |can|
      invariant 0 <= i <= |can|
      invariant sizeInByte == Sum(can[..i], size)
    {
      SumPrefixStep(can, i, size);
      sizeInByte := sizeInByte + size(can[i]);
      i := i + 1;
    }
    assert can[..i] == can;
  }
}

/** The wrapping comparison used on every queue index (concurrentqueue.h:477-482). */
module CircularIndex {

  /** Number of values of index_t, which is size_t on the 64-bit ARM build. */
  const INDEX_RANGE: int := 0x1_0000_0000_0000_0000
  const HALF_RANGE: int := 0x8000_0000_0000_0000

  /** The stored image of an unbounded index. */
  function Wrap(x: int): nat {
    x % INDEX_RANGE
  }

  predicate CircularLessThan(a: nat, b: nat) {
    Wrap(a - b) > HALF_RANGE
  }

  /** The distance from a to b is one the wrapping comparison can tell apart from its mirror image. */
  predicate Near(a: int, b: int) {
    -HALF_RANGE <= b - a < HALF_RANGE
  }

  /** On nearby indices the wrapping comparison is the true order. */
  lemma CircularLessThanIsLess(a: int, b: int)
    requires Near(a, b)
    ensures CircularLessThan(Wrap(a), Wrap(b)) <==> a < b
  {
    WrapOfDifference(a, b);
  }

  /** Exactly how far "nearby" reaches: within half the range either way, only the far end of it fails. */
  lemma CircularLessThanLimit(a: int, b: int)
    requires -HALF_RANGE <= b - a <= HALF_RANGE
    ensures (CircularLessThan(Wrap(a), Wrap(b)) <==> a < b) <==> b - a != HALF_RANGE
  {
    WrapOfDifference(a, b);
  }

  lemma WrapOfDifference(a: int, b: int)
    ensures Wrap(Wrap(a) - Wrap(b)) == Wrap(a - b)
  {
  }

  /**
   * What a consumer believes is left: tail minus the tickets already drawn that were not given back,
   * computed on wrapped indices. Both dequeue forms take "none" when the result is not circularly positive.
   */
  function Available(tail: nat, count: nat, over: nat): nat {
    var left := Wrap(Wrap(tail) - Wrap(Wrap(count) - Wrap(over)));
    if CircularLessThan(0, left) then left else 0
  }

  lemma PositiveTest(d: int)
    requires -HALF_RANGE <= d < HALF_RANGE
    ensures CircularLessThan(0, Wrap(d)) <==> d > 0
    ensures d >= 0 ==> Wrap(d) == d
  {
  }

  lemma AvailableIsDifference(tail: nat, count: nat, over: nat)
    requires Near(count - over, tail)
    ensures Available(tail, count, over) == if count - over < tail then tail - (count - over) else 0
  {
    WrapOfDifference(count, over);
    WrapOfDifference(tail, count - over);
    PositiveTest(tail - (count - over));
    hide Wrap, CircularLessThan;
  }

  /** The single-element dequeue asks the same question in the form "count - over is circularly below tail". */
  lemma AvailableIsCircularTest(tail: nat, count: nat, over: nat)
    requires Near(count - over, tail)
    ensures Available(tail, count, over) > 0 <==> CircularLessThan(Wrap(Wrap(count) - Wrap(over)), Wrap(tail))
  {
    AvailableIsDifference(tail, count, over);
    WrapOfDifference(count, over);
    CircularLessThanIsLess(count - over, tail);
  }
}

/** Remainders by a table or ring capacity, and how much a finite set can hold. */
module Modular {

  lemma {:induction false} MultipleIsFar(k: int, c: int)
    requires c > 0
    ensures k >= 1 ==> k * c >= c
    ensures k <= -1 ==> k * c <= -c
    decreases if k < 0 then -k else k
  {
    if k > 1 {
      MultipleIsFar(k - 1, c);
      assert k * c == (k - 1) * c + c;
    } else if k < -1 {
      MultipleIsFar(k + 1, c);
      assert k * c == (k + 1) * c - c;
    }
  }

  lemma MultipleInRange(k: int, c: int)
    requires c > 0 && -c < k * c < c
    ensures k == 0
  {
    MultipleIsFar(k, c);
  }

  lemma DivisionOf(a: int, c: int)
    requires c > 0
    ensures a == (a / c) * c + a % c && 0 <= a % c < c
  {
  }

  /** Two numbers less than c apart that share a remainder are equal. */
  lemma SameRemainder(a: int, b: int, c: int)
    requires c > 0 && -c < a - b < c && a % c == b % c
    ensures a == b
  {
    DivisionOf(a, c);
    DivisionOf(b, c);
    assert a - b == (a / c - b / c) * c;
    MultipleInRange(a / c - b / c, c);
  }

  /** A number in range that differs from a by a multiple of c is a's remainder. */
  lemma RemainderIs(a: int, r: int, k: int, c: int)
    requires c > 0 && 0 <= r < c && a == k * c + r
    ensures a % c == r
  {
    DivisionOf(a, c);
    assert r - a % c == (a / c - k) * c;
    MultipleInRange(a / c - k, c);
  }

  lemma ShiftRemainder(a: int, b: int, c: int)
    requires c > 0
    ensures (a % c + b) % c == (a + b) % c
  {
    DivisionOf(a, c);
    DivisionOf(a % c + b, c);
    var k := a / c + (a % c + b) / c;
    assert a + b == k * c + (a % c + b) % c;
    RemainderIs(a + b, (a % c + b) % c, k, c);
  }

  lemma {:induction false} SubsetSize<T>(a: set<T>, b: set<T>)
    requires a <= b
    ensures |a| <= |b|
    decreases |a|
  {
    if a != {} {
      var x :| x in a;
      SubsetSize(a - {x}, b - {x});
    }
  }

  function Below(n: nat): (s: set<nat>)
    ensures forall k: nat :: k in s <==> k < n
  {
    if n == 0 then {} else Below(n - 1) + {n - 1}
  }

  lemma {:induction false} BelowSize(n: nat)
    ensures |Below(n)| == n
  {
    if n > 0 {
      BelowSize(n - 1);
      assert n - 1 !in Below(n - 1);
    }
  }

  /** Pigeonhole: distinct numbers below n are at most n many. */
  lemma {:induction false} Pigeonhole<K>(m: map<K, nat>, n: nat)
    requires forall k :: k in m ==> m[k] < n
    requires forall k, l :: k in m && l in m && k != l ==> m[k] != m[l]
    ensures |m| <= n
    decreases |m|
  {
    if |m| > 0 {
      var k :| k in m;
      var rest := map l | l in m && l != k :: if m[l] == n - 1 then m[k] else m[l];
      assert m.Keys == rest.Keys + {k};
      Pigeonhole(rest, n - 1);
    }
  }
}

/** Bytes and big-endian fields (src/Utilities.cpp:352-387). */
module Bytes {
  import opened Modular

  type Byte = b: int | 0 <= b < 256

  function Pow256(n: nat): (p: nat)
    ensures p > 0
  {
    if n == 0 then 1 else 256 * Pow256(n - 1)
  }

  /** The number a byte string denotes, most significant byte first. */
  function Value(s: seq<Byte>): nat {
    if s == [] then 0 else 256 * Value(s[..|s| - 1]) + s[|s| - 1]
  }

  /** The low n bytes of v, most significant first. */
  function Splat(n: nat, v: nat): (s: seq<Byte>)
    ensures |s| == n
  {
    if n == 0 then [] else Splat(n - 1, v / 256) + [v % 256]
  }

  lemma {:induction false} ValueBound(s: seq<Byte>)
    ensures Value(s) < Pow256(|s|)
  {
    if s != [] {
      ValueBound(s[..|s| - 1]);
    }
  }

  /** Splitting a value below 256^n into n bytes loses nothing. */
  lemma {:induction false} ValueOfSplat(n: nat, v: nat)
    requires v < Pow256(n)
    ensures Value(Splat(n, v)) == v
  {
    if n > 0 {
      ValueOfSplat(n - 1, v / 256);
      assert Splat(n, v)[..n - 1] == Splat(n - 1, v / 256);
    }
  }

  lemma {:induction false} SplatOfValue(s: seq<Byte>)
    ensures Splat(|s|, Value(s)) == s
  {
    if s != [] {
      SplatOfValue(s[..|s| - 1]);
      assert s[..|s| - 1] + [s[|s| - 1]] == s;
    }
  }

  /** Dividing by 256 and then by p is dividing by 256 p. */
  lemma DivideTwice(v: nat, p: nat)
    requires p > 0
    ensures (v / 256) / p == v / (256 * p)
  {
    var q, r := v / (256 * p), v % (256 * p);
    var a, k := v / 256, r / 256;
    DivisionOf(v, 256 * p);
    DivisionOf(r, 256);
    DivisionOf(v, 256);
    assert q * (256 * p) == 256 * (q * p);
    assert a == q * p + k;
    DivisionOf(a, p);
    assert (a / p - q) * p == k - a % p;
    MultipleInRange(a / p - q, p);
  }

  /** Byte k from the front is the one i = n - 1 - k places above the lowest. */
  lemma {:induction false} SplatAt(n: nat, v: nat, i: nat)
    requires i < n
    ensures Splat(n, v)[n - 1 - i] == (v / Pow256(i)) % 256
  {
    if i > 0 {
      SplatAt(n - 1, v / 256, i - 1);
      DivideTwice(v, Pow256(i - 1));
    }
  }

  /** The last j bytes of a field are the field j bytes wide. */
  lemma {:induction false} SplatSuffix(n: nat, v: nat, j: nat)
    requires j <= n
    ensures Splat(n, v)[n - j..] == Splat(j, v)
  {
    if j > 0 {
      SplatSuffix(n - 1, v / 256, j - 1);
      assert Splat(n, v)[n - j..] == Splat(n - 1, v / 256)[n - j..] + [v % 256];
    }
  }

  /** A field too narrow for v denotes less. */
  lemma {:induction false} SplatBelow(n: nat, v: nat)
    ensures Value(Splat(n, v)) <= v
  {
    if n > 0 {
      SplatBelow(n - 1, v / 256);
      assert Splat(n, v)[..n - 1] == Splat(n - 1, v / 256);
    }
  }

  /** splat_to_nbytes: shift and mask, from the top byte down. */
  method SplatToNBytes(n: nat, data: nat) returns (result: seq<Byte>)
    ensures result == Splat(n, data)
  {
    result := [];
    var i := n - 1;
    while i >= 0
      invariant -1 <= i < n
      invariant result == Splat(n, data)[..n - 1 - i]
    {
      var d := (data / Pow256(i)) % 256;
      SplatAt(n, data, i);
      result := result + [d];
      i := i - 1;
    }
  }

  /** What a 4-byte field denotes; longer strings are read in their first four bytes, shorter ones as zero. */
  function Unsplat4(s: seq<Byte>): nat {
    if |s| < 4 then 0 else Value(s[..4])
  }

  lemma Value4(s: seq<Byte>)
    requires |s| == 4
    ensures Value(s) == s[0] * Pow256(3) + s[1] * Pow256(2) + s[2] * Pow256(1) + s[3] * Pow256(0)
  {
    var a, b := s[..3], s[..2];
    assert Value(s) == 256 * Value(a) + s[3];
    assert a[..2] == b && Value(a) == 256 * Value(b) + s[2];
    assert b[..1] == [s[0]] && [s[0]][..0] == [];
    assert Value(b) == 256 * Value([s[0]]) + s[1];
    assert Pow256(2) == 65536 && Pow256(3) == 16777216;
  }

  /** unsplat_from_4bytes: the shifted bytes occupy disjoint bits, so or-ing them is adding them. */
  method UnsplatFrom4Bytes(data: seq<Byte>) returns (result: nat)
    ensures result == Unsplat4(data)
  {
    if |data| < 4 {
      return 0;
    }
    result := 0;
    ghost var term := (i: int) => if 0 <= i < 4 then data[i] * Pow256(3 - i) else 0;
    for i := 0 to 4
      invariant result == (if i > 0 then term(0) else 0) + (if i > 1 then term(1) else 0)
                          + (if i > 2 then term(2) else 0) + (if i > 3 then term(3) else 0)
    {
      result := result + data[i] * Pow256(3 - i);
    }
    Value4(data[..4]);
  }

  /** A 4-byte field holds any value below 2^32. */
  lemma UnsplatOfSplat(v: nat)
    requires v < 0x1_0000_0000
    ensures Unsplat4(Splat(4, v)) == v
  {
    ValueOfSplat(4, v);
    assert Splat(4, v)[..4] == Splat(4, v);
    assert Pow256(2) == 65536 && Pow256(4) == 0x1_0000_0000;
  }

  function SwapEndian4(s: seq<Byte>): (r: seq<Byte>)
    requires |s| >= 4
    ensures |r| == 4
  {
    [s[3], s[2], s[1], s[0]]
  }

  /** Three-byte fields are read with a zero byte in front. */
  lemma {:induction false} PadField(s: seq<Byte>)
    ensures Value([0] + s) == Value(s)
  {
    if s == [] {
      assert [0] + s == [0] && [0][..0] == [];
    } else {
      assert ([0] + s)[..|s|] == [0] + s[..|s| - 1];
      PadField(s[..|s| - 1]);
    }
  }
}

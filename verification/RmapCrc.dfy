/**
 * The RMAP cyclic redundancy code: the two copies of its byte table, the loops that use them, and the bit-serial code
 * of ECSS-E-ST-50-52C, section 5.2, that they are meant to compute.
 */
module RmapCrc {
  import opened Bytes

  /** The table in spw_calculate_crc_uint_F (src/Utilities.cpp:132-165), eight entries to a row, by the index of the first. */
  function UtilitiesRow(high: bv8): (row: seq<bv8>)
    ensures |row| == 8
  {
    match high
    case 0x00 => [0x00, 0x91, 0xe3, 0x72, 0x07, 0x96, 0xe4, 0x75]
    case 0x08 => [0x0e, 0x9f, 0xed, 0x7c, 0x09, 0x98, 0xea, 0x7b]
    case 0x10 => [0x1c, 0x8d, 0xff, 0x6e, 0x1b, 0x8a, 0xf8, 0x69]
    case 0x18 => [0x12, 0x83, 0xf1, 0x60, 0x15, 0x84, 0xf6, 0x67]
    case 0x20 => [0x38, 0xa9, 0xdb, 0x4a, 0x3f, 0xae, 0xdc, 0x4d]
    case 0x28 => [0x36, 0xa7, 0xd5, 0x44, 0x31, 0xa0, 0xd2, 0x43]
    case 0x30 => [0x24, 0xb5, 0xc7, 0x56, 0x23, 0xb2, 0xc0, 0x51]
    case 0x38 => [0x2a, 0xbb, 0xc9, 0x58, 0x2d, 0xbc, 0xce, 0x5f]
    case 0x40 => [0x70, 0xe1, 0x93, 0x02, 0x77, 0xe6, 0x94, 0x05]
    case 0x48 => [0x7e, 0xef, 0x9d, 0x0c, 0x79, 0xe8, 0x9a, 0x0b]
    case 0x50 => [0x6c, 0xfd, 0x8f, 0x1e, 0x6b, 0xfa, 0x88, 0x19]
    case 0x58 => [0x62, 0xf3, 0x81, 0x10, 0x65, 0xf4, 0x86, 0x17]
    case 0x60 => [0x48, 0xd9, 0xab, 0x3a, 0x4f, 0xde, 0xac, 0x3d]
    case 0x68 => [0x46, 0xd7, 0xa5, 0x34, 0x41, 0xd0, 0xa2, 0x33]
    case 0x70 => [0x54, 0xc5, 0xb7, 0x26, 0x53, 0xc2, 0xb0, 0x21]
    case 0x78 => [0x5a, 0xcb, 0xb9, 0x28, 0x5d, 0xcc, 0xbe, 0x2f]
    case 0x80 => [0xe0, 0x71, 0x03, 0x92, 0xe7, 0x76, 0x04, 0x95]
    case 0x88 => [0xee, 0x7f, 0x0d, 0x9c, 0xe9, 0x78, 0x0a, 0x9b]
    case 0x90 => [0xfc, 0x6d, 0x1f, 0x8e, 0xfb, 0x6a, 0x18, 0x89]
    case 0x98 => [0xf2, 0x63, 0x11, 0x80, 0xf5, 0x64, 0x16, 0x87]
    case 0xa0 => [0xd8, 0x49, 0x3b, 0xaa, 0xdf, 0x4e, 0x3c, 0xad]
    case 0xa8 => [0xd6, 0x47, 0x35, 0xa4, 0xd1, 0x40, 0x32, 0xa3]
    case 0xb0 => [0xc4, 0x55, 0x27, 0xb6, 0xc3, 0x52, 0x20, 0xb1]
    case 0xb8 => [0xca, 0x5b, 0x29, 0xb8, 0xcd, 0x5c, 0x2e, 0xbf]
    case 0xc0 => [0x90, 0x01, 0x73, 0xe2, 0x97, 0x06, 0x74, 0xe5]
    case 0xc8 => [0x9e, 0x0f, 0x7d, 0xec, 0x99, 0x08, 0x7a, 0xeb]
    case 0xd0 => [0x8c, 0x1d, 0x6f, 0xfe, 0x8b, 0x1a, 0x68, 0xf9]
    case 0xd8 => [0x82, 0x13, 0x61, 0xf0, 0x85, 0x14, 0x66, 0xf7]
    case 0xe0 => [0xa8, 0x39, 0x4b, 0xda, 0xaf, 0x3e, 0x4c, 0xdd]
    case 0xe8 => [0xa6, 0x37, 0x45, 0xd4, 0xa1, 0x30, 0x42, 0xd3]
    case 0xf0 => [0xb4, 0x25, 0x57, 0xc6, 0xb3, 0x22, 0x50, 0xc1]
    case _ => [0xba, 0x2b, 0x59, 0xc8, 0xbd, 0x2c, 0x5e, 0xcf]
  }

  /** The table in class SpaceWire (include/DataLinkLayer.h:300-333). */
  function DataLinkRow(high: bv8): (row: seq<bv8>)
    ensures |row| == 8
  {
    match high
    case 0x00 => [0x00, 0x91, 0xe3, 0x72, 0x07, 0x96, 0xe4, 0x75]
    case 0x08 => [0x0e, 0x9f, 0xed, 0x7c, 0x09, 0x98, 0xea, 0x7b]
    case 0x10 => [0x1c, 0x8d, 0xff, 0x6e, 0x1b, 0x8a, 0xf8, 0x69]
    case 0x18 => [0x12, 0x83, 0xf1, 0x60, 0x15, 0x84, 0xf6, 0x67]
    case 0x20 => [0x38, 0xa9, 0xdb, 0x4a, 0x3f, 0xae, 0xdc, 0x4d]
    case 0x28 => [0x36, 0xa7, 0xd5, 0x44, 0x31, 0xa0, 0xd2, 0x43]
    case 0x30 => [0x24, 0xb5, 0xc7, 0x56, 0x23, 0xb2, 0xc0, 0x51]
    case 0x38 => [0x2a, 0xbb, 0xc9, 0x58, 0x2d, 0xbc, 0xce, 0x5f]
    case 0x40 => [0x70, 0xe1, 0x93, 0x02, 0x77, 0xe6, 0x94, 0x05]
    case 0x48 => [0x7e, 0xef, 0x9d, 0x0c, 0x79, 0xe8, 0x9a, 0x0b]
    case 0x50 => [0x6c, 0xfd, 0x8f, 0x1e, 0x6b, 0xfa, 0x88, 0x19]
    case 0x58 => [0x62, 0xf3, 0x81, 0x10, 0x65, 0xf4, 0x86, 0x17]
    case 0x60 => [0x48, 0xd9, 0xab, 0x3a, 0x4f, 0xde, 0xac, 0x3d]
    case 0x68 => [0x46, 0xd7, 0xa5, 0x34, 0x41, 0xd0, 0xa2, 0x33]
    case 0x70 => [0x54, 0xc5, 0xb7, 0x26, 0x53, 0xc2, 0xb0, 0x21]
    case 0x78 => [0x5a, 0xcb, 0xb9, 0x28, 0x5d, 0xcc, 0xbe, 0x2f]
    case 0x80 => [0xe0, 0x71, 0x03, 0x92, 0xe7, 0x76, 0x04, 0x95]
    case 0x88 => [0xee, 0x7f, 0x0d, 0x9c, 0xe9, 0x78, 0x0a, 0x9b]
    case 0x90 => [0xfc, 0x6d, 0x1f, 0x8e, 0xfb, 0x6a, 0x18, 0x89]
    case 0x98 => [0xf2, 0x63, 0x11, 0x80, 0xf5, 0x64, 0x16, 0x87]
    case 0xa0 => [0xd8, 0x49, 0x3b, 0xaa, 0xdf, 0x4e, 0x3c, 0xad]
    case 0xa8 => [0xd6, 0x47, 0x35, 0xa4, 0xd1, 0x40, 0x32, 0xa3]
    case 0xb0 => [0xc4, 0x55, 0x27, 0xb6, 0xc3, 0x52, 0x20, 0xb1]
    case 0xb8 => [0xca, 0x5b, 0x29, 0xb8, 0xcd, 0x5c, 0x2e, 0xbf]
    case 0xc0 => [0x90, 0x01, 0x73, 0xe2, 0x97, 0x06, 0x74, 0xe5]
    case 0xc8 => [0x9e, 0x0f, 0x7d, 0xec, 0x99, 0x08, 0x7a, 0xeb]
    case 0xd0 => [0x8c, 0x1d, 0x6f, 0xfe, 0x8b, 0x1a, 0x68, 0xf9]
    case 0xd8 => [0x82, 0x13, 0x61, 0xf0, 0x85, 0x14, 0x66, 0xf7]
    case 0xe0 => [0xa8, 0x39, 0x4b, 0xda, 0xaf, 0x3e, 0x4c, 0xdd]
    case 0xe8 => [0xa6, 0x37, 0x45, 0xd4, 0xa1, 0x30, 0x42, 0xd3]
    case 0xf0 => [0xb4, 0x25, 0x57, 0xc6, 0xb3, 0x22, 0x50, 0xc1]
    case _ => [0xba, 0x2b, 0x59, 0xc8, 0xbd, 0x2c, 0x5e, 0xcf]
  }

  function Column(k: bv8): (c: int)
    ensures 0 <= c < 8
  {
    if k < 8 then k as int else 0
  }

  function UtilitiesTable(b: bv8): bv8 {
    UtilitiesRow(b & 0xf8)[Column(b & 7)]
  }

  function DataLinkTable(b: bv8): bv8 {
    DataLinkRow(b & 0xf8)[Column(b & 7)]
  }

  // ---- the standard's code, one bit at a time ----

  /** The generator x^8 + x^2 + x + 1 with its coefficients reflected, bits being sent least significant first. */
  const GENERATOR: bv8 := 0xE0

  function Xor(a: bv8, b: bv8): bv8 { a ^ b }

  function Bit(b: bv8, i: bv3): bv8 { (b >> i) & 1 }

  /** One clock of the shift register, fed with one bit. */
  function Clock(crc: bv8, bit: bv8): bv8 {
    if (crc ^ bit) & 1 == 1 then (crc >> 1) ^ GENERATOR else crc >> 1
  }

  /** A byte goes in least significant bit first. */
  function Feed(crc: bv8, b: bv8): bv8 {
    Clock(Clock(Clock(Clock(Clock(Clock(Clock(Clock(crc, Bit(b, 0)), Bit(b, 1)), Bit(b, 2)), Bit(b, 3)),
                            Bit(b, 4)), Bit(b, 5)), Bit(b, 6)), Bit(b, 7))
  }

  function FeedAll(crc: bv8, data: seq<bv8>): bv8
    decreases |data|
  {
    if data == [] then crc else FeedAll(Feed(crc, data[0]), data[1..])
  }

  /** The code of a byte string. */
  function Crc(data: seq<bv8>): bv8 { FeedAll(0, data) }

  // ---- its algebra ----

  /** What bits 2 to 7 of register and input add: 7 each, in their place. */
  function High(x: bv8): bv8 { (x >> 2) ^ ((x >> 2) << 1) ^ ((x >> 2) << 2) }

  /** What bits 0 and 1 add. */
  function Low(x: bv8): bv8 { (if x & 1 == 1 then 0x91 else 0) ^ (if x & 2 == 2 then 0xe3 else 0) }

  function Sum(x: bv8): bv8 { High(x) ^ Low(x) }

  /** Four clocks at once. */
  function Nibble(c: bv8, b: bv8): bv8 {
    (c >> 4) ^ (if (c ^ b) & 1 == 1 then 0x1c else 0) ^ (if (c ^ b) & 2 == 2 then 0x38 else 0)
    ^ (if (c ^ b) & 4 == 4 then 0x70 else 0) ^ (if (c ^ b) & 8 == 8 then 0xe0 else 0)
  }

  lemma FourClocks(c: bv8, b: bv8)
    ensures Clock(Clock(Clock(Clock(c, Bit(b, 0)), Bit(b, 1)), Bit(b, 2)), Bit(b, 3)) == Nibble(c, b)
  {
  }

  lemma TwoNibbles(c: bv8, b: bv8)
    ensures Nibble(Nibble(c, b), b >> 4) == Sum(c ^ b)
  {
  }

  lemma HighBits(b: bv8)
    ensures Bit(b >> 4, 0) == Bit(b, 4) && Bit(b >> 4, 1) == Bit(b, 5) && Bit(b >> 4, 2) == Bit(b, 6) && Bit(b >> 4, 3) == Bit(b, 7)
  {
  }

  lemma FeedIsSum(c: bv8, b: bv8)
    ensures Feed(c, b) == Sum(Xor(c, b))
  {
    FourClocks(c, b);
    HighBits(b);
    FourClocks(Nibble(c, b), b >> 4);
    TwoNibbles(c, b);
    hide Nibble, Sum, Bit, Clock;
  }

  lemma HighLinear(a: bv8, b: bv8)
    ensures High(a ^ b) == High(a) ^ High(b)
  {
  }

  lemma LowLinear(a: bv8, b: bv8)
    ensures Low(a ^ b) == Low(a) ^ Low(b)
  {
  }

  lemma XorSwap(a: bv8, b: bv8, c: bv8, d: bv8)
    ensures (a ^ b) ^ (c ^ d) == (a ^ c) ^ (b ^ d)
  {
  }

  lemma SumLinear(a: bv8, b: bv8)
    ensures Sum(a ^ b) == Sum(a) ^ Sum(b)
  {
    HighLinear(a, b);
    LowLinear(a, b);
    hide High, Low;
    XorSwap(High(a), High(b), Low(a), Low(b));
  }

  /** Register and input may be split over xor together. */
  lemma FeedLinear(c: bv8, d: bv8, a: bv8, b: bv8)
    ensures Feed(Xor(c, d), Xor(a, b)) == Xor(Feed(c, a), Feed(d, b))
  {
    hide Feed, Sum;
    FeedIsSum(c, a);
    FeedIsSum(d, b);
    FeedIsSum(c ^ d, a ^ b);
    XorSwap(c, d, a, b);
    SumLinear(c ^ a, d ^ b);
  }

  lemma XorTwice(a: bv8, b: bv8)
    ensures Xor(a, Xor(a, b)) == b && Xor(a, 0) == a && Xor(0, a) == a && Xor(a, a) == 0
    ensures Xor(a, b) == 0 ==> a == b
    ensures Xor(a, b) == a ==> b == 0
  {
  }

  lemma SumZero(x: bv8)
    ensures Sum(x) == 0 <==> x == 0
  {
  }

  /** A byte of zeros keeps the register from becoming, or ceasing to be, zero; so does zero fed with a byte. */
  lemma FeedZero(c: bv8)
    ensures Feed(c, 0) == 0 <==> c == 0
    ensures Feed(0, c) == 0 <==> c == 0
    ensures Feed(c, c) == 0
  {
    hide Feed, Xor;
    FeedIsSum(c, 0);
    FeedIsSum(0, c);
    FeedIsSum(c, c);
    XorTwice(c, 0);
    SumZero(c);
    SumZero(0);
    hide Sum;
  }

  function XorAll(a: seq<bv8>, b: seq<bv8>): (r: seq<bv8>)
    requires |a| == |b|
    ensures |r| == |a|
  {
    seq(|a|, i requires 0 <= i < |a| => Xor(a[i], b[i]))
  }

  lemma {:induction false} FeedAllLinear(c: bv8, d: bv8, a: seq<bv8>, b: seq<bv8>)
    requires |a| == |b|
    ensures FeedAll(Xor(c, d), XorAll(a, b)) == Xor(FeedAll(c, a), FeedAll(d, b))
    decreases |a|
  {
    hide Feed, Xor;
    if a != [] {
      FeedLinear(c, d, a[0], b[0]);
      assert XorAll(a, b)[1..] == XorAll(a[1..], b[1..]);
      FeedAllLinear(Feed(c, a[0]), Feed(d, b[0]), a[1..], b[1..]);
    }
  }

  /** The code of a difference is the difference of the codes. */
  lemma CrcLinear(a: seq<bv8>, b: seq<bv8>)
    requires |a| == |b|
    ensures Crc(XorAll(a, b)) == Xor(Crc(a), Crc(b))
  {
    FeedAllLinear(0, 0, a, b);
    hide FeedAll;
  }

  lemma {:induction false} FeedAllAppend(c: bv8, a: seq<bv8>, b: seq<bv8>)
    ensures FeedAll(c, a + b) == FeedAll(FeedAll(c, a), b)
    decreases |a|
  {
    hide Feed;
    if a == [] {
      assert a + b == b;
    } else {
      assert (a + b)[1..] == a[1..] + b;
      FeedAllAppend(Feed(c, a[0]), a[1..], b);
    }
  }

  /** A field followed by its own code has code zero: what a receiver checks. */
  lemma CodeWordIsZero(data: seq<bv8>)
    ensures Crc(data + [Crc(data)]) == 0
  {
    hide Feed;
    FeedAllAppend(0, data, [Crc(data)]);
    FeedZero(Crc(data));
    assert [Crc(data)][1..] == [];
  }

  // ---- the errors it detects ----

  predicate Odd(a: bool, b: bool) { a != b }

  /** Whether a byte has an odd number of one bits. */
  predicate Parity(a: bv8) {
    Odd(Odd(Odd(a & 1 == 1, a & 2 == 2), Odd(a & 4 == 4, a & 8 == 8)),
        Odd(Odd(a & 16 == 16, a & 32 == 32), Odd(a & 64 == 64, a & 128 == 128)))
  }

  function One(b: bool): nat { if b then 1 else 0 }

  function Ones(a: bv8): nat {
    One(a & 1 == 1) + One(a & 2 == 2) + One(a & 4 == 4) + One(a & 8 == 8)
    + One(a & 16 == 16) + One(a & 32 == 32) + One(a & 64 == 64) + One(a & 128 == 128)
  }

  /** The number of one bits in a byte string: as a pattern of errors, the number of bits flipped. */
  function Flips(data: seq<bv8>): nat {
    if data == [] then 0 else Ones(data[0]) + Flips(data[1..])
  }

  lemma ParityOfOnes(a: bv8)
    ensures Parity(a) <==> Ones(a) % 2 == 1
  {
  }

  lemma ParityLinear(a: bv8, b: bv8)
    ensures Parity(Xor(a, b)) == Odd(Parity(a), Parity(b))
  {
  }

  lemma SumParity(x: bv8)
    ensures Parity(Sum(x)) == Parity(x)
  {
  }

  lemma {:induction false} FeedAllParity(c: bv8, data: seq<bv8>)
    ensures Parity(FeedAll(c, data)) == Odd(Parity(c), Flips(data) % 2 == 1)
    decreases |data|
  {
    hide Feed, Parity, Ones, Sum, Xor;
    if data != [] {
      FeedIsSum(c, data[0]);
      SumParity(Xor(c, data[0]));
      ParityLinear(c, data[0]);
      ParityOfOnes(data[0]);
      FeedAllParity(Feed(c, data[0]), data[1..]);
    }
  }

  /** Flipping an odd number of bits anywhere changes the code. */
  lemma OddErrorsDetected(data: seq<bv8>, error: seq<bv8>)
    requires |error| == |data| && Flips(error) % 2 == 1
    ensures Crc(XorAll(data, error)) != Crc(data)
  {
    CrcLinear(data, error);
    FeedAllParity(0, error);
    assert !Parity(0);
    hide FeedAll, Parity, Xor;
    XorTwice(Crc(data), Crc(error));
  }

  /** error is pattern p laid over at most 8 consecutive bits, in the order sent, from bit s of byte i on. */
  ghost predicate Burst(error: seq<bv8>, i: nat, s: bv8, p: bv8) {
    && i < |error| && s < 8 && p != 0
    && (forall j :: 0 <= j < |error| ==> error[j] == if j == i then p << s else if j == i + 1 then p >> (8 - s) else 0)
    && (i + 1 == |error| ==> p >> (8 - s) == 0)
  }

  lemma TwoBytes(s: bv8, p: bv8)
    requires s < 8 && p != 0
    ensures Sum(Xor(Sum(p << s), p >> (8 - s))) != 0
    ensures p >> (8 - s) == 0 ==> p << s != 0
  {
  }

  lemma {:induction false} Quiet(c: bv8, data: seq<bv8>)
    requires forall j :: 0 <= j < |data| ==> data[j] == 0
    ensures FeedAll(c, data) == 0 <==> c == 0
    decreases |data|
  {
    hide Feed;
    if data != [] {
      FeedZero(c);
      Quiet(Feed(c, data[0]), data[1..]);
    }
  }

  lemma {:induction false} BurstCode(error: seq<bv8>, i: nat, s: bv8, p: bv8)
    requires Burst(error, i, s, p)
    ensures Crc(error) != 0
  {
    hide Feed, Sum, Xor;
    var c := Feed(0, error[0]);
    if i > 0 {
      FeedZero(0);
      BurstCode(error[1..], i - 1, s, p);
    } else {
      TwoBytes(s, p);
      FeedZero(p << s);
      assert Crc(error) == FeedAll(c, error[1..]);
      if |error| == 1 {
        assert error[1..] == [];
      } else {
        FeedIsSum(0, p << s);
        XorTwice(p << s, 0);
        FeedIsSum(c, error[1]);
        assert error[1..][0] == error[1];
        forall j | 0 <= j < |error| - 2 ensures error[1..][1..][j] == 0 {
          assert error[1..][1..][j] == error[j + 2];
        }
        Quiet(Feed(c, error[1]), error[1..][1..]);
      }
    }
  }

  /** Any error confined to 8 consecutive bits changes the code. */
  lemma BurstsDetected(data: seq<bv8>, error: seq<bv8>, i: nat, s: bv8, p: bv8)
    requires |error| == |data| && Burst(error, i, s, p)
    ensures Crc(XorAll(data, error)) != Crc(data)
  {
    hide FeedAll, Xor;
    CrcLinear(data, error);
    BurstCode(error, i, s, p);
    XorTwice(Crc(data), Crc(error));
  }

  // ---- the tables are the bit-serial code ----

  /** The row of either copy that starts at index first holds the codes of the indices. */
  ghost predicate RowIs(first: bv8) {
    && DataLinkRow(first) == [Sum(first), Sum(first | 1), Sum(first | 2), Sum(first | 3),
                              Sum(first | 4), Sum(first | 5), Sum(first | 6), Sum(first | 7)]
    && UtilitiesRow(first) == DataLinkRow(first)
  }

  lemma Rows00()
    ensures RowIs(0x00) && RowIs(0x08) && RowIs(0x10) && RowIs(0x18)
  {
  }

  lemma Rows20()
    ensures RowIs(0x20) && RowIs(0x28) && RowIs(0x30) && RowIs(0x38)
  {
  }

  lemma Rows40()
    ensures RowIs(0x40) && RowIs(0x48) && RowIs(0x50) && RowIs(0x58)
  {
  }

  lemma Rows60()
    ensures RowIs(0x60) && RowIs(0x68) && RowIs(0x70) && RowIs(0x78)
  {
  }

  lemma Rows80()
    ensures RowIs(0x80) && RowIs(0x88) && RowIs(0x90) && RowIs(0x98)
  {
  }

  lemma Rowsa0()
    ensures RowIs(0xa0) && RowIs(0xa8)
  {
  }

  lemma Rowsb0()
    ensures RowIs(0xb0) && RowIs(0xb8)
  {
  }

  lemma Rowsc0()
    ensures RowIs(0xc0) && RowIs(0xc8)
  {
  }

  lemma Rowsd0()
    ensures RowIs(0xd0) && RowIs(0xd8)
  {
  }

  lemma Rowse0()
    ensures RowIs(0xe0) && RowIs(0xe8)
  {
  }

  lemma Rowsf0()
    ensures RowIs(0xf0) && RowIs(0xf8)
  {
  }

  lemma EveryRow(high: bv8)
    requires high & 7 == 0
    ensures RowIs(high)
  {
    Rows00();
    Rows20();
    Rows40();
    Rows60();
    Rows80();
    Rowsa0();
    Rowsb0();
    Rowsc0();
    Rowsd0();
    Rowse0();
    Rowsf0();
    hide RowIs;
  }

  lemma ColumnIs(row: seq<bv8>, high: bv8, k: bv8)
    requires k < 8
    requires row == [Sum(high), Sum(high | 1), Sum(high | 2), Sum(high | 3),
                     Sum(high | 4), Sum(high | 5), Sum(high | 6), Sum(high | 7)]
    ensures row[Column(k)] == Sum(high | k)
  {
    hide Sum;
    assert high | 0 == high;
  }

  /** Every entry of both tables is the code of its index. */
  lemma TableIsCode(x: bv8)
    ensures DataLinkTable(x) == Feed(0, x) == UtilitiesTable(x)
  {
    hide Feed, Sum, DataLinkRow, UtilitiesRow;
    EveryRow(x & 0xf8);
    ColumnIs(DataLinkRow(x & 0xf8), x & 0xf8, x & 7);
    assert (x & 0xf8) | (x & 7) == x;
    FeedIsSum(0, x);
  }

  // ---- the loops over the tables ----

  function Bits(data: seq<Byte>): (r: seq<bv8>)
    ensures |r| == |data|
  {
    seq(|data|, i requires 0 <= i < |data| => data[i] as bv8)
  }

  /** The standard's code of a string of bytes. */
  function Code(data: seq<Byte>): Byte { Crc(Bits(data)) as int }

  lemma CrcGrows(data: seq<Byte>, i: nat)
    requires i < |data|
    ensures Crc(Bits(data[..i + 1])) == Feed(0, Xor(Crc(Bits(data[..i])), data[i] as bv8))
  {
    hide Feed, Xor;
    var c, b := Crc(Bits(data[..i])), data[i] as bv8;
    assert Bits(data[..i + 1]) == Bits(data[..i]) + [b];
    FeedAllAppend(0, Bits(data[..i]), [b]);
    assert [b][1..] == [];
    FeedIsSum(c, b);
    FeedIsSum(0, Xor(c, b));
    XorTwice(Xor(c, b), 0);
  }

  /** spw_calculate_crc_uint_F. */
  method CalculateCrcF(data: seq<Byte>) returns (crc: Byte)
    ensures crc == Code(data)
  {
    hide Crc, Feed, Xor, DataLinkTable, UtilitiesTable;
    var register: bv8 := 0;
    NothingYet(data);
    for i := 0 to |data|
      invariant register == Crc(Bits(data[..i]))
    {
      CrcGrows(data, i);
      TableIsCode(Xor(register, data[i] as bv8));
      register := UtilitiesTable(Xor(register, data[i] as bv8));
    }
    assert data[..|data|] == data;
    return register as int;
  }

  /** What SpaceWire::crc gives: only version f is supported. */
  function SpaceWireCode(version: char, data: seq<Byte>): Byte { if version == 'f' then Code(data) else 0 }

  /** SpaceWire::crc. */
  method SpaceWireCrc(version: char, data: seq<Byte>) returns (crc: Byte)
    ensures crc == SpaceWireCode(version, data)
  {
    if version != 'f' {
      return 0;
    }
    hide Crc, Feed, Xor, DataLinkTable, UtilitiesTable;
    var result: bv8 := 0;
    NothingYet(data);
    for i := 0 to |data|
      invariant result == Crc(Bits(data[..i]))
    {
      CrcGrows(data, i);
      TableIsCode(Xor(result, data[i] as bv8));
      result := DataLinkTable(Xor(result, data[i] as bv8));
    }
    assert data[..|data|] == data;
    return result as int;
  }

  lemma NothingYet(data: seq<Byte>)
    ensures Crc(Bits(data[..0])) == 0
  {
    assert Bits(data[..0]) == [];
  }

  /** On the wire as in the model: a field followed by its code has code zero. */
  lemma CheckedFieldIsZero(data: seq<Byte>)
    ensures Code(data + [Code(data)]) == 0
  {
    hide Crc;
    assert Bits(data + [Code(data)]) == Bits(data) + [Crc(Bits(data))];
    CodeWordIsZero(Bits(data));
  }
}

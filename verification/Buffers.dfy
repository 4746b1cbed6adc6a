/** Joining packets into frames and cutting frames into downlink packets (src/Buffers.cpp). */
module Buffers {
  import opened Options
  import opened Bytes
  import opened Modular
  import opened Systems

  const HEADER_SIZE: nat := 8

  function U16(v: int): nat { v % 0x1_0000 }

  function Min(a: nat, b: nat): nat { if a < b then a else b }

  // ---- PacketFramer ----

  /** The bytes of header and footer on a packet: the first of a frame may have others than the rest. */
  function Head(link: LinkLayer, first: bool): nat {
    link.staticHeader + if first then link.initialHeader else link.subsequentHeader
  }

  function Foot(link: LinkLayer, first: bool): nat {
    link.staticFooter + if first then link.initialFooter else link.subsequentFooter
  }

  /** Erasing more than the packet has is undefined, so callers must not push shorter ones. */
  predicate Strippable(link: LinkLayer, first: bool, packet: seq<Byte>) {
    |packet| >= Head(link, first) + Foot(link, first)
  }

  function Stripped(link: LinkLayer, first: bool, packet: seq<Byte>): (data: seq<Byte>)
    requires Strippable(link, first, packet)
    ensures |data| == |packet| - Head(link, first) - Foot(link, first)
  {
    packet[Head(link, first)..|packet| - Foot(link, first)]
  }

  datatype Framing = Framing(frame: seq<Byte>, done: bool, counter: nat)

  const EMPTY := Framing([], false, 0)

  /** push_to_frame; None when the frame already overflows, and shrinking the packet to fit throws. */
  function Pushed(link: LinkLayer, size: nat, f: Framing, packet: seq<Byte>): Option<Framing>
    requires Strippable(link, f.frame == [], packet)
  {
    if f.done || |f.frame| == size then Some(f)
    else
      var data := Stripped(link, f.frame == [], packet);
      if f.frame == [] || |f.frame| + |data| < size then Some(Framing(f.frame + data, f.done, f.counter + 1))
      else if |f.frame| > size then None
      else Some(Framing(f.frame + data[..size - |f.frame|], true, f.counter + 1))
  }

  class PacketFramer {
    const link: LinkLayer
    const frameSize: nat
    var frame: seq<Byte>
    var frameDone: bool
    var packetCounter: nat

    constructor (link: LinkLayer, frameSize: nat)
      ensures this.link == link && this.frameSize == frameSize && State() == EMPTY
    {
      this.link, this.frameSize := link, frameSize;
      frame, frameDone, packetCounter := [], false, 0;
    }

    function State(): Framing
      reads this
    {
      Framing(frame, frameDone, packetCounter)
    }

    method ClearFrame()
      modifies this
      ensures State() == EMPTY
    {
      frame, frameDone, packetCounter := [], false, 0;
    }

    method PushToFrame(newPacket: seq<Byte>) returns (threw: bool)
      requires Strippable(link, frame == [], newPacket)
      modifies this
      ensures threw <==> Pushed(link, frameSize, old(State()), newPacket).None?
      ensures State() == if threw then old(State()) else Pushed(link, frameSize, old(State()), newPacket).value
    {
      if frameDone || |frame| == frameSize {
        return false;
      }
      var packet := newPacket;
      if |frame| > 0 {
        var headsAndFeet := link.staticFooter + link.subsequentFooter + link.staticHeader + link.subsequentHeader;
        packet := packet[link.staticHeader..];
        packet := packet[link.subsequentHeader..];
        packet := packet[..|packet| - link.staticFooter];
        packet := packet[..|packet| - link.subsequentFooter];
        assert packet == Stripped(link, false, newPacket);
        if |frame| + |newPacket| - headsAndFeet > frameSize {
          if |frame| > frameSize {
            return true;
          }
          packet := packet[..frameSize - |frame|];
          frameDone := true;
        } else if |frame| + |newPacket| - headsAndFeet == frameSize {
          frameDone := true;
        }
      } else {
        packet := packet[link.initialHeader..];
        packet := packet[link.staticHeader..];
        packet := packet[..|packet| - link.initialFooter];
        packet := packet[..|packet| - link.staticFooter];
        assert packet == Stripped(link, true, newPacket);
      }
      frame := frame + packet;
      packetCounter := packetCounter + 1;
      return false;
    }

    method CheckFrameDone() returns (done: bool)
      ensures done <==> |frame| == frameSize
    {
      return |frame| == frameSize;
    }
  }

  // ---- pushing is taking from the joined payloads ----

  /** All payloads one after another, each stripped as it will be when its turn comes. */
  predicate AllStrippable(link: LinkLayer, joined: seq<Byte>, packets: seq<seq<Byte>>)
    decreases |packets|
  {
    packets == []
    || (Strippable(link, joined == [], packets[0])
        && AllStrippable(link, joined + Stripped(link, joined == [], packets[0]), packets[1..]))
  }

  function JoinedAfter(link: LinkLayer, joined: seq<Byte>, packets: seq<seq<Byte>>): seq<Byte>
    requires AllStrippable(link, joined, packets)
    decreases |packets|
  {
    if packets == [] then joined else JoinedAfter(link, joined + Stripped(link, joined == [], packets[0]), packets[1..])
  }

  /** The payload of the first packet that has any. */
  function FirstPayload(link: LinkLayer, packets: seq<seq<Byte>>): seq<Byte>
    requires AllStrippable(link, [], packets)
    decreases |packets|
  {
    if packets == [] then []
    else
      var data := Stripped(link, true, packets[0]);
      assert [] + data == data;
      if data != [] then data else FirstPayload(link, packets[1..])
  }

  /** A full frame refuses packets, so they need not be long enough to strip. */
  function PushAll(link: LinkLayer, size: nat, f: Framing, packets: seq<seq<Byte>>): Option<Framing>
    requires forall p :: p in packets ==> Strippable(link, true, p) && Strippable(link, false, p)
    decreases |packets|
  {
    if packets == [] then Some(f)
    else
      match Pushed(link, size, f, packets[0])
      case None => None
      case Some(g) => PushAll(link, size, g, packets[1..])
  }

  predicate BothStrippable(link: LinkLayer, packets: seq<seq<Byte>>) {
    forall p :: p in packets ==> Strippable(link, true, p) && Strippable(link, false, p)
  }

  lemma {:induction false} AllAreStrippable(link: LinkLayer, joined: seq<Byte>, packets: seq<seq<Byte>>)
    requires BothStrippable(link, packets)
    ensures AllStrippable(link, joined, packets)
    decreases |packets|
  {
    if packets != [] {
      assert packets[0] in packets;
      AllAreStrippable(link, joined + Stripped(link, joined == [], packets[0]), packets[1..]);
    }
  }

  function Take(s: seq<Byte>, n: nat): seq<Byte> { s[..Min(n, |s|)] }

  lemma {:induction false} FullStaysFull(link: LinkLayer, size: nat, f: Framing, packets: seq<seq<Byte>>)
    requires BothStrippable(link, packets) && |f.frame| == size
    ensures PushAll(link, size, f, packets) == Some(f)
    decreases |packets|
  {
    if packets != [] {
      assert packets[0] in packets;
      FullStaysFull(link, size, f, packets[1..]);
    }
  }

  lemma {:induction false} JoinedExtends(link: LinkLayer, joined: seq<Byte>, packets: seq<seq<Byte>>)
    requires AllStrippable(link, joined, packets)
    ensures joined <= JoinedAfter(link, joined, packets)
    decreases |packets|
  {
    if packets != [] {
      JoinedExtends(link, joined + Stripped(link, joined == [], packets[0]), packets[1..]);
    }
  }

  /** From a frame that has room, whatever is pushed, the frame is what fits of all the payloads. */
  lemma {:induction false} PushTakes(link: LinkLayer, size: nat, f: Framing, packets: seq<seq<Byte>>)
    requires BothStrippable(link, packets) && AllStrippable(link, f.frame, packets)
    requires !f.done && |f.frame| < size && (f.frame == [] ==> |FirstPayload(link, packets)| <= size)
    ensures PushAll(link, size, f, packets).Some?
    ensures PushAll(link, size, f, packets).value.frame == Take(JoinedAfter(link, f.frame, packets), size)
    decreases |packets|
  {
    if packets != [] {
      assert packets[0] in packets;
      var data := Stripped(link, f.frame == [], packets[0]);
      var joined := f.frame + data;
      var g := Pushed(link, size, f, packets[0]).value;
      assert g.frame == Take(joined, size);
      if |joined| < size {
        assert g.frame == joined;
        PushTakes(link, size, g, packets[1..]);
      } else {
        FullStaysFull(link, size, g, packets[1..]);
        JoinedExtends(link, joined, packets[1..]);
      }
    }
  }

  /** A frame that has overflowed throws on every further packet. */
  lemma OverflowThrows(link: LinkLayer, size: nat, f: Framing, packets: seq<seq<Byte>>)
    requires BothStrippable(link, packets) && !f.done && |f.frame| > size && packets != []
    ensures PushAll(link, size, f, packets).None?
  {
    assert packets[0] in packets;
  }

  /** Nothing truncates the first payload: too large a one overflows the frame. */
  lemma {:induction false} FirstOverflows(link: LinkLayer, size: nat, f: Framing, packets: seq<seq<Byte>>)
    requires BothStrippable(link, packets) && AllStrippable(link, [], packets)
    requires f.frame == [] && !f.done && 0 < size < |FirstPayload(link, packets)|
    ensures PushAll(link, size, f, packets).Some? ==> |PushAll(link, size, f, packets).value.frame| > size
    decreases |packets|
  {
    assert packets[0] in packets;
    var data := Stripped(link, true, packets[0]);
    var g := Pushed(link, size, f, packets[0]).value;
    assert g.frame == data;
    if data == [] {
      assert [] + data == [];
      FirstOverflows(link, size, g, packets[1..]);
    } else if packets[1..] != [] {
      OverflowThrows(link, size, g, packets[1..]);
    }
  }

  /**
   * Pushing any packets onto a cleared framer makes the first frame-size bytes of their joined payloads, the last packet
   * being cut to fit, exactly if the first payload fits a frame; and then it is full exactly when there are that many.
   */
  lemma PushIsTakeExactly(link: LinkLayer, size: nat, packets: seq<seq<Byte>>)
    requires BothStrippable(link, packets)
    ensures AllStrippable(link, [], packets)
    ensures var f := PushAll(link, size, EMPTY, packets);
      (f.Some? && f.value.frame == Take(JoinedAfter(link, [], packets), size)) <==>
      size == 0 || |FirstPayload(link, packets)| <= size
    ensures size == 0 || |FirstPayload(link, packets)| <= size ==>
              (|PushAll(link, size, EMPTY, packets).value.frame| == size <==> |JoinedAfter(link, [], packets)| >= size)
  {
    AllAreStrippable(link, [], packets);
    if size == 0 {
      FullStaysFull(link, size, EMPTY, packets);
    } else if |FirstPayload(link, packets)| <= size {
      PushTakes(link, size, EMPTY, packets);
    } else {
      FirstOverflows(link, size, EMPTY, packets);
    }
  }

  // ---- DownlinkBufferElement ----

  /** A queued element, as copied into and out of the downlink queue. */
  datatype Element = Element(
    system: Byte, packetsPerFrame: nat, index: nat, kind: BufferType, counter: nat, payload: seq<Byte>, maxPacketSize: nat
  )

  function HeaderOf(e: Element): (h: seq<Byte>)
    ensures |h| == HEADER_SIZE
  {
    [e.system] + Splat(2, e.packetsPerFrame) + Splat(2, e.index) + [TypeCode(e.kind)] + Splat(2, e.counter)
  }

  /** get_packet: an oversized element serialises to nothing. */
  function PacketOf(e: Element): seq<Byte> {
    if HEADER_SIZE + |e.payload| > e.maxPacketSize then [] else HeaderOf(e) + e.payload
  }

  /** A field of two bytes, high byte first. */
  function Field16(high: Byte, low: Byte): nat { 256 * high + low }

  lemma TwoBytes(v: nat)
    ensures |Splat(2, v)| == 2 && Field16(Splat(2, v)[0], Splat(2, v)[1]) == v % 0x1_0000
  {
    assert Splat(1, v / 256) == [(v / 256) % 256] by { assert Splat(0, v / 256 / 256) == []; }
    assert Splat(2, v) == [(v / 256) % 256] + [v % 256];
    DivisionOf(v, 256);
    DivisionOf(v / 256, 256);
    DivisionOf(v, 0x1_0000);
    var d := v / 256 / 256 - v / 0x1_0000;
    assert d * 0x1_0000 == v % 0x1_0000 - (256 * ((v / 256) % 256) + v % 256);
    MultipleInRange(d, 0x1_0000);
  }

  /**
   * A packet read back: system, count, index, kind's code and frame counter are in bytes 0, 1-2, 3-4, 5 and 6-7, numbers
   * modulo 2^16 with the high byte first, and the payload follows. An element is sent exactly if all this fits.
   */
  lemma PacketReadBack(e: Element)
    ensures var p := PacketOf(e);
      && (p != [] <==> HEADER_SIZE + |e.payload| <= e.maxPacketSize)
      && (p != [] ==>
            && |p| == HEADER_SIZE + |e.payload| && p[0] == e.system && Field16(p[1], p[2]) == e.packetsPerFrame % 0x1_0000
            && Field16(p[3], p[4]) == e.index % 0x1_0000 && p[5] == TypeCode(e.kind)
            && Field16(p[6], p[7]) == e.counter % 0x1_0000 && p[8..] == e.payload)
  {
    hide Field16, Splat;
    TwoBytes(e.packetsPerFrame);
    TwoBytes(e.index);
    TwoBytes(e.counter);
  }

  class DownlinkBufferElement {
    const system: Byte
    const maxPacketSize: nat
    var packetsPerFrame: nat
    var index: nat
    var kind: BufferType
    var counter: nat
    var payload: seq<Byte>

    constructor (system: Byte, maxPacketSize: nat)
      ensures Value() == Element(system, 1, 1, NONE, 0, [], maxPacketSize)
    {
      this.system, this.maxPacketSize := system, maxPacketSize;
      packetsPerFrame, index, kind, counter, payload := 1, 1, NONE, 0, [];
    }

    function Value(): Element
      reads this
    {
      Element(system, packetsPerFrame, index, kind, counter, payload, maxPacketSize)
    }

    /** A payload that does not fit is refused; the old one stays. */
    method SetPayload(newPayload: seq<Byte>)
      modifies this`payload
      ensures Value() == if |newPayload| + HEADER_SIZE <= maxPacketSize then old(Value()).(payload := newPayload) else old(Value())
    {
      if |newPayload| + HEADER_SIZE <= maxPacketSize {
        payload := newPayload;
      }
    }

    method GetPacket() returns (packet: seq<Byte>)
      ensures packet == PacketOf(Value())
    {
      var perFrame := SplatToNBytes(2, packetsPerFrame);
      var indexBytes := SplatToNBytes(2, index);
      var counterBytes := SplatToNBytes(2, counter);
      var header: seq<Byte> := [system];
      header := header + perFrame;
      header := header + indexBytes;
      header := header + [TypeCode(kind)];
      header := header + counterBytes;
      packet := header + payload;
      if |packet| > maxPacketSize {
        return [];
      }
    }
  }

  // ---- FramePacketizer ----

  function CeilDiv(a: nat, b: nat): nat
    requires b > 0
  {
    (a + b - 1) / b
  }

  /** What a packetizer was set up with: payloads of at most maxPacketSize - 8 bytes, packetsPerFrame of them. */
  datatype Cut = Cut(system: Byte, kind: BufferType, maxPacketSize: nat, packetsPerFrame: nat)

  predicate CutOk(z: Cut) { z.maxPacketSize > HEADER_SIZE }

  function Room(z: Cut): (m: nat)
    requires CutOk(z)
    ensures m > 0
  {
    z.maxPacketSize - HEADER_SIZE
  }

  /** The elements popped from the rest of a frame, when `left` packets were still expected of it. */
  function ElementsFrom(z: Cut, rest: seq<Byte>, left: int, counter: nat): seq<Element>
    requires CutOk(z)
    decreases |rest|
  {
    if rest == [] then []
    else
      var n := Min(|rest|, Room(z));
      [Element(z.system, U16(z.packetsPerFrame), U16(z.packetsPerFrame - (left - 1)), z.kind, counter, rest[..n], z.maxPacketSize)]
      + ElementsFrom(z, rest[n..], left - 1, counter)
  }

  class FramePacketizer {
    const system: Byte
    const kind: BufferType
    const maxPacketSize: nat
    const packetsPerFrame: nat
    var frame: seq<Byte>
    var packetsRemaining: int   // counts down modulo 2^64 in the source; only its low 16 bits are used

    /** The float quotient and ceil of the source are the integer ceiling for frame sizes below 2^24. */
    constructor (system: Byte, kind: BufferType, maxPacketSize: nat, frameSize: nat)
      requires maxPacketSize > HEADER_SIZE
      ensures Setup() == Cut(system, kind, maxPacketSize, CeilDiv(frameSize, maxPacketSize - HEADER_SIZE))
      ensures frame == [] && packetsRemaining == packetsPerFrame
    {
      this.system, this.kind, this.maxPacketSize := system, kind, maxPacketSize;
      packetsPerFrame := CeilDiv(frameSize, maxPacketSize - HEADER_SIZE);
      packetsRemaining := CeilDiv(frameSize, maxPacketSize - HEADER_SIZE);
      frame := [];
    }

    function Setup(): Cut { Cut(system, kind, maxPacketSize, packetsPerFrame) }

    method SetFrame(newFrame: seq<Byte>)
      modifies this
      ensures frame == newFrame && packetsRemaining == packetsPerFrame
    {
      frame := newFrame;
      packetsRemaining := packetsPerFrame;
    }

    method PopPayload() returns (payload: seq<Byte>)
      requires CutOk(Setup())
      modifies this
      ensures payload == old(frame)[..Min(|old(frame)|, Room(Setup()))] && payload + frame == old(frame)
      ensures frame == old(frame)[|payload|..] && packetsRemaining == old(packetsRemaining) - 1
    {
      var popSize := Min(|frame|, maxPacketSize - HEADER_SIZE);
      payload := frame[..popSize];
      frame := frame[popSize..];
      packetsRemaining := packetsRemaining - 1;
    }

    /** The next element, its frame counter still to be set; from an empty frame, one with an empty payload. */
    method PopBufferElement() returns (e: DownlinkBufferElement)
      requires CutOk(Setup())
      modifies this
      ensures fresh(e)
      ensures var n := Min(|old(frame)|, Room(Setup()));
        && e.Value() == Element(system, U16(packetsPerFrame), U16(packetsPerFrame - packetsRemaining), kind, 0, old(frame)[..n], maxPacketSize)
        && frame == old(frame)[n..] && packetsRemaining == old(packetsRemaining) - 1
      ensures old(frame) != [] ==>
                && |frame| < |old(frame)|
                && forall c :: (ElementsFrom(Setup(), old(frame), old(packetsRemaining), c) ==
                                [e.Value().(counter := c)] + ElementsFrom(Setup(), frame, packetsRemaining, c))
    {
      e := new DownlinkBufferElement(system, maxPacketSize);
      var payload := PopPayload();
      e.packetsPerFrame := U16(packetsPerFrame);
      e.index := U16(packetsPerFrame - packetsRemaining);
      e.SetPayload(payload);
      e.kind := kind;
    }

    method FrameEmptied() returns (empty: bool)
      ensures empty <==> frame == []
    {
      return |frame| == 0;
    }
  }

  // ---- what the elements of a frame are ----

  /** The k-th piece of a frame cut every m bytes. */
  function Piece(frame: seq<Byte>, m: nat, k: nat): seq<Byte>
    requires m > 0
  {
    if k * m >= |frame| then [] else frame[k * m..Min((k + 1) * m, |frame|)]
  }

  function ElementFor(z: Cut, frame: seq<Byte>, counter: nat, k: nat): Element
    requires CutOk(z)
  {
    Element(z.system, U16(z.packetsPerFrame), U16(k + 1), z.kind, counter, Piece(frame, Room(z), k), z.maxPacketSize)
  }

  lemma PieceOfRest(frame: seq<Byte>, m: nat, k: nat)
    requires m > 0 && |frame| > m
    ensures Piece(frame[m..], m, k) == Piece(frame, m, k + 1)
  {
    assert (k + 1) * m == k * m + m && (k + 2) * m == k * m + 2 * m;
    if k * m < |frame| - m {
      assert frame[m..][k * m..Min((k + 1) * m, |frame| - m)] == frame[(k + 1) * m..Min((k + 2) * m, |frame|)];
    }
  }

  lemma CeilStep(a: nat, b: nat)
    requires 0 < b < a
    ensures CeilDiv(a, b) == CeilDiv(a - b, b) + 1
  {
    DivisionOf(a - 1, b);
    DivisionOf(a + b - 1, b);
    var d := (a + b - 1) / b - (a - 1) / b - 1;
    assert d * b == (a - 1) % b - (a + b - 1) % b by {
      assert d * b == ((a + b - 1) / b) * b - ((a - 1) / b) * b - b;
    }
    MultipleInRange(d, b);
  }

  /** A frame is cut into the ceiling of its size over the room in a packet. */
  lemma {:induction false} PieceCount(z: Cut, frame: seq<Byte>, left: int, counter: nat)
    requires CutOk(z)
    ensures |ElementsFrom(z, frame, left, counter)| == CeilDiv(|frame|, Room(z))
    decreases |frame|
  {
    var m := Room(z);
    if frame == [] {
      QuotientIs(m - 1, 0, m - 1, m);
    } else if |frame| <= m {
      QuotientIs(|frame| + m - 1, 1, |frame| - 1, m);
    } else {
      CeilStep(|frame|, m);
      PieceCount(z, frame[m..], left - 1, counter);
    }
  }

  lemma QuotientIs(a: nat, q: nat, r: nat, m: nat)
    requires m > 0 && r < m && a == q * m + r
    ensures a / m == q
  {
    DivisionOf(a, m);
    assert (a / m - q) * m == r - a % m;
    MultipleInRange(a / m - q, m);
  }

  lemma {:induction false} PiecesFrom(z: Cut, frame: seq<Byte>, left: int, counter: nat, k: nat)
    requires CutOk(z) && k < |ElementsFrom(z, frame, left, counter)|
    ensures k * Room(z) < |frame|
    ensures ElementsFrom(z, frame, left, counter)[k] ==
            Element(z.system, U16(z.packetsPerFrame), U16(z.packetsPerFrame - left + k + 1), z.kind, counter,
                    Piece(frame, Room(z), k), z.maxPacketSize)
    decreases |frame|
  {
    var m := Room(z);
    if k == 0 {
      assert 0 * m == 0 && 1 * m == m;
    } else if |frame| > m {
      PiecesFrom(z, frame[m..], left - 1, counter, k - 1);
      PieceOfRest(frame, m, k - 1);
      assert k * m == (k - 1) * m + m;
    }
  }

  /** Whether es is one whole frame's worth of elements: all n of them, numbered 1 to n in order, with one counter. */
  ghost predicate WholeFrame(z: Cut, counter: nat, es: seq<Element>) {
    && |es| == z.packetsPerFrame
    && forall k :: 0 <= k < |es| ==>
         && es[k].system == z.system && es[k].kind == z.kind && es[k].counter == counter
         && es[k].packetsPerFrame == U16(z.packetsPerFrame) && es[k].index == U16(k + 1)
         && |PacketOf(es[k])| == HEADER_SIZE + |es[k].payload| <= z.maxPacketSize
  }

  /**
   * Cutting a frame of the size the packetizer was made for yields one whole frame of elements, the k-th with the k-th
   * piece; each one's packet fits.
   */
  lemma FrameIsCutWhole(z: Cut, frame: seq<Byte>, counter: nat)
    requires CutOk(z) && z.packetsPerFrame == CeilDiv(|frame|, Room(z))
    ensures var es := ElementsFrom(z, frame, z.packetsPerFrame, counter);
      WholeFrame(z, counter, es) && forall k :: 0 <= k < |es| ==> es[k] == ElementFor(z, frame, counter, k)
  {
    var es := ElementsFrom(z, frame, z.packetsPerFrame, counter);
    PieceCount(z, frame, z.packetsPerFrame, counter);
    forall k | 0 <= k < |es| ensures es[k] == ElementFor(z, frame, counter, k) && |es[k].payload| <= Room(z) {
      PiecesFrom(z, frame, z.packetsPerFrame, counter, k);
      PieceSize(frame, Room(z), k);
    }
  }

  lemma PieceSize(frame: seq<Byte>, m: nat, k: nat)
    requires m > 0
    ensures |Piece(frame, m, k)| <= m
  {
    assert (k + 1) * m == k * m + m;
  }
}

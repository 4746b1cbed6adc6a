/**
 * Reading frames from detectors' ring buffers, and sending what is queued to the ground (src/TransportLayer.cpp:396-437,
 * 693-877 and 1194-1218; the frame counters of src/Buffers.cpp:665-755).
 */
module Transport {
  import opened Options
  import opened Bytes
  import opened Systems
  import opened CommandDeck
  import opened RmapMemory
  import opened RingPointer
  import opened Buffers

  /** The bits of a system's error word that these operations touch. */
  datatype Fault =
    ReadingPacket | ReadingFrame | ReadingInvalid | WritingInvalid | FramePacketizing | PacketFraming | DownlinkBuffering
    | BufferLookup

  const READ_SOME_SIZE: nat := 4096
  const MIN_REPLY_SIZE: nat := 26
  const UPLINK: Byte := 0x05

  // ---- reading with retries ----

  /**
   * What a socket yields is a script of attempts: nothing where the attempt times out, else some bytes, never more than
   * asked for. After the script every attempt times out. The result is the reply and the rest of the script.
   */
  function Attempt(script: seq<seq<Byte>>, size: nat, tries: nat): (r: (seq<Byte>, seq<seq<Byte>>))
    ensures |r.0| <= size && |r.1| <= |script| && (r.0 != [] ==> |r.1| < |script|)
  {
    if tries == 0 || script == [] then ([], script)
    else
      var reply := script[0][..Min(size, |script[0]|)];
      if reply == [] then Attempt(script[1..], size, tries - 1) else (reply, script[1..])
  }

  function Timeouts(n: nat): seq<seq<Byte>> { seq(n, _ => []) }

  /** A reply gets through if fewer attempts time out before it than are made. */
  lemma {:induction false} AttemptSucceeds(d: nat, reply: seq<Byte>, more: seq<seq<Byte>>, size: nat, tries: nat)
    requires d < tries && 0 < |reply| <= size
    ensures Attempt(Timeouts(d) + [reply] + more, size, tries) == (reply, more)
  {
    var script := Timeouts(d) + [reply] + more;
    assert reply[..Min(size, |reply|)] == reply;
    if d == 0 {
      assert script[0] == reply && script[1..] == more;
    } else {
      assert script[1..] == Timeouts(d - 1) + [reply] + more;
      AttemptSucceeds(d - 1, reply, more, size, tries - 1);
    }
  }

  function AfterRead(faults: set<Fault>, reply: seq<Byte>): set<Fault> {
    if reply == [] then faults + {ReadingPacket} else faults - {ReadingPacket}
  }

  // ---- what a transaction works with ----

  datatype Framer = Framer(link: LinkLayer, frameSize: nat)

  datatype Setting = Setting(
    commands: seq<System>, system: System, kind: BufferType, tries: nat, framer: Option<Framer>, cut: Option<Cut>
  )

  /** Everything a transaction may change. */
  datatype Station = Station(
    sent: seq<seq<Byte>>, script: seq<seq<Byte>>, faults: set<Fault>, framing: Framing, counter: nat, queue: seq<Element>
  )

  function Payload(c: Setting): nat
    requires c.system.ethernet.Some?
  {
    c.system.ethernet.value.maxPayloadSize
  }

  /** The size a reply to a frame read must have. */
  function Expected(c: Setting): nat
    requires c.system.spacewire.Some? && c.system.ethernet.Some?
  {
    c.system.spacewire.value.link.staticFooter + c.system.spacewire.value.link.staticHeader + Payload(c)
  }

  /**
   * What the source takes for granted: an ethernet interface beside a SpaceWire one, replies that hold more than nothing
   * and no less than is stripped off them, downlink packets with room for data.
   */
  predicate SettingOk(c: Setting) {
    && (c.system.spacewire.Some? && c.framer.Some? ==>
          && c.system.ethernet.Some? && Expected(c) > 0
          && forall first :: Expected(c) >= Head(c.framer.value.link, first) + Foot(c.framer.value.link, first))
    && (c.cut.Some? ==> CutOk(c.cut.value))
  }

  /** A transaction gets as far as reading a frame. */
  predicate CanRead(c: Setting) {
    c.system.spacewire.Some? && c.kind in c.system.rings && c.framer.Some? && c.cut.Some?
  }

  /** get_read_command_for_sys_at_address: empty for a system the deck does not know as a SpaceWire one. */
  function ReadRequest(commands: seq<System>, code: Byte, address: seq<Byte>, length: nat): seq<Byte> {
    var spw := SystemFor(commands, code).spacewire;
    if spw.None? then [] else ReadCommand(spw.value, address, length)
  }

  function PointerRequest(c: Setting): seq<Byte>
    requires c.kind in c.system.rings
  {
    var p := c.system.rings[c.kind];
    ReadRequest(c.commands, c.system.hex, Splat(p.writePointerWidth, p.writePointerAddress), p.writePointerWidth)
  }

  /** The n-th read of the frame at pointer: the stride is the SpaceWire payload size, the length the ethernet one. */
  function FrameRequest(c: Setting, pointer: nat, n: nat): seq<Byte>
    requires CanRead(c) && c.system.ethernet.Some?
  {
    var address := U64(pointer + n * c.system.spacewire.value.link.maxPayloadSize);
    ReadRequest(c.commands, c.system.hex, Splat(c.system.rings[c.kind].writePointerWidth, address), Payload(c))
  }

  function CodeNamed(commands: seq<System>, name: string): Byte {
    if commands == [] then NULL_SYSTEM.hex
    else if commands[0].name == name then commands[0].hex else CodeNamed(commands[1..], name)
  }

  predicate IsCmos(c: Setting) {
    c.system.hex == CodeNamed(c.commands, "cmos1") || c.system.hex == CodeNamed(c.commands, "cmos2")
  }

  // ---- the transaction ----

  datatype FrameEnd = Complete | Short | Overflow

  function ReadFrame(c: Setting, pointer: nat, n: nat, s: Station): (Station, FrameEnd)
    requires SettingOk(c) && CanRead(c)
    decreases |s.script|
  {
    if |s.framing.frame| == c.framer.value.frameSize then (s, Complete)
    else
      var (reply, rest) := Attempt(s.script, Expected(c), c.tries);
      var t := s.(sent := s.sent + [FrameRequest(c, pointer, n)], script := rest, faults := AfterRead(s.faults, reply));
      if |reply| != Expected(c) then (t.(faults := t.faults + {ReadingPacket}), Short)
      else
        match Pushed(c.framer.value.link, c.framer.value.frameSize, s.framing, reply)
        case None => (t, Overflow)
        case Some(f) => ReadFrame(c, pointer, n + 1, t.(framing := f))
  }

  datatype Exit = Returned(pointer: nat) | Threw

  const CLEARED: set<Fault> :=
    {DownlinkBuffering, ReadingFrame, ReadingPacket, ReadingInvalid, FramePacketizing, PacketFraming}

  /** A complete frame goes to the queue in pieces under the counter of its turn, and all is made ready for the next. */
  function Queued(c: Setting, s: Station): Station
    requires c.cut.Some? && CutOk(c.cut.value)
  {
    var z := c.cut.value;
    s.(queue := s.queue + ElementsFrom(z, s.framing.frame, z.packetsPerFrame, s.counter),
       counter := U16(s.counter + 1), framing := EMPTY, faults := s.faults - CLEARED)
  }

  function WithPointer(c: Setting, s: Station, pointer: nat, prior: nat): (Station, Exit)
    requires SettingOk(c) && c.system.spacewire.Some? && c.kind in c.system.rings
  {
    if c.cut.None? then (s.(faults := s.faults + {BufferLookup} + {FramePacketizing}), Returned(prior))
    else if c.framer.None? then (s.(faults := s.faults + {BufferLookup} + {PacketFraming}), Returned(prior))
    else if pointer == prior then (s, Returned(prior))
    else
      var (t, end) := ReadFrame(c, pointer, 0, s);
      match end
      case Short => (t, Returned(prior))
      case Overflow => (t, Threw)
      case Complete => (Queued(c, t), Returned(pointer))
  }

  function PointerFrom(c: Setting, data: seq<Byte>): nat
    requires c.kind in c.system.rings && |data| == 4
  {
    FrameAddress(c.system, c.kind, Unsplat4(if IsCmos(c) then SwapEndian4(data) else data))
  }

  // ---- what the pointer's four bytes mean ----

  function BigEndian(b: seq<Byte>): nat
    requires |b| == 4
  {
    var b0: nat, b1: nat, b2: nat, b3: nat := b[0], b[1], b[2], b[3];
    0x100_0000 * b0 + 0x1_0000 * b1 + 0x100 * b2 + b3
  }

  function LittleEndian(b: seq<Byte>): nat
    requires |b| == 4
  {
    var b0: nat, b1: nat, b2: nat, b3: nat := b[0], b[1], b[2], b[3];
    b0 + 0x100 * b1 + 0x1_0000 * b2 + 0x100_0000 * b3
  }

  /** The deck's first system of a name has the code, or the deck has none of that name and the code is the null system's. */
  ghost predicate Called(commands: seq<System>, code: Byte, name: string) {
    || (exists i :: 0 <= i < |commands| && commands[i].name == name && commands[i].hex == code
                    && forall j :: 0 <= j < i ==> commands[j].name != name)
    || (code == 0xff && forall i :: 0 <= i < |commands| ==> commands[i].name != name)
  }

  /** The cmos cameras store their pointers low byte first. */
  ghost predicate IsCamera(c: Setting) {
    Called(c.commands, c.system.hex, "cmos1") || Called(c.commands, c.system.hex, "cmos2")
  }

  /**
   * Where the frame is that four stored bytes announce: at the number they denote; for cdte systems, where that is the
   * number of the frame being written, one frame before it, the ring's last being before its first.
   */
  ghost predicate Announces(c: Setting, b: seq<Byte>, address: nat)
    requires c.kind in c.system.rings && |b| == 4
  {
    var p, v := c.system.rings[c.kind], if IsCamera(c) then LittleEndian(b) else BigEndian(b);
    if !Contains(c.system.name, "cdte") then address == v
    else if v == p.startAddress then address == (v + (p.framesPerRing - 1) * p.frameSize) % 0x1_0000_0000_0000_0000
    else address == (v - p.frameSize) % 0x1_0000_0000_0000_0000
  }

  lemma {:induction false} CodeNamedIs(commands: seq<System>, name: string, code: Byte)
    ensures CodeNamed(commands, name) == code <==> Called(commands, code, name)
  {
    if commands == [] {
    } else if commands[0].name == name {
      assert CodeNamed(commands, name) == commands[0].hex;
    } else {
      CodeNamedIs(commands[1..], name, code);
      CalledLater(commands, code, name);
    }
  }

  lemma CalledLater(commands: seq<System>, code: Byte, name: string)
    requires commands != [] && commands[0].name != name
    ensures Called(commands, code, name) <==> Called(commands[1..], code, name)
  {
    var rest := commands[1..];
    forall i | 0 <= i < |rest| ensures rest[i] == commands[i + 1] {
    }
    if i :| 0 <= i < |rest| && rest[i].name == name && rest[i].hex == code && forall j :: 0 <= j < i ==> rest[j].name != name {
      assert commands[i + 1].name == name;
      forall j | 0 <= j < i + 1 ensures commands[j].name != name {
        if j > 0 { assert rest[j - 1].name != name; }
      }
    }
    if i :| 0 <= i < |commands| && commands[i].name == name && commands[i].hex == code
            && forall j :: 0 <= j < i ==> commands[j].name != name {
      assert rest[i - 1].name == name;
      forall j | 0 <= j < i - 1 ensures rest[j].name != name { assert commands[j + 1].name != name; }
    }
    if forall i :: 0 <= i < |rest| ==> rest[i].name != name {
      forall i | 0 <= i < |commands| ensures commands[i].name != name {
        if i > 0 { assert rest[i - 1].name != name; }
      }
    }
  }

  /** With names and codes all different, the cameras are the systems named so. */
  lemma CamerasByName(c: Setting)
    requires c.system in c.commands && c.system.hex != 0xff
    requires forall i, j :: 0 <= i < j < |c.commands| ==>
               c.commands[i].name != c.commands[j].name && c.commands[i].hex != c.commands[j].hex
    ensures IsCamera(c) <==> c.system.name == "cmos1" || c.system.name == "cmos2"
  {
    var k :| 0 <= k < |c.commands| && c.commands[k] == c.system;
    forall i | 0 <= i < |c.commands| && i != k ensures c.commands[i].hex != c.commands[k].hex {
      OthersDiffer(c.commands, i, k);
    }
    forall i | 0 <= i < k ensures c.commands[i].name != c.commands[k].name {
    }
  }

  lemma OthersDiffer(commands: seq<System>, i: nat, k: nat)
    requires i < |commands| && k < |commands| && i != k
    requires forall i, j :: 0 <= i < j < |commands| ==>
               commands[i].name != commands[j].name && commands[i].hex != commands[j].hex
    ensures commands[i].hex != commands[k].hex
  {
    var lower, upper := if i < k then i else k, if i < k then k else i;
    assert commands[lower].hex != commands[upper].hex;
  }

  lemma BytesDenote(b: seq<Byte>)
    requires |b| == 4
    ensures Unsplat4(b) == BigEndian(b) && Unsplat4(SwapEndian4(b)) == LittleEndian(b)
  {
    PowersOf256();
    assert b[..4] == b && SwapEndian4(b)[..4] == SwapEndian4(b);
    Value4(b);
    Value4(SwapEndian4(b));
    hide Value, Pow256;
  }

  lemma PowersOf256()
    ensures Pow256(0) == 1 && Pow256(1) == 0x100 && Pow256(2) == 0x1_0000 && Pow256(3) == 0x100_0000
  {
  }

  /** The pointer a poll works with is what the bytes announce. */
  lemma PointerIsAnnounced(c: Setting, b: seq<Byte>)
    requires c.kind in c.system.rings && |b| == 4
    ensures Announces(c, b, PointerFrom(c, b))
    ensures forall address :: Announces(c, b, address) ==> address == PointerFrom(c, b)
  {
    CodeNamedIs(c.commands, "cmos1", c.system.hex);
    CodeNamedIs(c.commands, "cmos2", c.system.hex);
    BytesDenote(b);
    hide Called, CodeNamed, Unsplat4, SwapEndian4, BigEndian, LittleEndian, Contains;
  }

  /** The pointer's own read: None when what comes back is too short or not a four-byte field. */
  function ReadPointerField(c: Setting, s: Station): (r: (Station, Option<seq<Byte>>))
    requires c.kind in c.system.rings
    ensures r.1.Some? ==> |r.1.value| == 4
  {
    var (reply, rest) := Attempt(s.script, READ_SOME_SIZE, c.tries);
    var t := s.(sent := s.sent + [PointerRequest(c)], script := rest, faults := AfterRead(s.faults, reply));
    if |reply| < MIN_REPLY_SIZE || |ReplyData(reply)| != 4 then (t.(faults := t.faults + {ReadingInvalid}), None)
    else (t, Some(ReplyData(reply)))
  }

  /** sync_remote_buffer_transaction, exit by exit. */
  function Transaction(c: Setting, s: Station, prior: nat): (Station, Exit)
    requires SettingOk(c)
  {
    if c.system.spacewire.None? || |c.system.rings| < TypeCode(c.kind) then (s, Returned(prior))
    else if c.kind !in c.system.rings then (s, Threw)
    else
      var (t, data) := ReadPointerField(c, s);
      if data.None? then (t, Returned(prior)) else WithPointer(c, t, PointerFrom(c, data.value), prior)
  }

  lemma NothingLeft(z: Cut, left: int, counter: nat)
    requires CutOk(z)
    ensures ElementsFrom(z, [], left, counter) == []
  {
  }

  // ---- draining the queue ----

  const NO_ELEMENT := Element(0, 1, 1, NONE, 0, [], 0)

  /** The datagrams sent, what is left queued, and whether an element stopped the draining. */
  datatype Drain = Drain(packets: seq<seq<Byte>>, rest: seq<Element>, stopped: bool)

  function Drained(queue: seq<Element>): Drain {
    if queue == [] then Drain([], [], false)
    else if queue[0].system == UPLINK then Drain([], queue[1..], true)
    else var d := Drained(queue[1..]); d.(packets := [PacketOf(queue[0])] + d.packets)
  }

  /**
   * Draining loses nothing and reorders nothing, with one exception: it sends the packets of the elements before the first
   * of the uplink system, leaves those after it, and drops that one.
   */
  lemma {:induction false} DrainConserves(queue: seq<Element>)
    ensures var d := Drained(queue);
      && |queue| == |d.packets| + |d.rest| + (if d.stopped then 1 else 0)
      && (forall i :: 0 <= i < |d.packets| ==> queue[i].system != UPLINK && d.packets[i] == PacketOf(queue[i]))
      && d.rest == queue[|queue| - |d.rest|..]
      && (if d.stopped then queue[|d.packets|].system == UPLINK else d.rest == [])
  {
    if queue != [] && queue[0].system != UPLINK {
      DrainConserves(queue[1..]);
    }
  }

  // ---- SystemManager ----

  class SystemManager {
    const system: System
    const retryMaxCount: nat
    var packetFramers: map<BufferType, PacketFramer>
    var framePacketizers: map<BufferType, FramePacketizer>
    var frameCounts: map<BufferType, nat>
    var errors: set<Fault>

    constructor (system: System, retryMaxCount: nat)
      ensures this.system == system && this.retryMaxCount == retryMaxCount && Valid()
      ensures packetFramers == map[] && framePacketizers == map[] && frameCounts == map[] && errors == {}
    {
      this.system, this.retryMaxCount := system, retryMaxCount;
      packetFramers, framePacketizers, frameCounts, errors := map[], map[], map[], {};
    }

    /** Each framer and packetizer has a frame counter, of 16 bits. */
    predicate Valid()
      reads this
    {
      && packetFramers.Keys + framePacketizers.Keys <= frameCounts.Keys
      && forall k :: k in frameCounts ==> frameCounts[k] < 0x1_0000
    }

    method AddFramePacketizer(kind: BufferType, fp: FramePacketizer)
      requires Valid()
      modifies this
      ensures Valid() && framePacketizers == old(framePacketizers)[kind := fp] && packetFramers == old(packetFramers)
      ensures frameCounts == if kind in old(frameCounts) then old(frameCounts) else old(frameCounts)[kind := 0]
      ensures errors == old(errors)
    {
      framePacketizers := framePacketizers[kind := fp];
      if kind !in frameCounts {
        frameCounts := frameCounts[kind := 0];
      }
    }

    method AddPacketFramer(kind: BufferType, pf: PacketFramer)
      requires Valid()
      modifies this
      ensures Valid() && packetFramers == old(packetFramers)[kind := pf] && framePacketizers == old(framePacketizers)
      ensures frameCounts == if kind in old(frameCounts) then old(frameCounts) else old(frameCounts)[kind := 0]
      ensures errors == old(errors)
    {
      packetFramers := packetFramers[kind := pf];
      if kind !in frameCounts {
        frameCounts := frameCounts[kind := 0];
      }
    }

    method GetPacketFramer(kind: BufferType) returns (pf: PacketFramer?)
      modifies this`errors
      ensures pf == if kind in packetFramers then packetFramers[kind] else null
      ensures errors == if kind in packetFramers then old(errors) else old(errors) + {BufferLookup}
    {
      if kind in packetFramers {
        return packetFramers[kind];
      }
      errors := errors + {BufferLookup};
      return null;
    }

    method GetFramePacketizer(kind: BufferType) returns (fp: FramePacketizer?)
      modifies this`errors
      ensures fp == if kind in framePacketizers then framePacketizers[kind] else null
      ensures errors == if kind in framePacketizers then old(errors) else old(errors) + {BufferLookup}
    {
      if kind in framePacketizers {
        return framePacketizers[kind];
      }
      errors := errors + {BufferLookup};
      return null;
    }

    method GetFrameCount(kind: BufferType) returns (count: nat)
      modifies this`errors
      ensures count == if kind in frameCounts then frameCounts[kind] else 0
      ensures errors == if kind in frameCounts then old(errors) else old(errors) + {BufferLookup}
    {
      if kind in frameCounts {
        return frameCounts[kind];
      }
      errors := errors + {BufferLookup};
      return 0;
    }

    method IncrementFrameCount(kind: BufferType)
      modifies this`errors, this`frameCounts
      ensures kind in old(frameCounts) ==>
                frameCounts == old(frameCounts)[kind := U16(old(frameCounts)[kind] + 1)] && errors == old(errors)
      ensures kind !in old(frameCounts) ==> frameCounts == old(frameCounts) && errors == old(errors) + {BufferLookup}
    {
      if kind in frameCounts {
        frameCounts := frameCounts[kind := U16(frameCounts[kind] + 1)];
      } else {
        errors := errors + {BufferLookup};
      }
    }
  }

  function SettingOf(commands: seq<System>, man: SystemManager, kind: BufferType): Setting
    reads man
  {
    Setting(commands, man.system, kind, man.retryMaxCount,
            if kind in man.packetFramers then Some(Framer(man.packetFramers[kind].link, man.packetFramers[kind].frameSize)) else None,
            if kind in man.framePacketizers then Some(man.framePacketizers[kind].Setup()) else None)
  }

  method GetSysCodeForName(commands: seq<System>, name: string) returns (code: Byte)
    ensures code == CodeNamed(commands, name)
  {
    for i := 0 to |commands|
      invariant CodeNamed(commands, name) == CodeNamed(commands[i..], name)
    {
      if commands[i].name == name {
        return commands[i].hex;
      }
    }
    return NULL_SYSTEM.hex;
  }

  // ---- TransportLayerMachine ----

  class TransportLayerMachine {
    const commands: seq<System>
    var sent: seq<seq<Byte>>             // to the SpaceWire bridge
    var script: seq<seq<Byte>>           // what reading from it will yield
    var downlinkBuffer: seq<Element>
    var transmitted: seq<seq<Byte>>      // to the ground

    constructor (commands: seq<System>, script: seq<seq<Byte>>)
      ensures this.commands == commands && this.script == script
      ensures sent == [] && downlinkBuffer == [] && transmitted == []
    {
      this.commands, this.script := commands, script;
      sent, downlinkBuffer, transmitted := [], [], [];
    }

    /** What the transaction of man's buffer may change. */
    function StationOf(man: SystemManager, kind: BufferType): Station
      reads this, man, if kind in man.packetFramers then {man.packetFramers[kind]} else {}
    {
      Station(sent, script, man.errors, if kind in man.packetFramers then man.packetFramers[kind].State() else EMPTY,
              if kind in man.frameCounts then man.frameCounts[kind] else 0, downlinkBuffer)
    }

    method Send(packet: seq<Byte>)
      modifies this`sent
      ensures sent == old(sent) + [packet]
    {
      sent := sent + [packet];
    }

    /** One attempt to read. */
    method SyncTcpRead(size: nat) returns (reply: seq<Byte>)
      modifies this`script
      ensures (reply, script) == Attempt(old(script), size, 1)
    {
      if script == [] {
        return [];
      }
      reply := script[0][..Min(size, |script[0]|)];
      script := script[1..];
    }

    method Read(size: nat, man: SystemManager) returns (reply: seq<Byte>)
      modifies this`script, man`errors
      ensures (reply, script) == Attempt(old(script), size, man.retryMaxCount)
      ensures man.errors == AfterRead(old(man.errors), reply)
    {
      var retryCount := 0;
      while retryCount < man.retryMaxCount
        invariant retryCount <= man.retryMaxCount && man.errors == old(man.errors)
        invariant Attempt(old(script), size, man.retryMaxCount) == Attempt(script, size, man.retryMaxCount - retryCount)
      {
        reply := SyncTcpRead(size);
        if reply != [] {
          man.errors := man.errors - {ReadingPacket};
          return;
        }
        retryCount := retryCount + 1;
      }
      man.errors := man.errors + {ReadingPacket};
      reply := [];
    }

    method ReadSome(man: SystemManager) returns (reply: seq<Byte>)
      modifies this`script, man`errors
      ensures (reply, script) == Attempt(old(script), READ_SOME_SIZE, man.retryMaxCount)
      ensures man.errors == AfterRead(old(man.errors), reply)
    {
      reply := Read(READ_SOME_SIZE, man);
    }

    method GetReadCommandForSysAtAddress(code: Byte, address: seq<Byte>, length: nat) returns (packet: seq<Byte>)
      ensures packet == ReadRequest(commands, code, address, length)
    {
      var sys := GetSysForCode(commands, code);
      if sys.spacewire.None? {
        return [];
      }
      packet := GetReadCommandAtAddress(sys.spacewire.value, address, length);
    }

    /** The loop that reads a frame; at its end the framer holds what has come. */
    method ReadFrameLoop(man: SystemManager, kind: BufferType, pf: PacketFramer, pointer: nat) returns (end: FrameEnd)
      requires kind in man.packetFramers && man.packetFramers[kind] == pf
      requires SettingOk(SettingOf(commands, man, kind)) && CanRead(SettingOf(commands, man, kind))
      modifies this`sent, this`script, man`errors, pf
      ensures (StationOf(man, kind), end) == ReadFrame(SettingOf(commands, man, kind), pointer, 0, old(StationOf(man, kind)))
    {
      hide Attempt, Pushed, AfterRead, ReadRequest, Splat;
      ghost var c := SettingOf(commands, man, kind);
      var spw, payload := man.system.spacewire.value, man.system.ethernet.value.maxPayloadSize;
      var packetCounter := 0;
      while true
        invariant SettingOf(commands, man, kind) == c
        invariant ReadFrame(c, pointer, 0, old(StationOf(man, kind))) == ReadFrame(c, pointer, packetCounter, StationOf(man, kind))
        decreases |script|
      {
        ghost var s := StationOf(man, kind);
        var done := pf.CheckFrameDone();
        if done {
          return Complete;
        }
        var address := U64(pointer + packetCounter * spw.link.maxPayloadSize);
        var addressBytes := SplatToNBytes(man.system.rings[kind].writePointerWidth, address);
        var request := GetReadCommandForSysAtAddress(man.system.hex, addressBytes, payload);
        Send(request);
        var expected := spw.link.staticFooter + spw.link.staticHeader + payload;
        var reply := Read(expected, man);
        if |reply| != expected {
          man.errors := man.errors + {ReadingPacket};
          return Short;
        }
        var threw := pf.PushToFrame(reply);
        if threw {
          return Overflow;
        }
        packetCounter := packetCounter + 1;
      }
    }

    /** Every piece of the packetizer's frame is queued, each under the frame counter. */
    method QueuePieces(man: SystemManager, kind: BufferType, fp: FramePacketizer)
      requires CutOk(fp.Setup()) && kind in man.frameCounts
      modifies this`downlinkBuffer, man`errors, fp
      ensures downlinkBuffer ==
              old(downlinkBuffer) + ElementsFrom(fp.Setup(), old(fp.frame), old(fp.packetsRemaining), man.frameCounts[kind])
      ensures man.errors == old(man.errors)
    {
      hide ElementsFrom;
      ghost var z, counter := fp.Setup(), man.frameCounts[kind];
      ghost var whole := downlinkBuffer + ElementsFrom(z, fp.frame, fp.packetsRemaining, counter);
      while true
        invariant downlinkBuffer + ElementsFrom(z, fp.frame, fp.packetsRemaining, counter) == whole
        invariant man.errors == old(man.errors)
        decreases |fp.frame|
      {
        var emptied := fp.FrameEmptied();
        if emptied {
          NothingLeft(z, fp.packetsRemaining, counter);
          return;
        }
        var e := fp.PopBufferElement();
        e.counter := man.GetFrameCount(kind);
        downlinkBuffer := downlinkBuffer + [e.Value()];
      }
    }

    /** The complete frame is queued, and counter, framer and error bits are made ready for the next. */
    method QueueFrame(man: SystemManager, kind: BufferType, pf: PacketFramer, fp: FramePacketizer)
      requires man.Valid() && CutOk(fp.Setup())
      requires kind in man.packetFramers && man.packetFramers[kind] == pf
      requires kind in man.framePacketizers && man.framePacketizers[kind] == fp
      modifies this`downlinkBuffer, man`errors, man`frameCounts, pf, fp
      ensures StationOf(man, kind) == Queued(SettingOf(commands, man, kind), old(StationOf(man, kind)))
      ensures man.frameCounts == old(man.frameCounts)[kind := U16(old(man.frameCounts)[kind] + 1)]
    {
      hide ElementsFrom;
      fp.SetFrame(pf.frame);
      QueuePieces(man, kind, fp);
      man.IncrementFrameCount(kind);
      pf.ClearFrame();
      man.errors := man.errors - CLEARED;
    }

    /** The data field of the reply to the pointer's read, unless too short or not four bytes. */
    method ReadPointerBytes(man: SystemManager, kind: BufferType) returns (data: Option<seq<Byte>>)
      requires man.system.spacewire.Some? && kind in man.system.rings
      modifies this`sent, this`script, man`errors
      ensures (StationOf(man, kind), data) == ReadPointerField(SettingOf(commands, man, kind), old(StationOf(man, kind)))
    {
      hide Attempt, AfterRead, ReadRequest, Splat, ReplyData;
      var ring := man.system.rings[kind];
      var pointerBytes := SplatToNBytes(ring.writePointerWidth, ring.writePointerAddress);
      var request := GetReadCommandForSysAtAddress(man.system.hex, pointerBytes, ring.writePointerWidth);
      assert request == PointerRequest(SettingOf(commands, man, kind));
      hide PointerRequest;
      Send(request);
      var reply := ReadSome(man);
      if |reply| < MIN_REPLY_SIZE {
        man.errors := man.errors + {ReadingInvalid};
        return None;
      }
      var field := GetReplyData(reply);
      if |field| != 4 {
        man.errors := man.errors + {ReadingInvalid};
        return None;
      }
      return Some(field);
    }

    method PointerFromBytes(man: SystemManager, kind: BufferType, data: seq<Byte>) returns (pointer: nat)
      requires kind in man.system.rings && |data| == 4
      ensures pointer == PointerFrom(SettingOf(commands, man, kind), data)
    {
      hide Contains, CodeNamed, Unsplat4, U64;
      var ring, bytes := man.system.rings[kind], data;
      var cmos1 := GetSysCodeForName(commands, "cmos1");
      var cmos2 := GetSysCodeForName(commands, "cmos2");
      if man.system.hex == cmos1 || man.system.hex == cmos2 {
        bytes := SwapEndian4(data);
      }
      pointer := UnsplatFrom4Bytes(bytes);
      if Contains(man.system.name, "cdte") {
        if pointer == ring.startAddress {
          pointer := U64(pointer + (ring.framesPerRing - 1) * ring.frameSize);
        } else {
          pointer := U64(pointer - ring.frameSize);
        }
      }
    }

    /** One poll of a ring buffer: read its write pointer and, if that has moved, the frame it names. */
    method SyncRemoteBufferTransaction(man: SystemManager, kind: BufferType, prior: nat) returns (exit: Exit)
      requires man.Valid() && SettingOk(SettingOf(commands, man, kind))
      modifies this`sent, this`script, this`downlinkBuffer, man`errors, man`frameCounts
      modifies if kind in man.packetFramers then {man.packetFramers[kind]} else {}
      modifies if kind in man.framePacketizers then {man.framePacketizers[kind]} else {}
      ensures (StationOf(man, kind), exit) == Transaction(SettingOf(commands, man, kind), old(StationOf(man, kind)), prior)
      ensures man.Valid()
      ensures forall k :: k in man.frameCounts && k != kind ==>
                k in old(man.frameCounts) && man.frameCounts[k] == old(man.frameCounts)[k]
    {
      hide ReadFrame, Queued, ReadPointerField, PointerFrom;
      if man.system.spacewire.None? {
        return Returned(prior);
      }
      if |man.system.rings| < TypeCode(kind) {
        return Returned(prior);
      }
      if kind !in man.system.rings {
        return Threw;
      }
      var data := ReadPointerBytes(man, kind);
      if data.None? {
        return Returned(prior);
      }
      var fp := man.GetFramePacketizer(kind);
      if fp == null {
        man.errors := man.errors + {FramePacketizing};
        return Returned(prior);
      }
      var pf := man.GetPacketFramer(kind);
      if pf == null {
        man.errors := man.errors + {PacketFraming};
        return Returned(prior);
      }
      var pointer := PointerFromBytes(man, kind, data.value);
      if pointer == prior {
        return Returned(prior);
      }
      var end := ReadFrameLoop(man, kind, pf, pointer);
      if end == Short {
        return Returned(prior);
      }
      if end == Overflow {
        return Threw;
      }
      QueueFrame(man, kind, pf, fp);
      return Returned(pointer);
    }

    method TryDequeue() returns (found: bool, e: Element)
      modifies this`downlinkBuffer
      ensures found <==> old(downlinkBuffer) != []
      ensures if found then old(downlinkBuffer) == [e] + downlinkBuffer else downlinkBuffer == []
    {
      if downlinkBuffer == [] {
        return false, NO_ELEMENT;
      }
      e := downlinkBuffer[0];
      downlinkBuffer := downlinkBuffer[1..];
      return true, e;
    }

    method SyncUdpSendAllDownlinkBuffer() returns (hasData: bool)
      modifies this`downlinkBuffer, this`transmitted
      ensures var d := Drained(old(downlinkBuffer));
        transmitted == old(transmitted) + d.packets && downlinkBuffer == d.rest && hasData == d.stopped
    {
      ghost var start := downlinkBuffer;
      var e;
      hasData, e := TryDequeue();
      while hasData && e.system != UPLINK
        invariant var rest := if hasData then [e] + downlinkBuffer else downlinkBuffer;
          && (!hasData ==> downlinkBuffer == [])
          && transmitted + Drained(rest).packets == old(transmitted) + Drained(start).packets
          && Drained(rest).rest == Drained(start).rest && Drained(rest).stopped == Drained(start).stopped
        decreases |downlinkBuffer| + if hasData then 1 else 0
      {
        assert ([e] + downlinkBuffer)[1..] == downlinkBuffer;
        transmitted := transmitted + [PacketOf(e)];
        hasData, e := TryDequeue();
      }
    }
  }
}

/**
 * Remote memory over RMAP, end to end: commands built by the deck, answered by the emulator, and their replies taken
 * apart (src/TransportLayer.cpp:1368-1436, src/DataLinkLayer.cpp:321-378).
 */
module RmapMemory {
  import opened Options
  import opened Bytes
  import opened RmapCrc
  import opened Systems
  import opened CommandDeck
  import opened Foxsimile

  const DATA_OFFSET: nat := 24

  /** The data-length field of a reply. */
  function PurportedLength(reply: seq<Byte>): nat
    requires |reply| > DATA_OFFSET
  {
    Unsplat4([0] + reply[20..23])
  }

  /** The data field of a reply, or nothing when the reply is shorter than its header and length field say. */
  function ReplyData(reply: seq<Byte>): seq<Byte> {
    if |reply| <= DATA_OFFSET || |reply| < 1 + DATA_OFFSET + PurportedLength(reply) then []
    else reply[DATA_OFFSET..DATA_OFFSET + PurportedLength(reply)]
  }

  /** TransportLayerMachine::get_reply_data. */
  method GetReplyData(reply: seq<Byte>) returns (data: seq<Byte>)
    ensures data == ReplyData(reply)
  {
    if DATA_OFFSET + 1 > |reply| {
      return [];
    }
    var length := UnsplatFrom4Bytes([0] + reply[20..23]);
    if |reply| < 1 + DATA_OFFSET + length {
      return [];
    }
    return reply[DATA_OFFSET..DATA_OFFSET + length];
  }

  /** SpaceWire::get_reply_data, the other copy, asks for one byte less. */
  method SpaceWireGetReplyData(reply: seq<Byte>) returns (data: seq<Byte>)
    ensures data == ReplyData(reply) || (|reply| > DATA_OFFSET && |reply| == DATA_OFFSET + PurportedLength(reply))
    ensures |reply| > DATA_OFFSET && |reply| == DATA_OFFSET + PurportedLength(reply) ==>
              data == reply[DATA_OFFSET..] && ReplyData(reply) == []
  {
    if DATA_OFFSET + 1 > |reply| {
      return [];
    }
    var length := UnsplatFrom4Bytes([0] + reply[20..23]);
    if |reply| < DATA_OFFSET + length {
      return [];
    }
    return reply[DATA_OFFSET..DATA_OFFSET + length];
  }

  // ---- the size fields ----

  lemma FramedSize(packet: seq<Byte>)
    requires |packet| > 0
    ensures var m := Framed(packet);
      |m| == 12 + |packet| && m[0] == 0 && m[12..] == packet && Unsplat4(m[7..11]) <= |packet|
  {
    var m, n := Framed(packet), |packet|;
    SplatSuffix(7, n / 256, 4);
    assert m[4..12] == Splat(8, n);
    assert m[7..11] == Splat(8, n)[3..7];
    assert Splat(8, n)[..7] == Splat(7, n / 256);
    assert Splat(8, n)[3..7] == Splat(7, n / 256)[3..];
    assert m[7..11] == Splat(4, n / 256) == m[7..11][..4];
    SplatBelow(4, n / 256);
  }

  lemma PadIs(v: nat)
    requires v < 0x100_0000
    ensures Unsplat4([0] + Splat(3, v)) == v
  {
    assert ([0] + Splat(3, v))[..4] == [0] + Splat(3, v);
    PadField(Splat(3, v));
    ValueOfSplat(3, v);
  }

  // ---- finding the target ----

  /** No byte before the target's logical address is any manager's, and no manager's is taken for a port number. */
  predicate Unambiguous(managers: seq<System>, spw: SpaceWire, packet: seq<Byte>) {
    && (forall m :: m in managers ==> LogicalOf(m) >= 10)
    && (forall m, i :: m in managers && 0 <= i < 12 + |spw.targetPath| && i < |Framed(packet)| ==> Framed(packet)[i] != LogicalOf(m))
  }

  /** spw is that of a manager, and its logical address is registered for code. */
  predicate Registered(managers: seq<System>, spw: SpaceWire, code: Byte) {
    && (exists m :: m in managers && LogicalOf(m) == spw.targetLogical)
    && CodeFor(managers, spw.targetLogical) == code
  }

  lemma {:induction false} NoPort(managers: seq<System>)
    requires forall m :: m in managers ==> LogicalOf(m) >= 10
    ensures CodeFor(managers, 0) == UNKNOWN
  {
    if managers != [] {
      NoPort(managers[1..]);
    }
  }

  lemma HeaderAtFront(spw: SpaceWire, h: Header, rest: seq<Byte>)
    ensures var p, n := Routed(spw, h) + rest, |spw.targetPath|;
      && |p| == n + 10 + |h.replyPath| + |h.transaction| + |h.address| + |rest|
      && p[n] == h.target && p[n + 1] == PROTOCOL_ID && p[n + 2] == h.instruction && p[n + 3] == h.key
  {
    hide SpaceWireCode;
  }

  lemma TargetComesFirst(managers: seq<System>, spw: SpaceWire, h: Header, rest: seq<Byte>)
    requires var p := Routed(spw, h) + rest; Unambiguous(managers, spw, p) && h.target == spw.targetLogical
    requires exists m :: m in managers && LogicalOf(m) == spw.targetLogical
    ensures var m, k := Framed(Routed(spw, h) + rest), 12 + |spw.targetPath|;
      && k < |m| - 4 && Earliest(managers, m) == k
      && m[k] == spw.targetLogical && m[k + 1] == PROTOCOL_ID && m[k + 3] == h.key
  {
    hide Routed, Earliest;
    var p, k := Routed(spw, h) + rest, 12 + |spw.targetPath|;
    HeaderAtFront(spw, h, rest);
    var m := Framed(p);
    assert m[k] == p[k - 12] && m[k + 1] == p[k - 11] && m[k + 3] == p[k - 9];
    hide Framed;
    forall s | s in managers ensures FirstIndex(m, LogicalOf(s)) >= k {
    }
    var s :| s in managers && LogicalOf(s) == spw.targetLogical;
    FirstIndexIs(m, LogicalOf(s), k);
  }

  /** The emulator knows its packets' target exactly if their key is 2. */
  lemma IdentifiedByKey(managers: seq<System>, spw: SpaceWire, h: Header, rest: seq<Byte>, code: Byte)
    requires var p := Routed(spw, h) + rest; Unambiguous(managers, spw, p) && |Framed(p)| >= MIN_REQUEST_SIZE
    requires h.target == spw.targetLogical && Registered(managers, spw, code)
    ensures Identify(managers, Framed(Routed(spw, h) + rest)) == Some(if h.key == 2 then code else UNKNOWN)
  {
    hide Routed, CodeFor, Earliest;
    TargetComesFirst(managers, spw, h, rest);
    FramedSize(Routed(spw, h) + rest);
    NoPort(managers);
    hide Framed;
  }

  /** With the address ranges of the standard, path below 32 and logical above, only the size field can mislead it. */
  lemma StandardAddressesAreUnambiguous(managers: seq<System>, spw: SpaceWire, packet: seq<Byte>)
    requires forall m :: m in managers ==> LogicalOf(m) >= 32
    requires |packet| < 32 && spw.targetPath <= packet && forall b :: b in spw.targetPath ==> b < 32
    ensures Unambiguous(managers, spw, packet)
  {
    var m := Framed(packet);
    SmallSize(8, |packet|);
    forall i | 0 <= i < 12 + |spw.targetPath| && i < |m| ensures m[i] < 32 {
      if i >= 12 {
        assert m[i] == packet[i - 12] == spw.targetPath[i - 12];
        assert spw.targetPath[i - 12] in spw.targetPath;
      } else if i >= 4 {
        assert m[i] == Splat(8, |packet|)[i - 4];
      }
    }
  }

  lemma {:induction false} SmallSize(n: nat, v: nat)
    requires v < 32
    ensures forall i :: 0 <= i < n ==> Splat(n, v)[i] < 32
  {
    if n > 0 {
      SmallSize(n - 1, v / 256);
    }
  }

  // ---- parsing what the deck builds ----

  /** What the emulator makes of a header. */
  function Understood(spw: SpaceWire, h: Header): Request
    requires |h.transaction| == 2
  {
    Request(h.instruction, h.initiator, h.transaction[0], Value(h.address), h.length, Splat(3, h.length),
            |spw.targetPath| + 16 + |h.replyPath|)
  }

  /** A header whose reply path is as long as its instruction says, with fields as wide as the standard's. */
  predicate WellFormed(h: Header) {
    |h.replyPath| == ReplyPathSize(h.instruction) && |h.transaction| == 2 && |h.address| == 4 && h.length < 0x100_0000
  }

  lemma ParsedAsBuilt(spw: SpaceWire, h: Header, rest: seq<Byte>)
    requires WellFormed(h)
    ensures ParseTail(|spw.targetPath|, Routed(spw, h) + rest) == Parsed(Understood(spw, h))
  {
    hide SpaceWireCode, Splat, Value, Routed;
    var tail, at := Routed(spw, h) + rest, |spw.targetPath| + 4 + |h.replyPath|;
    HeaderAtFront(spw, h, rest);
    FieldsInPlace(spw, h, rest);
    ValueOfSplat(3, h.length);
    assert Pow256(3) == 0x100_0000;
  }

  lemma FieldsInPlace(spw: SpaceWire, h: Header, rest: seq<Byte>)
    requires WellFormed(h)
    ensures var tail, at := Routed(spw, h) + rest, |spw.targetPath| + 4 + |h.replyPath|;
      && |tail| >= at + 12 && tail[at] == h.initiator && tail[at + 1] == h.transaction[0]
      && tail[at + 4..at + 8] == h.address && tail[at + 8..at + 11] == Splat(3, h.length)
  {
    hide SpaceWireCode, Splat;
    var f, n := Fields(h), |spw.targetPath|;
    var tail, at := Routed(spw, h) + rest, n + 4 + |h.replyPath|;
    assert tail[n..n + |f|] == f;
    hide Routed;
    var back := [h.initiator] + h.transaction + [0x00] + h.address + Splat(3, h.length);
    assert f[4 + |h.replyPath|..] == back;
    assert tail[at..n + |f|] == back;
    assert tail[at + 4..at + 8] == back[4..8] == h.address && tail[at + 8..at + 11] == back[8..11] == Splat(3, h.length);
    assert tail[at] == back[0] && tail[at + 1] == back[1];
  }

  /** The setting of an exchange: sys is the deck's, has a memory map, and the emulator will know packets for it. */
  predicate Reachable(deck: seq<System>, managers: seq<System>, mmaps: Memories, sys: System) {
    && sys.spacewire.Some? && SystemFor(deck, sys.hex) == sys && sys.hex in mmaps
    && Registered(managers, sys.spacewire.value, sys.hex)
    && SystemFor(deck, UNKNOWN).spacewire.None?
  }

  /** A packet behind the header h reaches the memory access it asks for. */
  lemma Delivered(deck: seq<System>, managers: seq<System>, mmaps: Memories, sys: System, h: Header, rest: seq<Byte>, garbage: Byte)
    requires Reachable(deck, managers, mmaps, sys) && WellFormed(h)
    requires h.target == sys.spacewire.value.targetLogical
    requires var p := Routed(sys.spacewire.value, h) + rest;
      Unambiguous(managers, sys.spacewire.value, p) && |Framed(p)| >= MIN_REQUEST_SIZE
    ensures var spw := sys.spacewire.value; var p := Routed(spw, h) + rest;
      Reply(deck, managers, mmaps, Framed(p), garbage) ==
        if h.key == 2 then Access(sys, mmaps, p, Understood(spw, h), garbage) else (Answer([]), mmaps)
  {
    hide Routed, Access, Identify, ParseTail, Registered, Unambiguous;
    var spw := sys.spacewire.value;
    var p := Routed(spw, h) + rest;
    FramedSize(p);
    IdentifiedByKey(managers, spw, h, rest, sys.hex);
    ParsedAsBuilt(spw, h, rest);
    hide Framed, SystemFor;
  }

  // ---- reading ----

  /** The reply to a read, whatever stands in the two bytes of the transaction id. */
  lemma ReplyCarriesData(spw: SpaceWire, r: Request, garbage: Byte, data: seq<Byte>)
    requires |data| == r.length < 0x100_0000 && r.lengthBytes == Splat(3, r.length)
    ensures var reply := ReplyPacket(spw, r, garbage, data);
      && ReplyData(reply) == data && |reply| == DATA_OFFSET + 1 + |data|
      && reply[15] == 0x00
      && reply[DATA_OFFSET..|reply| - 1] == data
      && (spw.crcVersion == 'f' ==> Code(reply[12..24]) == 0 && Code(reply[24..]) == 0)
  {
    hide SpaceWireCode, Code, Splat;
    var h := ReplyHeader(spw, r, garbage);
    var reply := ReplyPacket(spw, r, garbage, data);
    var headerCode, dataCode := SpaceWireCode(spw.crcVersion, h), SpaceWireCode(spw.crcVersion, data);
    assert reply[12..23] == h && h[8..11] == Splat(3, r.length);
    assert reply[20..23] == reply[12..23][8..11];
    PadIs(r.length);
    assert reply[12..24] == h + [headerCode];
    assert reply[24..] == data + [dataCode];
    CheckedFieldIsZero(h);
    CheckedFieldIsZero(data);
    if spw.crcVersion == 'f' {
      CodeOfVersion(spw.crcVersion, h);
      CodeOfVersion(spw.crcVersion, data);
    }
  }

  /**
   * The fields in which a reply tells its command which it answers (section 5.4.2 of ECSS-E-ST-50-52C): the command's
   * initiator, the instruction as a reply's, the first byte of the transaction id, and the length; and the bridge's header
   * says how much follows it.
   */
  ghost predicate AnswersCommand(p: seq<Byte>, h: Header, responder: Byte)
    requires |h.transaction| == 2
  {
    && |p| == DATA_OFFSET + 1 + h.length && p[..8] == [0, 0, 0, 0, 0, 0, 0, 0] && Value(p[8..12]) == |p| - 12
    && p[12] == h.initiator && p[13] == 0x01 && p[15] == 0x00 && p[16] == responder && p[17] == h.transaction[0] && p[19] == 0x00
    && p[14] < 0x40 && !IsWrite(p[14]) && WantsReply(p[14]) && ReplyPathSize(p[14]) == ReplyPathSize(h.instruction)
    && Value(p[20..23]) == h.length
  }

  lemma ReplyReadBack(spw: SpaceWire, h: Header, garbage: Byte, data: seq<Byte>)
    requires WellFormed(h) && |data| == h.length
    ensures AnswersCommand(ReplyPacket(spw, Understood(spw, h), garbage, data), h, spw.sourceLogical)
  {
    hide SpaceWireCode, Code, Splat, Value;
    var r := Understood(spw, h);
    var f, p := ReplyHeader(spw, r, garbage), ReplyPacket(spw, r, garbage, data);
    assert p[12..23] == f && f[8..11] == Splat(3, h.length);
    assert p[20..23] == p[12..23][8..11];
    assert p[8..12] == Splat(4, |p| - 12);
    PowersAre();
    ValueOfSplat(3, h.length);
    ValueOfSplat(4, |p| - 12);
    ReplyBits(h.instruction);
    forall i | 0 <= i < 11 ensures p[12 + i] == f[i] {
    }
  }

  lemma ReplyBits(instruction: Byte)
    ensures var b: Byte := instruction % 4 + 0x08;
      b < 0x40 && !IsWrite(b) && WantsReply(b) && ReplyPathSize(b) == ReplyPathSize(instruction)
  {
  }

  lemma CodeOfVersion(version: char, data: seq<Byte>)
    requires version == 'f'
    ensures SpaceWireCode(version, data) == Code(data)
  {
    hide Code;
  }

  /** What a read needs of the configuration: the emulator's key, paths as long as its instruction and the size check want. */
  predicate ReadOk(managers: seq<System>, spw: SpaceWire, address: nat, length: nat) {
    && spw.key == 2 && |spw.replyPath| == 4 && |spw.targetPath| >= 1
    && address < 0x1_0000_0000 && length < 0x100_0000
    && Unambiguous(managers, spw, Routed(spw, ReadHeader(spw, Splat(4, address), length)))
  }

  /**
   * Reading memory end to end. For every address and length inside the map, build the read command, let the emulator
   * parse and answer it, and take the data field out of the answer: it is that part of memory, the reply names the command
   * it answers, its fields carry good codes and a zero status, and memory is as before.
   */
  lemma ReadEndToEnd(deck: seq<System>, managers: seq<System>, mmaps: Memories, sys: System, address: nat, length: nat, garbage: Byte)
    requires Reachable(deck, managers, mmaps, sys)
    requires ReadOk(managers, sys.spacewire.value, address, length) && address + length <= |mmaps[sys.hex]|
    ensures var spw := sys.spacewire.value;
      var (answer, after) := Reply(deck, managers, mmaps, ReadCommand(spw, Splat(4, address), length), garbage);
      && after == mmaps && answer.Answer? && ReplyData(answer.bytes) == mmaps[sys.hex][address..address + length]
      && |answer.bytes| == DATA_OFFSET + 1 + length && answer.bytes[15] == 0x00
      && answer.bytes[DATA_OFFSET..|answer.bytes| - 1] == mmaps[sys.hex][address..address + length]
      && AnswersCommand(answer.bytes, ReadHeader(spw, Splat(4, address), length), spw.sourceLogical)
      && (spw.crcVersion == 'f' ==> Code(answer.bytes[12..24]) == 0 && Code(answer.bytes[24..]) == 0)
  {
    hide Code, Routed, Unambiguous, Registered, SystemFor, Reply, SpaceWireCode, Splat, Value;
    var spw, h := sys.spacewire.value, ReadHeader(sys.spacewire.value, Splat(4, address), length);
    HeaderAtFront(spw, h, []);
    assert Routed(spw, h) + [] == Routed(spw, h);
    FramedSize(Routed(spw, h));
    Delivered(deck, managers, mmaps, sys, h, [], garbage);
    AddressIs(address);
    var r := Understood(spw, h);
    ReplyCarriesData(spw, r, garbage, mmaps[sys.hex][address..address + length]);
    ReplyReadBack(spw, h, garbage, mmaps[sys.hex][address..address + length]);
    hide AnswersCommand;
    hide Framed, ReplyPacket, ReplyData;
    assert Access(sys, mmaps, Routed(spw, h) + [], r, garbage) ==
           (Answer(ReplyPacket(spw, r, garbage, mmaps[sys.hex][address..address + length])), mmaps);
  }

  lemma AddressIs(address: nat)
    requires address < 0x1_0000_0000
    ensures |Splat(4, address)| == 4 && Value(Splat(4, address)) == address
  {
    ValueOfSplat(4, address);
    assert Pow256(2) == 65536 && Pow256(4) == 0x1_0000_0000;
  }

  /**
   * A read command is thrown at exactly if it is below the emulator's minimum size, or a manager's logical address passes
   * for a port number; with the usual four bytes of reply path and address, exactly if it has no target path.
   */
  lemma ReadThrowsExactly(
      deck: seq<System>, managers: seq<System>, mmaps: Memories, spw: SpaceWire, address: seq<Byte>, length: nat, garbage: Byte)
    ensures var (answer, after) := Reply(deck, managers, mmaps, ReadCommand(spw, address, length), garbage);
      && (answer == Threw <==>
            |spw.targetPath| + |spw.replyPath| + |address| < 9 || exists m :: m in managers && LogicalOf(m) < 10)
      && (answer == Threw ==> after == mmaps)
  {
    hide Routed, Reply;
    var h := ReadHeader(spw, address, length);
    HeaderAtFront(spw, h, []);
    assert Routed(spw, h) + [] == Routed(spw, h);
    FramedSize(Routed(spw, h));
    var m := ReadCommand(spw, address, length);
    ThrowsExactly(deck, managers, mmaps, m, garbage);
    hide Framed;
    assert |m| >= MIN_REQUEST_SIZE <==> |spw.targetPath| + |spw.replyPath| + |address| >= 9;
  }

  // ---- writing ----

  /** A write command as configured: its instruction says write, and its fields are as wide as the standard's. */
  predicate WriteOk(managers: seq<System>, spw: SpaceWire, cmd: Command) {
    && !cmd.read && IsWrite(cmd.instruction) && WellFormed(CommandHeader(spw, cmd)) && spw.key == 2
    && |Packet(spw, cmd)| >= MIN_REQUEST_SIZE
    && Unambiguous(managers, spw, Routed(spw, CommandHeader(spw, cmd)) + DataField(spw, cmd))
  }

  lemma DataFollowsHeader(spw: SpaceWire, cmd: Command)
    requires !cmd.read && WellFormed(CommandHeader(spw, cmd))
    ensures var p, at := Routed(spw, CommandHeader(spw, cmd)) + DataField(spw, cmd), |spw.targetPath| + 16 + |spw.replyPath|;
      |p| == at + |cmd.writeData| + 1 && p[at..at + |cmd.writeData|] == cmd.writeData
  {
    hide SpaceWireCode, Routed;
    HeaderAtFront(spw, CommandHeader(spw, cmd), []);
    assert Routed(spw, CommandHeader(spw, cmd)) + [] == Routed(spw, CommandHeader(spw, cmd));
  }

  /**
   * A write packet built by the deck changes exactly the addressed bytes of its target's map that exist, and nothing
   * else; the emulator acknowledges it only when all of them exist and no RMAP reply is asked for.
   */
  lemma WriteEndToEnd(deck: seq<System>, managers: seq<System>, mmaps: Memories, sys: System, cmd: Command, garbage: Byte)
    requires Reachable(deck, managers, mmaps, sys) && WriteOk(managers, sys.spacewire.value, cmd)
    ensures var (answer, after) := Reply(deck, managers, mmaps, Packet(sys.spacewire.value, cmd), garbage);
      var memory, address := mmaps[sys.hex], Value(cmd.address);
      && after.Keys == mmaps.Keys && (forall c :: c in mmaps && c != sys.hex ==> after[c] == mmaps[c])
      && |after[sys.hex]| == |memory|
      && (forall k :: 0 <= k < |memory| ==>
            after[sys.hex][k] == if address <= k < address + |cmd.writeData| then cmd.writeData[k - address] else memory[k])
      && (answer == Answer([1, 1, 1, 1]) <==>
            !WantsReply(cmd.instruction) && (cmd.writeData == [] || address + |cmd.writeData| <= |memory|))
      && (answer != Answer([1, 1, 1, 1]) ==> answer == Answer([]))
      && after == mmaps[sys.hex := Written(memory, address, cmd.writeData)]
  {
    hide Routed, Unambiguous, Registered, SystemFor, Reply, SpaceWireCode, Splat, Value, Access, Framed, DataField, WantsReply, IsWrite;
    var spw, h := sys.spacewire.value, CommandHeader(sys.spacewire.value, cmd);
    var p := Routed(spw, h) + DataField(spw, cmd);
    Delivered(deck, managers, mmaps, sys, h, DataField(spw, cmd), garbage);
    DataFollowsHeader(spw, cmd);
    AccessWrites(sys, mmaps, p, Understood(spw, h), cmd.writeData, garbage);
  }

  lemma AccessWrites(sys: System, mmaps: Memories, tail: seq<Byte>, r: Request, data: seq<Byte>, garbage: Byte)
    requires sys.spacewire.Some? && sys.hex in mmaps && IsWrite(r.instruction) && r.length == |data|
    requires r.dataAt + r.length <= |tail| && tail[r.dataAt..r.dataAt + r.length] == data
    ensures Access(sys, mmaps, tail, r, garbage) ==
            (if !WantsReply(r.instruction) && (data == [] || r.address + |data| <= |mmaps[sys.hex]|) then Answer([1, 1, 1, 1])
             else Answer([]),
             mmaps[sys.hex := Written(mmaps[sys.hex], r.address, data)])
  {
  }

  /** A byte memory after writes, oldest first. */
  function MemoryAfter(memory: seq<Byte>, writes: seq<(nat, seq<Byte>)>): (r: seq<Byte>)
    ensures |r| == |memory|
  {
    if writes == [] then memory
    else
      var last := writes[|writes| - 1];
      Written(MemoryAfter(memory, writes[..|writes| - 1]), last.0, last.1)
  }

  predicate Covers(write: (nat, seq<Byte>), k: nat) { write.0 <= k < write.0 + |write.1| }

  /** Each byte is what the latest write over it put there, or what it was. */
  lemma {:induction false} LatestWriteWins(memory: seq<Byte>, writes: seq<(nat, seq<Byte>)>, k: nat, i: nat)
    requires k < |memory| && i <= |writes|
    requires forall j :: i <= j < |writes| ==> !Covers(writes[j], k)
    requires i > 0 ==> Covers(writes[i - 1], k)
    ensures MemoryAfter(memory, writes)[k] == if i > 0 then writes[i - 1].1[k - writes[i - 1].0] else memory[k]
  {
    if i < |writes| {
      assert !Covers(writes[|writes| - 1], k);
      LatestWriteWins(memory, writes[..|writes| - 1], k, i);
    }
  }

  function WriteOf(cmd: Command): (nat, seq<Byte>) { (Value(cmd.address), cmd.writeData) }

  function WritesOf(cmds: seq<Command>): (r: seq<(nat, seq<Byte>)>)
    ensures |r| == |cmds|
  {
    seq(|cmds|, i requires 0 <= i < |cmds| => WriteOf(cmds[i]))
  }

  /** The emulator's memory after it has been sent each command's packet in turn. */
  function AfterCommands(deck: seq<System>, managers: seq<System>, mmaps: Memories, spw: SpaceWire, cmds: seq<Command>, garbage: Byte): Memories {
    if cmds == [] then mmaps
    else
      var before := AfterCommands(deck, managers, mmaps, spw, cmds[..|cmds| - 1], garbage);
      Reply(deck, managers, before, Packet(spw, cmds[|cmds| - 1]), garbage).1
  }

  lemma {:induction false} WritesCompose(
      deck: seq<System>, managers: seq<System>, mmaps: Memories, sys: System, cmds: seq<Command>, garbage: Byte)
    requires Reachable(deck, managers, mmaps, sys)
    requires forall c :: c in cmds ==> WriteOk(managers, sys.spacewire.value, c)
    ensures AfterCommands(deck, managers, mmaps, sys.spacewire.value, cmds, garbage) ==
            mmaps[sys.hex := MemoryAfter(mmaps[sys.hex], WritesOf(cmds))]
  {
    hide Reply, Packet, WriteOk, Written, Registered, SystemFor;
    if cmds != [] {
      var n, last := |cmds| - 1, cmds[|cmds| - 1];
      WritesCompose(deck, managers, mmaps, sys, cmds[..n], garbage);
      assert WritesOf(cmds)[..n] == WritesOf(cmds[..n]);
      assert last in cmds;
      WriteEndToEnd(deck, managers, AfterCommands(deck, managers, mmaps, sys.spacewire.value, cmds[..n], garbage), sys, last, garbage);
    }
  }

  /** Remote memory is a byte memory: a read after any writes gets the bytes a plain memory would hold after them. */
  lemma ReadAfterWrites(
      deck: seq<System>, managers: seq<System>, mmaps: Memories, sys: System, cmds: seq<Command>, address: nat, length: nat,
      garbage: Byte)
    requires Reachable(deck, managers, mmaps, sys)
    requires forall c :: c in cmds ==> WriteOk(managers, sys.spacewire.value, c)
    requires ReadOk(managers, sys.spacewire.value, address, length) && address + length <= |mmaps[sys.hex]|
    ensures var spw := sys.spacewire.value;
      var after := AfterCommands(deck, managers, mmaps, spw, cmds, garbage);
      var answer := Reply(deck, managers, after, ReadCommand(spw, Splat(4, address), length), garbage).0;
      && answer.Answer?
      && ReplyData(answer.bytes) == MemoryAfter(mmaps[sys.hex], WritesOf(cmds))[address..address + length]
  {
    hide Reply, ReadCommand, WriteOk, Unambiguous, Routed, ReplyData, Registered, SystemFor, Splat;
    WritesCompose(deck, managers, mmaps, sys, cmds, garbage);
    var after := AfterCommands(deck, managers, mmaps, sys.spacewire.value, cmds, garbage);
    ReadEndToEnd(deck, managers, after, sys, address, length, garbage);
  }
}

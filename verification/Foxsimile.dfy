/**
 * The detector emulator (src/Foxsimile.cpp): finding out which detector a packet is for, parsing it as an RMAP command,
 * and reading or writing that detector's memory map.
 */
module Foxsimile {
  import opened Options
  import opened Bytes
  import opened RmapCrc
  import opened Systems
  import opened CommandDeck

  type Memories = map<Byte, seq<Byte>>

  const MIN_REQUEST_SIZE: nat := 33
  const UNKNOWN: Byte := 0xff

  // ---- identify_sender ----

  /** The first place of b in message, or its length. */
  function FirstIndex(message: seq<Byte>, b: Byte): (k: nat)
    ensures k <= |message| && (k < |message| ==> message[k] == b)
    ensures forall j :: 0 <= j < k ==> message[j] != b
  {
    if message == [] || message[0] == b then 0 else 1 + FirstIndex(message[1..], b)
  }

  function LogicalOf(m: System): Byte { if m.spacewire.Some? then m.spacewire.value.targetLogical else 0 }

  /** The earliest place of any manager's logical address. */
  function Earliest(managers: seq<System>, message: seq<Byte>): (k: nat)
    ensures k <= |message|
    ensures forall m :: m in managers ==> k <= FirstIndex(message, LogicalOf(m))
    ensures k < |message| ==> exists m :: m in managers && k == FirstIndex(message, LogicalOf(m))
  {
    if managers == [] then |message|
    else
      var k, rest := FirstIndex(message, LogicalOf(managers[0])), Earliest(managers[1..], message);
      if k < rest then k else rest
  }

  /** construct_rmap_lookup: the first manager with a logical address keeps it. */
  function CodeFor(managers: seq<System>, address: Byte): Byte {
    if managers == [] then UNKNOWN
    else if managers[0].spacewire.Some? && LogicalOf(managers[0]) == address then managers[0].hex
    else CodeFor(managers[1..], address)
  }

  /** The code of the system a message is taken to be for; None where the source throws. */
  function Identify(managers: seq<System>, message: seq<Byte>): Option<Byte> {
    if |message| < MIN_REQUEST_SIZE || message[0] != 0 then None
    else if exists m :: m in managers && LogicalOf(m) < 10 then None
    else
      var k := Earliest(managers, message);
      if k < |message| - 4 && message[k + 1] == PROTOCOL_ID && message[k + 3] == 0x02
      then Some(CodeFor(managers, message[k])) else Some(CodeFor(managers, 0))
  }

  lemma {:induction false} EarliestAppend(managers: seq<System>, m: System, message: seq<Byte>)
    ensures Earliest(managers + [m], message) ==
            if FirstIndex(message, LogicalOf(m)) < Earliest(managers, message) then FirstIndex(message, LogicalOf(m))
            else Earliest(managers, message)
  {
    if managers == [] {
      assert (managers + [m])[1..] == [];
    } else {
      assert (managers + [m])[1..] == managers[1..] + [m];
      EarliestAppend(managers[1..], m, message);
    }
  }

  lemma FirstIndexIs(message: seq<Byte>, b: Byte, k: nat)
    requires k <= |message| && (k < |message| ==> message[k] == b)
    requires forall j :: 0 <= j < k ==> message[j] != b
    ensures FirstIndex(message, b) == k
  {
    var found := FirstIndex(message, b);
    assert found >= k;
  }

  /** Every manager has a SpaceWire interface, which identify_sender dereferences unasked. */
  predicate AllSpaceWire(managers: seq<System>) { forall m :: m in managers ==> m.spacewire.Some? }

  method Scan(message: seq<Byte>, b: Byte) returns (k: nat)
    ensures k == FirstIndex(message, b)
  {
    k := 0;
    while k < |message| && message[k] != b
      invariant k <= |message|
      invariant forall j :: 0 <= j < k ==> message[j] != b
    {
      k := k + 1;
    }
    FirstIndexIs(message, b, k);
  }

  /** The loop over the managers; None where an address is taken for a port number. */
  method FirstAddress(managers: seq<System>, message: seq<Byte>) returns (resolved: Option<nat>)
    requires AllSpaceWire(managers)
    ensures resolved == if exists m :: m in managers && LogicalOf(m) < 10 then None else Some(Earliest(managers, message))
  {
    hide Earliest, FirstIndex;
    var first := |message|;
    assert first == Earliest(managers[..0], message) by { NoManagers(message); }
    for i := 0 to |managers|
      invariant forall m :: m in managers[..i] ==> LogicalOf(m) >= 10
      invariant first == Earliest(managers[..i], message)
    {
      if managers[i].spacewire.value.targetLogical < 10 {
        assert LogicalOf(managers[i]) < 10;
        return None;
      }
      var k := Scan(message, managers[i].spacewire.value.targetLogical);
      EarliestAppend(managers[..i], managers[i], message);
      assert managers[..i + 1] == managers[..i] + [managers[i]];
      if k < first {
        first := k;
      }
    }
    assert managers[..|managers|] == managers;
    return Some(first);
  }

  method IdentifySender(managers: seq<System>, message: seq<Byte>) returns (code: Option<Byte>)
    requires AllSpaceWire(managers) && |message| > 0
    ensures code == Identify(managers, message)
  {
    hide Earliest, FirstIndex, CodeFor;
    if message[0] != 0 {
      return None;
    }
    if |message| < MIN_REQUEST_SIZE {
      return None;
    }
    var first := FirstAddress(managers, message);
    if first.None? {
      return None;
    }
    var resolved := first.value;
    var candidate: Byte := 0;
    if resolved < |message| - 4 {
      if message[resolved + 1] == PROTOCOL_ID {
        if message[resolved + 3] == 0x02 {
          candidate := message[resolved];
        }
      }
    }
    return Some(CodeFor(managers, candidate));
  }

  lemma NoManagers(message: seq<Byte>)
    ensures Earliest([], message) == |message|
  {
  }

  // ---- parsing ----

  datatype Request = Request(
    instruction: Byte, initiator: Byte, transaction: Byte, address: nat, length: nat, lengthBytes: seq<Byte>, dataAt: nat
  )

  /** Parsed, or how parsing ends: with an exception that get_response catches, or by reading past the message. */
  datatype Parse = Parsed(request: Request) | OutOfRange | PastEnd

  function ReplyPathSize(instruction: Byte): nat { 4 * (instruction % 4) }

  predicate IsWrite(instruction: Byte) { (instruction / 0x20) % 2 == 1 }

  predicate WantsReply(instruction: Byte) { (instruction / 0x08) % 2 == 1 }

  function ParseTail(pathLength: nat, tail: seq<Byte>): Parse {
    if |tail| <= pathLength + 3 then OutOfRange
    else
      var instruction := tail[pathLength + 2];
      var at := pathLength + 4 + ReplyPathSize(instruction);
      if |tail| < at then PastEnd
      else if |tail| == at then OutOfRange
      else if |tail| == at + 1 then PastEnd
      else if |tail| <= at + 3 then OutOfRange
      else if |tail| < at + 11 then PastEnd
      else
        Parsed(Request(instruction, tail[at], tail[at + 1], Value(tail[at + 4..at + 8]), Value(tail[at + 8..at + 11]),
                       tail[at + 8..at + 11], at + 12))
  }

  // ---- make_reply ----

  /** What make_reply does, seen through get_response: an answer, an exception nobody catches, or undefined behaviour. */
  datatype Answer = Answer(bytes: seq<Byte>) | Threw | Undefined

  /** Memory after writing data at address; what falls past the end is dropped. */
  function Written(memory: seq<Byte>, address: nat, data: seq<Byte>): (r: seq<Byte>)
    ensures |r| == |memory|
    ensures forall k :: 0 <= k < |memory| ==>
              r[k] == if address <= k < address + |data| then data[k - address] else memory[k]
  {
    seq(|memory|, k requires 0 <= k < |memory| => if address <= k < address + |data| then data[k - address] else memory[k])
  }

  function ReplyHeader(spw: SpaceWire, r: Request, garbage: Byte): (h: seq<Byte>)
    ensures |h| == 8 + |r.lengthBytes|
  {
    [r.initiator, PROTOCOL_ID, r.instruction % 4 + 0x08, 0x00, spw.sourceLogical, r.transaction, garbage, 0x00] + r.lengthBytes
  }

  /** The reply of section 5.4.2 of the standard behind the bridge's header; garbage is the byte read past the transaction id. */
  function ReplyPacket(spw: SpaceWire, r: Request, garbage: Byte, data: seq<Byte>): seq<Byte> {
    var h := ReplyHeader(spw, r, garbage);
    var packet := h + [SpaceWireCode(spw.crcVersion, h)] + data + [SpaceWireCode(spw.crcVersion, data)];
    [0, 0, 0, 0, 0, 0, 0, 0] + Splat(4, |packet|) + packet
  }

  /** The memory access of a parsed request. */
  function Access(sys: System, mmaps: Memories, tail: seq<Byte>, r: Request, garbage: Byte): (Answer, Memories)
    requires sys.spacewire.Some?
  {
    if sys.hex !in mmaps then (Answer([]), mmaps)
    else
      var memory := mmaps[sys.hex];
      if IsWrite(r.instruction) then
        if |tail| < r.dataAt + r.length then (Undefined, mmaps)
        else
          var after := mmaps[sys.hex := Written(memory, r.address, tail[r.dataAt..r.dataAt + r.length])];
          (if r.length > 0 && r.address + r.length > |memory| then Answer([])
           else if WantsReply(r.instruction) then Answer([]) else Answer([1, 1, 1, 1]), after)
      else if !WantsReply(r.instruction) then (Answer([]), mmaps)
      else if r.address + r.length > |memory| then (Undefined, mmaps)
      else (Answer(ReplyPacket(sys.spacewire.value, r, garbage, memory[r.address..r.address + r.length])), mmaps)
  }

  function Reply(deck: seq<System>, managers: seq<System>, mmaps: Memories, message: seq<Byte>, garbage: Byte): (Answer, Memories)
  {
    if message == [] then (Undefined, mmaps)
    else if message[0] != 0 || |message| < ETHER_HEADER_SIZE then (Threw, mmaps)
    else if |message| - ETHER_HEADER_SIZE < Unsplat4(message[7..11]) then (Threw, mmaps)
    else
      var code := Identify(managers, message);
      if code.None? then (Threw, mmaps)
      else
        var sys, tail := SystemFor(deck, code.value), message[ETHER_HEADER_SIZE..];
        if sys.spacewire.None? then (Answer([]), mmaps)
        else
          match ParseTail(|sys.spacewire.value.targetPath|, tail)
          case OutOfRange => (Answer([]), mmaps)
          case PastEnd => (Undefined, mmaps)
          case Parsed(r) => Access(sys, mmaps, tail, r, garbage)
  }

  /** A message that make_reply does not throw at: what its own checks and those of identify_sender ask for. */
  predicate Answerable(managers: seq<System>, m: seq<Byte>) {
    && |m| >= MIN_REQUEST_SIZE && m[0] == 0 && Unsplat4(m[7..11]) <= |m| - ETHER_HEADER_SIZE
    && forall manager :: manager in managers ==> LogicalOf(manager) >= 10
  }

  /** Whatever the memory maps hold. */
  lemma ThrowsExactly(deck: seq<System>, managers: seq<System>, mmaps: Memories, m: seq<Byte>, garbage: Byte)
    requires m != []
    ensures Reply(deck, managers, mmaps, m, garbage).0 == Threw <==> !Answerable(managers, m)
    ensures !Answerable(managers, m) ==> Reply(deck, managers, mmaps, m, garbage).1 == mmaps
  {
    hide ParseTail, SystemFor, Splat, Written, Earliest, CodeFor, Unsplat4, ReplyPacket;
  }

  class Responder {
    const deck: seq<System>
    const managers: seq<System>
    var mmaps: Memories

    constructor (deck: seq<System>, managers: seq<System>, mmaps: Memories)
      ensures this.deck == deck && this.managers == managers && this.mmaps == mmaps
    {
      this.deck, this.managers, this.mmaps := deck, managers, mmaps;
    }

    /** The write loop: in place, byte by byte, until the first byte past the end of the map throws. */
    method WriteMemory(hex: Byte, address: nat, data: seq<Byte>) returns (threw: bool)
      requires hex in mmaps
      modifies this
      ensures mmaps == old(mmaps)[hex := Written(old(mmaps)[hex], address, data)]
      ensures threw <==> |data| > 0 && address + |data| > |old(mmaps)[hex]|
    {
      ghost var before := mmaps[hex];
      for i := 0 to |data|
        invariant hex in mmaps && mmaps == old(mmaps)[hex := mmaps[hex]]
        invariant mmaps[hex] == Written(before, address, data[..i]) && (i > 0 ==> address + i <= |before|)
      {
        if i + address >= |mmaps[hex]| {
          assert Written(before, address, data) == Written(before, address, data[..i]);
          return true;
        }
        mmaps := mmaps[hex := mmaps[hex][i + address := data[i]]];
      }
      assert data[..|data|] == data;
      return false;
    }

    method MakeReply(message: seq<Byte>, garbage: Byte) returns (answer: Answer)
      requires AllSpaceWire(managers)
      modifies this
      ensures (answer, mmaps) == Reply(deck, managers, old(mmaps), message, garbage)
    {
      hide Identify, ParseTail, SystemFor, SpaceWireCode, Splat, Written;
      if message == [] {
        return Undefined;
      }
      if message[0] != 0 {
        return Threw;
      }
      if |message| < ETHER_HEADER_SIZE {
        return Threw;
      }
      var tailSize := UnsplatFrom4Bytes(message[7..11]);
      if |message| - ETHER_HEADER_SIZE < tailSize {
        return Threw;
      }
      var code := IdentifySender(managers, message);
      if code.None? {
        return Threw;
      }
      var sys := GetSysForCode(deck, code.value);
      if sys.spacewire.None? {
        return Answer([]);
      }
      var tail := message[ETHER_HEADER_SIZE..];
      var parse := ParseTail(|sys.spacewire.value.targetPath|, tail);
      if parse.OutOfRange? {
        return Answer([]);
      }
      if parse.PastEnd? {
        return Undefined;
      }
      answer := Perform(sys, tail, parse.request, garbage);
    }

    method Perform(sys: System, tail: seq<Byte>, r: Request, garbage: Byte) returns (answer: Answer)
      requires sys.spacewire.Some?
      modifies this
      ensures (answer, mmaps) == Access(sys, old(mmaps), tail, r, garbage)
    {
      hide SpaceWireCode, Splat, Written;
      if sys.hex !in mmaps {
        return Answer([]);
      }
      if IsWrite(r.instruction) {
        if |tail| < r.dataAt + r.length {
          return Undefined;
        }
        var threw := WriteMemory(sys.hex, r.address, tail[r.dataAt..r.dataAt + r.length]);
        if threw || WantsReply(r.instruction) {
          return Answer([]);
        }
        return Answer([1, 1, 1, 1]);
      }
      if !WantsReply(r.instruction) {
        return Answer([]);
      }
      var memory := mmaps[sys.hex];
      if r.address + r.length > |memory| {
        return Undefined;
      }
      var packet := BuildReply(sys.spacewire.value, r, garbage, memory[r.address..r.address + r.length]);
      return Answer(packet);
    }
  }

  method BuildReply(spw: SpaceWire, r: Request, garbage: Byte, data: seq<Byte>) returns (packet: seq<Byte>)
    ensures packet == ReplyPacket(spw, r, garbage, data)
  {
    hide SpaceWireCode;
    var etherHeader: seq<Byte> := [0, 0, 0, 0, 0, 0, 0, 0];
    var tailer: seq<Byte> := [r.initiator, PROTOCOL_ID, r.instruction % 4 + 0x08, 0x00, spw.sourceLogical, r.transaction,
                              garbage, 0x00];
    tailer := tailer + r.lengthBytes;
    assert tailer == ReplyHeader(spw, r, garbage);
    var headerCode := SpaceWireCrc(spw.crcVersion, tailer);
    tailer := tailer + [headerCode];
    var dataCode := SpaceWireCrc(spw.crcVersion, data);
    tailer := tailer + data;
    tailer := tailer + [dataCode];
    var sizeBytes := SplatToNBytes(4, |tailer|);
    etherHeader := etherHeader + sizeBytes;
    packet := etherHeader + tailer;
  }
}

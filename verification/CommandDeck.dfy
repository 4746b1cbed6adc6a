/**
 * Building RMAP commands (src/Commanding.cpp). The layout of the header is that of ECSS-E-ST-50-52C, sections 5.3.1
 * (write command) and 5.4.1 (read command); every packet goes behind the 12-byte header of the SPMU-001 bridge.
 */
module CommandDeck {
  import opened Options
  import opened Bytes
  import opened RmapCrc
  import opened Systems

  datatype Command = Command(read: bool, instruction: Byte, address: seq<Byte>, writeData: seq<Byte>, replyLength: nat)

  const PROTOCOL_ID: Byte := 0x01
  const READ_INSTRUCTION: Byte := 0x4d
  const ETHER_HEADER_SIZE: nat := 12

  // ---- the layout ----

  datatype Header = Header(
    target: Byte, instruction: Byte, key: Byte, replyPath: seq<Byte>, initiator: Byte, transaction: seq<Byte>,
    address: seq<Byte>, length: nat
  )

  /** The fields in the order of the standard, the target path and the code excepted; the extended address is zero. */
  function Fields(h: Header): seq<Byte> {
    [h.target, PROTOCOL_ID, h.instruction, h.key] + h.replyPath + [h.initiator] + h.transaction + [0x00]
    + h.address + Splat(3, h.length)
  }

  /** A header with its code, behind the path that leads to its target. */
  function Routed(spw: SpaceWire, h: Header): seq<Byte> {
    spw.targetPath + Fields(h) + [SpaceWireCode(spw.crcVersion, Fields(h))]
  }

  /** The bridge's header: end-of-packet marker, three zeros, and the packet's size in eight bytes. */
  function EtherHeader(size: nat): (r: seq<Byte>)
    ensures |r| == ETHER_HEADER_SIZE
  {
    [0, 0, 0, 0] + Splat(8, size)
  }

  function Framed(packet: seq<Byte>): seq<Byte> { EtherHeader(|packet|) + packet }

  function HeaderFor(spw: SpaceWire, instruction: Byte, transaction: seq<Byte>, address: seq<Byte>, length: nat): Header {
    Header(spw.targetLogical, instruction, spw.key, spw.replyPath, spw.sourceLogical, transaction, address, length)
  }

  function ReadHeader(spw: SpaceWire, address: seq<Byte>, length: nat): Header {
    HeaderFor(spw, READ_INSTRUCTION, [0, 0], address, length)
  }

  function ReadCommand(spw: SpaceWire, address: seq<Byte>, length: nat): seq<Byte> {
    Framed(Routed(spw, ReadHeader(spw, address, length)))
  }

  function DataLength(cmd: Command): nat { if cmd.read then cmd.replyLength else |cmd.writeData| }

  /** What goes after the header: nothing, or the data and their code. */
  function DataField(spw: SpaceWire, cmd: Command): seq<Byte> {
    if cmd.read then [] else cmd.writeData + [SpaceWireCode(spw.crcVersion, cmd.writeData)]
  }

  function CommandHeader(spw: SpaceWire, cmd: Command): Header {
    HeaderFor(spw, cmd.instruction, [0, 0], cmd.address, DataLength(cmd))
  }

  function Packet(spw: SpaceWire, cmd: Command): seq<Byte> {
    Framed(Routed(spw, CommandHeader(spw, cmd)) + DataField(spw, cmd))
  }

  /** How long a header is, from the target's logical address to its code. */
  function HeaderLength(h: Header): nat { 10 + |h.replyPath| + |h.transaction| + |h.address| }

  lemma FieldsReadBack(h: Header)
    requires |h.transaction| == 2
    ensures var f, r, a := Fields(h), |h.replyPath|, |h.address|;
      && |f| == 11 + r + a && f[0..4] == [h.target, 0x01, h.instruction, h.key]
      && f[4..4 + r] == h.replyPath && f[4 + r] == h.initiator && f[5 + r..7 + r] == h.transaction && f[7 + r] == 0
      && f[8 + r..8 + r + a] == h.address && f[8 + r + a..11 + r + a] == Splat(3, h.length)
  {
    hide Splat;
  }

  lemma PowersAre()
    ensures Pow256(3) == 0x100_0000 && Pow256(8) == 0x1_0000_0000_0000_0000
  {
    assert Pow256(2) == 0x1_0000 && Pow256(4) == 0x1_0000_0000 && Pow256(6) == 0x1_0000_0000_0000;
  }

  /** The bridge's header in front of a packet: four zeros and the packet's size, high byte first. */
  lemma FrameReadBack(packet: seq<Byte>)
    ensures var p := Framed(packet);
      && |p| == ETHER_HEADER_SIZE + |packet| && p[..4] == [0, 0, 0, 0] && p[12..] == packet
      && (|packet| < 0x1_0000_0000_0000_0000 ==> Value(p[4..12]) == |packet|)
  {
    PowersAre();
    hide Splat, Value, Pow256;
    if |packet| < 0x1_0000_0000_0000_0000 { ValueOfSplat(8, |packet|); }
    assert Framed(packet)[4..12] == Splat(8, |packet|);
  }

  /** A string begins with a header's fields, each in its place. */
  ghost predicate BeginsWith(q: seq<Byte>, h: Header) {
    var r, a := |h.replyPath|, |h.address|;
    && |q| >= HeaderLength(h) && |h.transaction| == 2
    && q[0..4] == [h.target, 0x01, h.instruction, h.key] && q[4..4 + r] == h.replyPath && q[4 + r] == h.initiator
    && q[5 + r..7 + r] == h.transaction && q[7 + r] == 0
    && q[8 + r..8 + r + a] == h.address && Value(q[8 + r + a..11 + r + a]) == h.length
  }

  /** So does a packet behind the bridge's header and a path. */
  ghost predicate HeaderAt(p: seq<Byte>, path: seq<Byte>, h: Header) {
    var t := ETHER_HEADER_SIZE + |path|;
    |p| >= t && p[12..t] == path && BeginsWith(p[t..], h)
  }

  lemma LengthReadBack(h: Header)
    requires h.length < 0x100_0000
    ensures Value(Splat(3, h.length)) == h.length
  {
    PowersAre();
    ValueOfSplat(3, h.length);
  }

  lemma BeginsWithFields(q: seq<Byte>, h: Header)
    requires |h.transaction| == 2 && h.length < 0x100_0000 && Fields(h) <= q && |q| > |Fields(h)|
    ensures BeginsWith(q, h)
  {
    hide Fields, Splat, Value;
    LengthReadBack(h);
    FieldsReadBack(h);
    var f, r, a := Fields(h), |h.replyPath|, |h.address|;
    PartOf(q, f, 0, 4);
    PartOf(q, f, 4, 4 + r);
    PartOf(q, f, 5 + r, 7 + r);
    PartOf(q, f, 8 + r, 8 + r + a);
    PartOf(q, f, 8 + r + a, 11 + r + a);
  }

  lemma HeaderReadBack(spw: SpaceWire, h: Header, rest: seq<Byte>)
    requires |h.transaction| == 2 && h.length < 0x100_0000
    ensures var p := Framed(Routed(spw, h) + rest);
      HeaderAt(p, spw.targetPath, h) && p[ETHER_HEADER_SIZE + |spw.targetPath| + HeaderLength(h)..] == rest
  {
    hide Fields, Framed, Routed, BeginsWith;
    FieldsReadBack(h);
    FieldsAreAt(spw, h, rest);
    BeginsWithFields(Framed(Routed(spw, h) + rest)[ETHER_HEADER_SIZE + |spw.targetPath|..], h);
  }

  lemma FieldsAreAt(spw: SpaceWire, h: Header, rest: seq<Byte>)
    ensures var f, p, t := Fields(h), Framed(Routed(spw, h) + rest), ETHER_HEADER_SIZE + |spw.targetPath|;
      && |p| == t + |f| + 1 + |rest| && p[12..t] == spw.targetPath && f <= p[t..] && p[t + |f| + 1..] == rest
  {
    hide SpaceWireCode, Fields, EtherHeader;
  }

  lemma PartOf(q: seq<Byte>, f: seq<Byte>, i: nat, j: nat)
    requires i <= j <= |f| && f <= q
    ensures q[i..j] == f[i..j]
  {
  }

  /**
   * A command read back: each field is where the standard has it, behind the bridge's header with the size of what follows
   * and the target path; the data of a write come after the header, and there is nothing else.
   */
  lemma CommandReadBack(spw: SpaceWire, cmd: Command)
    requires DataLength(cmd) < 0x100_0000
    ensures var p := Packet(spw, cmd); var length := if cmd.read then cmd.replyLength else |cmd.writeData|;
      var h := Header(spw.targetLogical, cmd.instruction, spw.key, spw.replyPath, spw.sourceLogical, [0, 0], cmd.address, length);
      var n := ETHER_HEADER_SIZE + |spw.targetPath| + HeaderLength(h);
      && p[..4] == [0, 0, 0, 0] && (|p| < 0x1_0000_0000_0000_0000 ==> Value(p[4..12]) == |p| - 12)
      && HeaderAt(p, spw.targetPath, h)
      && (if cmd.read then |p| == n else |p| == n + |cmd.writeData| + 1 && p[n..|p| - 1] == cmd.writeData)
  {
    hide SpaceWireCode, Value, Framed, Routed, HeaderAt;
    var h := CommandHeader(spw, cmd);
    FrameReadBack(Routed(spw, h) + DataField(spw, cmd));
    HeaderReadBack(spw, h, DataField(spw, cmd));
    assert HeaderAt(Packet(spw, cmd), spw.targetPath, h);
    HeaderFits(Packet(spw, cmd), spw.targetPath, h);
  }

  lemma HeaderFits(p: seq<Byte>, path: seq<Byte>, h: Header)
    requires HeaderAt(p, path, h)
    ensures |p| >= ETHER_HEADER_SIZE + |path| + HeaderLength(h)
  {
  }

  /** The same for the direct builder, whose packets have nothing after the header. */
  lemma ReadReadBack(spw: SpaceWire, address: seq<Byte>, length: nat, transaction: nat)
    requires length < 0x100_0000
    ensures var p := Framed(Routed(spw, HeaderFor(spw, READ_INSTRUCTION, Splat(2, transaction), address, length)));
      var h := Header(spw.targetLogical, 0x4d, spw.key, spw.replyPath, spw.sourceLogical, Splat(2, transaction), address, length);
      && p[..4] == [0, 0, 0, 0] && (|p| < 0x1_0000_0000_0000_0000 ==> Value(p[4..12]) == |p| - 12)
      && HeaderAt(p, spw.targetPath, h) && |p| == ETHER_HEADER_SIZE + |spw.targetPath| + HeaderLength(h)
  {
    hide SpaceWireCode, Value, Framed, Routed, HeaderAt, Splat;
    var h := HeaderFor(spw, READ_INSTRUCTION, Splat(2, transaction), address, length);
    assert Routed(spw, h) + [] == Routed(spw, h);
    FrameReadBack(Routed(spw, h));
    HeaderReadBack(spw, h, []);
    HeaderFits(Framed(Routed(spw, h)), spw.targetPath, h);
  }

  /**
   * The codes a target checks: with version f, the header from the logical address through its code has code zero, and so
   * have the data of a write with theirs; with any other version both codes are zero bytes.
   */
  lemma CodesAreGood(spw: SpaceWire, h: Header, rest: seq<Byte>)
    requires |h.transaction| == 2
    ensures var p, t := Framed(Routed(spw, h) + rest), ETHER_HEADER_SIZE + |spw.targetPath|; var n := t + HeaderLength(h);
      && t < n <= |p| && p[n..] == rest
      && (if spw.crcVersion == 'f' then Code(p[t..n]) == 0 else p[n - 1] == 0)
  {
    FieldsReadBack(h);
    CheckedFieldIsZero(Fields(h));
    hide Code, Splat, Fields;
    var p, t := Framed(Routed(spw, h) + rest), ETHER_HEADER_SIZE + |spw.targetPath|;
    assert p[t..t + HeaderLength(h)] == Fields(h) + [SpaceWireCode(spw.crcVersion, Fields(h))];
  }

  lemma CommandCodesAreGood(spw: SpaceWire, cmd: Command)
    ensures var p, t := Packet(spw, cmd), ETHER_HEADER_SIZE + |spw.targetPath|;
      var n := t + HeaderLength(CommandHeader(spw, cmd));
      && t < n <= |p| && (if cmd.read then n == |p| else n == |p| - |cmd.writeData| - 1)
      && (spw.crcVersion == 'f' ==> Code(p[t..n]) == 0 && (!cmd.read ==> Code(p[|p| - |cmd.writeData| - 1..]) == 0))
      && (spw.crcVersion != 'f' ==> p[n - 1] == 0 && (!cmd.read ==> p[|p| - 1] == 0))
  {
    hide Code, Routed, Framed;
    CodesAreGood(spw, CommandHeader(spw, cmd), DataField(spw, cmd));
    CheckedFieldIsZero(cmd.writeData);
  }

  // ---- lookup ----

  /** The first system with the code, else the null system. */
  function SystemFor(systems: seq<System>, code: Byte): System {
    if systems == [] then NULL_SYSTEM
    else if systems[0].hex == code then systems[0] else SystemFor(systems[1..], code)
  }

  lemma {:induction false} SkipOthers(systems: seq<System>, code: Byte, i: nat)
    requires i <= |systems| && forall j :: 0 <= j < i ==> systems[j].hex != code
    ensures SystemFor(systems, code) == SystemFor(systems[i..], code)
  {
    if i > 0 {
      SkipOthers(systems[1..], code, i - 1);
      assert systems[1..][i - 1..] == systems[i..];
    }
  }

  method GetSysForCode(systems: seq<System>, code: Byte) returns (sys: System)
    ensures sys == SystemFor(systems, code)
    ensures sys.hex == code || sys == NULL_SYSTEM
  {
    for i := 0 to |systems|
      invariant forall j :: 0 <= j < i ==> systems[j].hex != code
    {
      SkipOthers(systems, code, i);
      if systems[i].hex == code {
        return systems[i];
      }
    }
    SkipOthers(systems, code, |systems|);
    return NULL_SYSTEM;
  }

  // ---- the builders ----

  method GetSpwEtherHeader(packet: seq<Byte>) returns (prefix: seq<Byte>)
    ensures prefix == EtherHeader(|packet|)
  {
    prefix := [0, 0, 0, 0];
    var i := 7;
    while i >= 0
      invariant -1 <= i <= 7
      invariant prefix == [0, 0, 0, 0] + Splat(8, |packet|)[..7 - i]
    {
      SplatAt(8, |packet|, i);
      prefix := prefix + [(|packet| / Pow256(i)) % 256];
      i := i - 1;
    }
  }

  method MakeSpwHeader(spw: SpaceWire, cmd: Command) returns (header: seq<Byte>)
    ensures header == Routed(spw, CommandHeader(spw, cmd))
  {
    var length := |cmd.writeData|;
    if cmd.read {
      length := cmd.replyLength;
    }
    var lengthBytes := SplatToNBytes(3, length);
    var tailer: seq<Byte> := [];
    tailer := tailer + [spw.targetLogical];
    tailer := tailer + [PROTOCOL_ID];
    tailer := tailer + [cmd.instruction];
    tailer := tailer + [spw.key];
    tailer := tailer + spw.replyPath;
    tailer := tailer + [spw.sourceLogical];
    tailer := tailer + [0x00];
    tailer := tailer + [0x00];
    tailer := tailer + [0x00];
    tailer := tailer + cmd.address;
    tailer := tailer + lengthBytes;
    assert tailer == Fields(CommandHeader(spw, cmd));
    var code := SpaceWireCrc(spw.crcVersion, tailer);
    tailer := tailer + [code];
    header := spw.targetPath + tailer;
  }

  method MakeSpwPacket(spw: SpaceWire, cmd: Command) returns (packet: seq<Byte>)
    ensures packet == Packet(spw, cmd)
  {
    hide Routed, SpaceWireCode;
    var rmap := MakeSpwHeader(spw, cmd);
    if !cmd.read {
      var code := SpaceWireCrc(spw.crcVersion, cmd.writeData);
      rmap := rmap + (cmd.writeData + [code]);
    }
    assert rmap == Routed(spw, CommandHeader(spw, cmd)) + DataField(spw, cmd);
    var prefix := GetSpwEtherHeader(rmap);
    packet := prefix + rmap;
  }

  method GetReadCommandAtAddress(spw: SpaceWire, address: seq<Byte>, length: nat) returns (packet: seq<Byte>)
    ensures packet == ReadCommand(spw, address, length)
  {
    packet := GetReadCommandAtAddressAndTransactionId(spw, address, length, 0);
    assert Splat(2, 0) == [0, 0] by { assert Splat(1, 0) == [0]; }
  }

  method GetReadCommandAtAddressAndTransactionId(spw: SpaceWire, address: seq<Byte>, length: nat, transaction: nat)
    returns (packet: seq<Byte>)
    ensures packet == Framed(Routed(spw, HeaderFor(spw, READ_INSTRUCTION, Splat(2, transaction), address, length)))
  {
    var lengthBytes := SplatToNBytes(3, length);
    var transactionBytes := SplatToNBytes(2, transaction);
    var tailer: seq<Byte> := [];
    tailer := tailer + [spw.targetLogical];
    tailer := tailer + [PROTOCOL_ID];
    tailer := tailer + [READ_INSTRUCTION];
    tailer := tailer + [spw.key];
    tailer := tailer + spw.replyPath;
    tailer := tailer + [spw.sourceLogical];
    tailer := tailer + [transactionBytes[0]];
    tailer := tailer + [transactionBytes[1]];
    tailer := tailer + [0x00];
    tailer := tailer + address;
    tailer := tailer + lengthBytes;
    ghost var h := HeaderFor(spw, READ_INSTRUCTION, Splat(2, transaction), address, length);
    assert transactionBytes == [transactionBytes[0]] + [transactionBytes[1]];
    assert tailer == Fields(h);
    var code := SpaceWireCrc(spw.crcVersion, tailer);
    tailer := tailer + [code];
    packet := spw.targetPath + tailer;
    assert packet == Routed(spw, h);
    var prefix := GetSpwEtherHeader(packet);
    packet := prefix + packet;
  }

  // ---- patching a template ----

  /** Where the patches go, counted from the end: extended address 9, address 8, length 4. */
  function Overwritten(t: seq<Byte>, address: seq<Byte>, length: nat): (r: seq<Byte>)
    requires |t| >= 9 && |address| >= 4
    ensures |r| == |t|
  {
    t[..|t| - 9] + [0x00] + address[..4] + Splat(3, length) + t[|t| - 1..]
  }

  /**
   * What get_read_command_from_template makes of a packet; None where its bounds checks throw. The empty string is its
   * answer to a packet with nothing between the target path and the last byte.
   */
  function Patched(t: seq<Byte>, pathLength: nat, address: seq<Byte>, length: nat): Option<seq<Byte>> {
    var start := ETHER_HEADER_SIZE + pathLength;
    if |t| < 9 || |address| < 4 then None
    else if start + 1 >= |t| then Some([])
    else
      var o := Overwritten(t, address, length);
      Some(o[..|t| - 1] + [Code(o[start..|t| - 1])])
  }

  /** Byte k of p after the first i bytes of field have gone in at place at. */
  ghost predicate Overlaid(p: seq<Byte>, t: seq<Byte>, at: nat, field: seq<Byte>, i: nat) {
    && i <= |field| && at + |field| <= |t| == |p|
    && forall k :: 0 <= k < |t| ==> p[k] == if at <= k < at + i then field[k - at] else t[k]
  }

  method Overlay(t: seq<Byte>, at: nat, field: seq<Byte>) returns (p: seq<Byte>)
    requires at + |field| <= |t|
    ensures p == t[..at] + field + t[at + |field|..]
  {
    p := t;
    for i := 0 to |field|
      invariant Overlaid(p, t, at, field, i)
    {
      p := p[i + at := field[i]];
    }
  }

  method GetReadCommandFromTemplate(t: seq<Byte>, pathLength: nat, address: seq<Byte>, length: nat)
    returns (packet: Option<seq<Byte>>)
    ensures packet == Patched(t, pathLength, address, length)
  {
    hide Code;
    var lengthBytes := SplatToNBytes(3, length);
    var n := |t|;
    if n < 9 || |address| < 4 {
      return None;
    }
    var p := t[n - 9 := 0x00];
    p := Overlay(p, n - 8, address[..4]);
    p := Overlay(p, n - 4, lengthBytes);
    assert p == Overwritten(t, address, length);
    var start := ETHER_HEADER_SIZE + pathLength;
    if start + 1 >= n {
      return Some([]);
    }
    var header := p[start..n - 1];
    var code := CalculateCrcF(header);
    header := header + [code];
    ghost var o := p;
    p := Overlay(p, start, header);
    assert p == o[..n - 1] + [code];
    return Some(p);
  }

  lemma ReadTemplateShape(spw: SpaceWire, cmd: Command)
    requires cmd.read && |cmd.address| == 4
    ensures var t, start := Packet(spw, cmd), ETHER_HEADER_SIZE + |spw.targetPath|;
      && |t| == start + 16 + |spw.replyPath|
      && t[..start] == EtherHeader(|spw.targetPath| + 16 + |spw.replyPath|) + spw.targetPath
      && t[start..|t| - 1] == Fields(CommandHeader(spw, cmd))
  {
    hide SpaceWireCode;
    var h := CommandHeader(spw, cmd);
    assert |Fields(h)| == 15 + |spw.replyPath|;
    assert Packet(spw, cmd) == Framed(Routed(spw, h)) by {
      assert Routed(spw, h) + [] == Routed(spw, h);
    }
  }

  lemma OverwrittenFields(spw: SpaceWire, cmd: Command, address: seq<Byte>, length: nat)
    requires cmd.read && |cmd.address| == 4 && |address| == 4
    ensures var t, start := Packet(spw, cmd), ETHER_HEADER_SIZE + |spw.targetPath|;
      && |t| == start + 16 + |spw.replyPath|
      && var o := Overwritten(t, address, length);
      && o[..start] == EtherHeader(|spw.targetPath| + 16 + |spw.replyPath|) + spw.targetPath
      && o[start..|t| - 1] == Fields(HeaderFor(spw, cmd.instruction, [0, 0], address, length))
  {
    hide SpaceWireCode, Packet;
    ReadTemplateShape(spw, cmd);
    var t, start := Packet(spw, cmd), ETHER_HEADER_SIZE + |spw.targetPath|;
    var o, n := Overwritten(t, address, length), |t|;
    assert o[..start] == t[..start];
    assert o[start..n - 1] == t[start..n - 1][..|t| - 9 - start] + [0x00] + address + Splat(3, length);
    var f := Fields(CommandHeader(spw, cmd));
    assert f[..n - 9 - start] == [spw.targetLogical, PROTOCOL_ID, cmd.instruction, spw.key] + spw.replyPath
                                 + [spw.sourceLogical] + [0, 0];
  }

  /**
   * A read template patched to another address and length is the packet the direct builder makes for them, byte for
   * byte, exactly if the template's instruction is the builder's, and the code it was given a version for is the one the
   * patch recomputes (or comes out as the zero that other versions get).
   */
  lemma PatchedTemplateIsDirect(spw: SpaceWire, cmd: Command, address: seq<Byte>, length: nat)
    requires cmd.read && |cmd.address| == 4 && |address| == 4
    ensures Patched(Packet(spw, cmd), |spw.targetPath|, address, length) == Some(ReadCommand(spw, address, length)) <==>
            cmd.instruction == READ_INSTRUCTION
            && (spw.crcVersion == 'f' || Code(Fields(ReadHeader(spw, address, length))) == 0)
  {
    hide Packet, Code, Overwritten, Fields;
    OverwrittenFields(spw, cmd, address, length);
    var t, start := Packet(spw, cmd), ETHER_HEADER_SIZE + |spw.targetPath|;
    var o, n := Overwritten(t, address, length), |t|;
    var h, r := HeaderFor(spw, cmd.instruction, [0, 0], address, length), ReadHeader(spw, address, length);
    FieldsLength(h);
    FieldsLength(r);
    var patched := o[..n - 1] + [Code(Fields(h))];
    assert Patched(t, |spw.targetPath|, address, length) == Some(patched);
    var direct := ReadCommand(spw, address, length);
    assert patched == o[..start] + Fields(h) + [Code(Fields(h))];
    assert direct == o[..start] + Fields(r) + [SpaceWireCode(spw.crcVersion, Fields(r))];
    assert patched[start..n - 1] == Fields(h) && patched[n - 1] == Code(Fields(h));
    assert direct[start..n - 1] == Fields(r) && direct[n - 1] == SpaceWireCode(spw.crcVersion, Fields(r));
    InstructionShows(h);
    InstructionShows(r);
  }

  lemma FieldsLength(h: Header)
    ensures |Fields(h)| == 9 + |h.replyPath| + |h.transaction| + |h.address|
  {
  }

  lemma InstructionShows(h: Header)
    ensures |Fields(h)| > 2 && Fields(h)[2] == h.instruction
  {
  }
}

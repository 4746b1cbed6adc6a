/**
 * The write pointer of a detector's ring of frames: how the emulator advances it (src/Foxsimile.cpp:634-682), and which
 * frame the formatter takes it to name (src/TransportLayer.cpp:783-802).
 */
module RingPointer {
  import opened Options
  import opened Bytes
  import opened Modular
  import opened Systems
  import opened CommandDeck
  import opened Foxsimile
  import opened RmapMemory

  function U32(v: int): (r: nat)
    ensures r < 0x1_0000_0000
  {
    v % 0x1_0000_0000
  }

  function U64(v: int): (r: nat)
    ensures r < 0x1_0000_0000_0000_0000
  {
    v % 0x1_0000_0000_0000_0000
  }

  /** std::string::find, asked only whether. */
  predicate Contains(name: string, part: string) {
    exists i :: 0 <= i <= |name| && part <= name[i..]
  }

  // ---- advancing ----

  /** Frame spacing, ring size and first address, all in 32-bit arithmetic. */
  datatype Ring = Ring(stride: nat, size: nat, start: nat)

  function RingOf(sys: System, kind: BufferType): Option<Ring>
    requires kind in sys.rings
  {
    var start := U32(sys.rings[kind].startAddress);
    if Contains(sys.name, "cdte") then
      var stride := U32(sys.rings[kind].frameSize);
      Some(Ring(stride, U32(980 * stride), start))
    else if Contains(sys.name, "cmos") then
      if kind == PC then Some(Ring(0x1b_0000, 32 * 0x1b_0000, start))
      else if kind == QL then Some(Ring(0x22_0000, 32 * 0x22_0000, start))
      else Some(Ring(0, 0, 0))
    else None
  }

  function NextPointer(ring: Ring, current: nat): nat {
    var p := U32(ring.stride + current);
    if p > U32(ring.size + ring.start) then ring.start else p
  }

  /** The pointer's field lies inside the map; the source slices it out unasked. */
  predicate FieldInside(p: RingBufferParameters, memory: seq<Byte>) {
    p.writePointerAddress < 0x1_0000_0000 && p.writePointerAddress + p.writePointerWidth <= |memory|
  }

  function PointerField(p: RingBufferParameters, memory: seq<Byte>): seq<Byte>
    requires FieldInside(p, memory)
  {
    memory[p.writePointerAddress..p.writePointerAddress + p.writePointerWidth]
  }

  /** The map with its pointer advanced; of a field wider than four bytes only the first four are written. */
  function Advanced(sys: System, kind: BufferType, memory: seq<Byte>): (r: seq<Byte>)
    requires kind in sys.rings && FieldInside(sys.rings[kind], memory)
    ensures |r| == |memory|
  {
    var p, ring := sys.rings[kind], RingOf(sys, kind);
    if ring.None? then memory
    else
      var next := Splat(4, NextPointer(ring.value, Unsplat4(PointerField(p, memory))));
      Written(memory, p.writePointerAddress, if p.writePointerWidth < 4 then next[..p.writePointerWidth] else next)
  }

  method AdvanceWritePointer(emulator: Responder, sys: System, kind: BufferType) returns (threw: bool)
    requires sys.hex in emulator.mmaps && kind in sys.rings && FieldInside(sys.rings[kind], emulator.mmaps[sys.hex])
    modifies emulator
    ensures emulator.mmaps == old(emulator.mmaps)[sys.hex := Advanced(sys, kind, old(emulator.mmaps)[sys.hex])]
    ensures threw <==> RingOf(sys, kind).None? || sys.rings[kind].writePointerWidth > 4
  {
    hide Written, Splat, Contains, Unsplat4;
    var p, memory, ring := sys.rings[kind], emulator.mmaps[sys.hex], RingOf(sys, kind);
    if ring.None? {
      return true;
    }
    var current := UnsplatFrom4Bytes(memory[p.writePointerAddress..p.writePointerAddress + p.writePointerWidth]);
    var next := U32(ring.value.stride + current);
    if next > U32(ring.value.size + ring.value.start) {
      next := ring.value.start;
    }
    var bytes := SplatToNBytes(4, next);
    assert bytes[..4] == bytes;
    if p.writePointerWidth > 4 {
      var _ := emulator.WriteMemory(sys.hex, p.writePointerAddress, bytes);
      return true;
    }
    threw := emulator.WriteMemory(sys.hex, p.writePointerAddress, bytes[..p.writePointerWidth]);
  }

  // ---- stepping back ----

  /** The address a transaction reads its frame from, given the pointer it was sent: for cdte, one frame before. */
  function FrameAddress(sys: System, kind: BufferType, pointer: nat): nat
    requires kind in sys.rings
  {
    var p := sys.rings[kind];
    if !Contains(sys.name, "cdte") then pointer
    else if pointer == p.startAddress then U64(pointer + (p.framesPerRing - 1) * p.frameSize)
    else U64(pointer - p.frameSize)
  }

  // ---- runs ----

  /** A cdte system with 980 frames per ring, none of whose addresses reaches 2^32. */
  predicate RingOk(sys: System, kind: BufferType) {
    && kind in sys.rings && Contains(sys.name, "cdte")
    && var p := sys.rings[kind];
      && p.framesPerRing == 980 && p.frameSize > 0 && p.writePointerWidth == 4
      && p.startAddress + 981 * p.frameSize < 0x1_0000_0000
  }

  function Place(p: RingBufferParameters, k: nat): nat { p.startAddress + k * p.frameSize }

  predicate PointsAt(p: RingBufferParameters, memory: seq<Byte>, k: nat) {
    FieldInside(p, memory) && PointerField(p, memory) == Splat(4, Place(p, k))
  }

  /** Where the pointer goes from place k: to every place from 0 to 980, the one past the ring's end included. */
  function NextPlace(k: nat): nat { (k + 1) % 981 }

  /** Which frame the formatter reads when the pointer is at place k. */
  function FrameAt(k: nat): nat { if k == 0 then 979 else k - 1 }

  lemma Spacing(k: nat, stride: nat)
    requires stride > 0
    ensures k * stride + stride == (k + 1) * stride
    ensures k > 0 ==> k * stride >= stride
    ensures k <= 980 ==> k * stride <= 980 * stride
  {
    MultipleIsFar(k, stride);
    assert 980 * stride == k * stride + (980 - k) * stride;
    if k < 980 { MultipleIsFar(980 - k, stride); }
  }

  lemma PlaceOrder(p: RingBufferParameters, k: nat)
    requires p.frameSize > 0 && k <= 980
    ensures Place(p, k) + p.frameSize == Place(p, k + 1)
    ensures p.startAddress <= Place(p, k) <= p.startAddress + 980 * p.frameSize && (k == 0 <==> Place(p, k) == p.startAddress)
  {
    Spacing(k, p.frameSize);
  }

  lemma NextIsPlace(sys: System, kind: BufferType, k: nat)
    requires RingOk(sys, kind) && k <= 980
    ensures RingOf(sys, kind).Some?
    ensures NextPointer(RingOf(sys, kind).value, Place(sys.rings[kind], k)) == Place(sys.rings[kind], NextPlace(k))
  {
    hide Contains, Place, U32;
    var p := sys.rings[kind];
    Fits(p.frameSize);
    Fits(p.startAddress);
    Fits(980 * p.frameSize);
    Fits(980 * p.frameSize + p.startAddress);
    var ring := Ring(p.frameSize, 980 * p.frameSize, p.startAddress);
    assert RingOf(sys, kind) == Some(ring);
    hide RingOf;
    PlaceOrder(p, k);
    PlaceOrder(p, 0);
    Fits(p.frameSize + Place(p, k));
    if k < 980 {
      PlaceOrder(p, k + 1);
    } else {
      PlaceIs(p, 980);
    }
  }

  lemma PlaceIs(p: RingBufferParameters, k: nat)
    ensures Place(p, k) == p.startAddress + k * p.frameSize
  {
  }

  lemma AdvanceMoves(sys: System, kind: BufferType, memory: seq<Byte>, k: nat)
    requires RingOk(sys, kind) && k <= 980 && PointsAt(sys.rings[kind], memory, k)
    ensures PointsAt(sys.rings[kind], Advanced(sys, kind, memory), NextPlace(k))
  {
    hide Contains, Splat, Unsplat4, RingOf, NextPointer, NextPlace, Place;
    var p := sys.rings[kind];
    NextIsPlace(sys, kind, k);
    PlaceBound(p, k);
    UnsplatOfSplat(Place(p, k));
    var next := Splat(4, Place(p, NextPlace(k)));
    assert Advanced(sys, kind, memory) == Written(memory, p.writePointerAddress, next);
    assert PointerField(p, Advanced(sys, kind, memory)) == next;
  }

  lemma PlaceBound(p: RingBufferParameters, k: nat)
    requires k <= 980 && p.frameSize > 0 && p.startAddress + 981 * p.frameSize < 0x1_0000_0000
    ensures Place(p, k) + p.frameSize < 0x1_0000_0000
  {
    PlaceOrder(p, k);
  }

  /** A poll reads the pointer's field over RMAP; writes are those of the formatter's commands. */
  datatype Step = Advance | Poll(garbage: Byte) | Write(command: Command, garbage: Byte)

  function PollCommand(sys: System, kind: BufferType): seq<Byte>
    requires sys.spacewire.Some? && kind in sys.rings
  {
    var p := sys.rings[kind];
    ReadCommand(sys.spacewire.value, Splat(p.writePointerWidth, p.writePointerAddress), p.writePointerWidth)
  }

  function Stepped(deck: seq<System>, managers: seq<System>, mmaps: Memories, sys: System, kind: BufferType, step: Step): Memories
    requires sys.spacewire.Some? && kind in sys.rings && sys.hex in mmaps && FieldInside(sys.rings[kind], mmaps[sys.hex])
  {
    match step
    case Advance => mmaps[sys.hex := Advanced(sys, kind, mmaps[sys.hex])]
    case Poll(garbage) => Reply(deck, managers, mmaps, PollCommand(sys, kind), garbage).1
    case Write(command, garbage) => Reply(deck, managers, mmaps, Packet(sys.spacewire.value, command), garbage).1
  }

  /** Writes are well-formed and leave the pointer's field alone. */
  predicate StepOk(managers: seq<System>, sys: System, kind: BufferType, step: Step)
    requires sys.spacewire.Some? && kind in sys.rings
  {
    var p := sys.rings[kind];
    step.Write? ==>
      && WriteOk(managers, sys.spacewire.value, step.command)
      && (Value(step.command.address) + |step.command.writeData| <= p.writePointerAddress
          || p.writePointerAddress + p.writePointerWidth <= Value(step.command.address))
  }

  ghost predicate Polled(deck: seq<System>, managers: seq<System>, mmaps: Memories, sys: System, kind: BufferType) {
    && Reachable(deck, managers, mmaps, sys) && RingOk(sys, kind)
    && ReadOk(managers, sys.spacewire.value, sys.rings[kind].writePointerAddress, 4)
  }

  function PlaceAfter(k: nat, step: Step): nat { if step.Advance? then NextPlace(k) else k }

  lemma FieldKept(p: RingBufferParameters, before: seq<Byte>, after: seq<Byte>)
    requires FieldInside(p, before) && |after| == |before|
    requires forall k :: p.writePointerAddress <= k < p.writePointerAddress + p.writePointerWidth ==> after[k] == before[k]
    ensures PointerField(p, after) == PointerField(p, before)
  {
  }

  lemma StepKeepsPlace(
      deck: seq<System>, managers: seq<System>, mmaps: Memories, sys: System, kind: BufferType, step: Step, k: nat)
    requires Polled(deck, managers, mmaps, sys, kind) && StepOk(managers, sys, kind, step)
    requires k <= 980 && PointsAt(sys.rings[kind], mmaps[sys.hex], k)
    ensures var after := Stepped(deck, managers, mmaps, sys, kind, step);
      Polled(deck, managers, after, sys, kind) && PointsAt(sys.rings[kind], after[sys.hex], PlaceAfter(k, step))
  {
    hide Contains, Splat, Reply, Packet, ReadCommand, WriteOk, ReadOk, Registered, SystemFor, Value, Written, Advanced, Place, Unambiguous;
    var p, memory := sys.rings[kind], mmaps[sys.hex];
    match step {
      case Advance => AdvanceMoves(sys, kind, memory, k);
      case Poll(garbage) => ReadEndToEnd(deck, managers, mmaps, sys, p.writePointerAddress, 4, garbage);
      case Write(command, garbage) =>
        WriteEndToEnd(deck, managers, mmaps, sys, command, garbage);
        var after := Stepped(deck, managers, mmaps, sys, kind, step)[sys.hex];
        FieldKept(p, memory, after);
    }
  }

  ghost predicate IsStep(
      deck: seq<System>, managers: seq<System>, sys: System, kind: BufferType, before: Memories, step: Step, after: Memories)
  {
    && sys.spacewire.Some? && kind in sys.rings && sys.hex in before && FieldInside(sys.rings[kind], before[sys.hex])
    && StepOk(managers, sys, kind, step) && after == Stepped(deck, managers, before, sys, kind, step)
  }

  /** The states of a run, first to last. */
  ghost predicate Run(deck: seq<System>, managers: seq<System>, sys: System, kind: BufferType, states: seq<Memories>, steps: seq<Step>) {
    && |states| == |steps| + 1
    && forall i {:trigger steps[i]} :: 0 <= i < |steps| ==> IsStep(deck, managers, sys, kind, states[i], steps[i], states[i + 1])
  }

  function Advances(steps: seq<Step>): nat {
    if steps == [] then 0 else Advances(steps[..|steps| - 1]) + if steps[|steps| - 1].Advance? then 1 else 0
  }

  /**
   * Over every run of advances, polls and other writes, the stored pointer stays at one of the 981 places from the ring's
   * start to its end: from place k, after n advances, at place k + n modulo 981.
   */
  lemma {:induction false} PointerStaysInRing(
      deck: seq<System>, managers: seq<System>, sys: System, kind: BufferType, states: seq<Memories>, steps: seq<Step>, k: nat)
    requires Run(deck, managers, sys, kind, states, steps) && k <= 980
    requires Polled(deck, managers, states[0], sys, kind) && PointsAt(sys.rings[kind], states[0][sys.hex], k)
    ensures var last := states[|steps|];
      && Polled(deck, managers, last, sys, kind)
      && PointsAt(sys.rings[kind], last[sys.hex], (k + Advances(steps)) % 981)
  {
    hide Contains, Stepped, StepOk, PointsAt, ReadOk, Registered, SystemFor, Unambiguous, RingOk;
    var n := |steps|;
    if n > 0 {
      PointerStaysInRing(deck, managers, sys, kind, states[..n], steps[..n - 1], k);
      var place := (k + Advances(steps[..n - 1])) % 981;
      StepKeepsPlace(deck, managers, states[n - 1], sys, kind, steps[n - 1], place);
      AddModulo(k + Advances(steps[..n - 1]));
    }
  }

  lemma AddModulo(v: nat)
    ensures NextPlace(v % 981) == (v + 1) % 981
  {
  }

  /** The frame address taken from a pointer at place k: frame k - 1, or the ring's last; always a whole frame of the ring. */
  lemma FrameAddressInRing(sys: System, kind: BufferType, k: nat)
    requires RingOk(sys, kind) && k <= 980
    ensures var p := sys.rings[kind]; var a := FrameAddress(sys, kind, Place(p, k));
      && a == Place(p, FrameAt(k)) && FrameAt(k) < p.framesPerRing
      && p.startAddress <= a && a + p.frameSize <= Place(p, p.framesPerRing)
  {
    hide Contains, Place, U64;
    var p := sys.rings[kind];
    PlaceOrder(p, k);
    PlaceOrder(p, FrameAt(k));
    PlaceIs(p, 980);
    PlaceIs(p, 979);
    RingSize(p);
    Fits(Place(p, FrameAt(k)));
  }

  lemma RingSize(p: RingBufferParameters)
    requires p.framesPerRing == 980
    ensures (p.framesPerRing - 1) * p.frameSize == 979 * p.frameSize
  {
  }

  lemma Fits(v: int)
    requires 0 <= v < 0x1_0000_0000
    ensures U32(v) == v && U64(v) == v
  {
  }

  /**
   * What a poll anywhere in such a run tells the formatter: the four bytes of the pointer at place k, and from them the
   * address of a whole frame inside the ring.
   */
  lemma PollNamesWholeFrame(
      deck: seq<System>, managers: seq<System>, sys: System, kind: BufferType, states: seq<Memories>, steps: seq<Step>, k: nat,
      garbage: Byte)
    requires Run(deck, managers, sys, kind, states, steps) && k <= 980
    requires Polled(deck, managers, states[0], sys, kind) && PointsAt(sys.rings[kind], states[0][sys.hex], k)
    ensures var p, last := sys.rings[kind], states[|steps|];
      var answer := Reply(deck, managers, last, PollCommand(sys, kind), garbage).0;
      && answer.Answer? && |ReplyData(answer.bytes)| == 4
      && var pointer := Unsplat4(ReplyData(answer.bytes));
         var m := FrameAt((k + Advances(steps)) % 981);
        && pointer == Place(p, (k + Advances(steps)) % 981)
        && m < p.framesPerRing && FrameAddress(sys, kind, pointer) == Place(p, m)
        && FrameAddress(sys, kind, pointer) + p.frameSize <= Place(p, p.framesPerRing)
  {
    hide Contains, Stepped, StepOk, ReadOk, Registered, SystemFor, Unambiguous, Splat, Reply, ReadCommand, Place, FrameAddress, Unsplat4, Advances;
    var p, last, place := sys.rings[kind], states[|steps|], (k + Advances(steps)) % 981;
    PointerStaysInRing(deck, managers, sys, kind, states, steps, k);
    ReadEndToEnd(deck, managers, last, sys, p.writePointerAddress, 4, garbage);
    PlaceBound(p, place);
    UnsplatOfSplat(Place(p, place));
    FrameAddressInRing(sys, kind, place);
  }

  /** An advance makes the formatter read the next frame of the ring exactly if the pointer was not at the ring's end. */
  lemma AdvanceNamesNextFrame(sys: System, kind: BufferType, memory: seq<Byte>, k: nat)
    requires RingOk(sys, kind) && k <= 980 && PointsAt(sys.rings[kind], memory, k)
    ensures var p := sys.rings[kind];
      var before := FrameAddress(sys, kind, Unsplat4(PointerField(p, memory)));
      var after := FrameAddress(sys, kind, Unsplat4(PointerField(p, Advanced(sys, kind, memory))));
      && before == Place(p, FrameAt(k))
      && (after == Place(p, (FrameAt(k) + 1) % 980) <==> k != 980)
      && (k == 980 ==> after == before)
  {
    hide Contains, Splat, FrameAddress, Unsplat4, Place, Advanced;
    var p := sys.rings[kind];
    AdvanceMoves(sys, kind, memory, k);
    PlaceBound(p, k);
    PlaceBound(p, NextPlace(k));
    UnsplatOfSplat(Place(p, k));
    UnsplatOfSplat(Place(p, NextPlace(k)));
    FrameAddressInRing(sys, kind, k);
    FrameAddressInRing(sys, kind, NextPlace(k));
    PlaceOrder(p, 979);
    PlaceOrder(p, 0);
  }
}

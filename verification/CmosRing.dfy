/**
 * The rings of the cmos cameras: the emulator advances their pointers over 33 places, storing them high byte first
 * (src/Foxsimile.cpp:634-682); the formatter takes what it reads of them low byte first (src/TransportLayer.cpp:760-766).
 */
module CmosRing {
  import opened Options
  import opened Bytes
  import opened Systems
  import opened CommandDeck
  import opened Foxsimile
  import opened RmapMemory
  import opened RingPointer
  import opened Transport
  import opened EndToEnd

  function StrideOf(kind: BufferType): nat { if kind == PC then 0x1b_0000 else 0x22_0000 }

  /** A cmos system's ring of frames or of quick looks, none of whose addresses reaches 2^32. */
  predicate CmosOk(sys: System, kind: BufferType) {
    && (kind == PC || kind == QL) && kind in sys.rings && Contains(sys.name, "cmos") && !Contains(sys.name, "cdte")
    && sys.rings[kind].writePointerWidth == 4 && sys.rings[kind].startAddress + 33 * StrideOf(kind) < 0x1_0000_0000
  }

  function CmosPlace(sys: System, kind: BufferType, k: nat): nat
    requires kind in sys.rings
  {
    sys.rings[kind].startAddress + k * StrideOf(kind)
  }

  function NextOf33(k: nat): nat { (k + 1) % 33 }

  ghost predicate Stores(sys: System, kind: BufferType, memory: seq<Byte>, k: nat) {
    && kind in sys.rings && FieldInside(sys.rings[kind], memory)
    && PointerField(sys.rings[kind], memory) == Splat(4, CmosPlace(sys, kind, k))
  }

  lemma NextOf(stride: nat, start: nat, k: nat)
    requires stride > 0 && start + 33 * stride < 0x1_0000_0000 && k <= 32
    ensures NextPointer(Ring(stride, 32 * stride, start), start + k * stride) == start + (if k == 32 then 0 else k + 1) * stride
    ensures start + k * stride < 0x1_0000_0000
  {
    hide U32;
    Spacing(k, stride);
    assert 32 * stride - k * stride == (32 - k) * stride;
    if k < 32 { Spacing(31 - k, stride); }
    Fits(stride + (start + k * stride));
    Fits(32 * stride + start);
  }

  lemma NextCmosPlace(sys: System, kind: BufferType, k: nat)
    requires CmosOk(sys, kind) && k <= 32
    ensures RingOf(sys, kind).Some?
    ensures NextPointer(RingOf(sys, kind).value, CmosPlace(sys, kind, k)) == CmosPlace(sys, kind, (k + 1) % 33)
    ensures CmosPlace(sys, kind, k) < 0x1_0000_0000
  {
    hide Contains, NextPointer;
    var start, stride := sys.rings[kind].startAddress, StrideOf(kind);
    assert (k + 1) % 33 == if k == 32 then 0 else k + 1;
    NextOf(stride, start, k);
    Fits(start);
    hide U32;
    assert RingOf(sys, kind) == Some(Ring(stride, 32 * stride, start));
  }

  lemma CmosAdvances(sys: System, kind: BufferType, memory: seq<Byte>, k: nat)
    requires CmosOk(sys, kind) && k <= 32 && Stores(sys, kind, memory, k)
    ensures FieldInside(sys.rings[kind], memory) && Stores(sys, kind, Advanced(sys, kind, memory), (k + 1) % 33)
  {
    hide Contains, Splat, Unsplat4, RingOf, NextPointer, CmosPlace;
    var p := sys.rings[kind];
    NextCmosPlace(sys, kind, k);
    UnsplatOfSplat(CmosPlace(sys, kind, k));
    var next := Splat(4, CmosPlace(sys, kind, (k + 1) % 33));
    assert Advanced(sys, kind, memory) == Written(memory, p.writePointerAddress, next);
    assert PointerField(p, Advanced(sys, kind, memory)) == next;
  }

  ghost predicate CmosPolled(deck: seq<System>, managers: seq<System>, mmaps: Memories, sys: System, kind: BufferType) {
    && Reachable(deck, managers, mmaps, sys) && CmosOk(sys, kind)
    && ReadOk(managers, sys.spacewire.value, sys.rings[kind].writePointerAddress, 4)
  }

  lemma CmosStep(deck: seq<System>, managers: seq<System>, mmaps: Memories, sys: System, kind: BufferType, step: Step, k: nat)
    requires CmosPolled(deck, managers, mmaps, sys, kind) && StepOk(managers, sys, kind, step)
    requires k <= 32 && Stores(sys, kind, mmaps[sys.hex], k)
    ensures var after := Stepped(deck, managers, mmaps, sys, kind, step);
      && CmosPolled(deck, managers, after, sys, kind)
      && Stores(sys, kind, after[sys.hex], if step.Advance? then NextOf33(k) else k)
  {
    hide Contains, Splat, Reply, Packet, ReadCommand, WriteOk, ReadOk, Registered, SystemFor, Value, Written, Advanced, CmosPlace,
      Unambiguous;
    var p, memory := sys.rings[kind], mmaps[sys.hex];
    match step {
      case Advance => CmosAdvances(sys, kind, memory, k);
      case Poll(garbage) => ReadEndToEnd(deck, managers, mmaps, sys, p.writePointerAddress, 4, garbage);
      case Write(command, garbage) =>
        WriteEndToEnd(deck, managers, mmaps, sys, command, garbage);
        FieldKept(p, memory, Stepped(deck, managers, mmaps, sys, kind, step)[sys.hex]);
    }
  }

  /** Over every run of advances, polls and other writes, a cmos pointer stays at one of 33 places, as a cdte one at one of 981. */
  lemma {:induction false} CmosPointerStaysInRing(
      deck: seq<System>, managers: seq<System>, sys: System, kind: BufferType, states: seq<Memories>, steps: seq<Step>, k: nat)
    requires Run(deck, managers, sys, kind, states, steps) && k <= 32
    requires CmosPolled(deck, managers, states[0], sys, kind) && Stores(sys, kind, states[0][sys.hex], k)
    ensures var last := states[|steps|];
      && CmosPolled(deck, managers, last, sys, kind)
      && Stores(sys, kind, last[sys.hex], (k + Advances(steps)) % 33)
  {
    hide Contains, Stepped, StepOk, Stores, ReadOk, Registered, SystemFor, Unambiguous, CmosOk, NextOf33;
    var n := |steps|;
    if n > 0 {
      CmosPointerStaysInRing(deck, managers, sys, kind, states[..n], steps[..n - 1], k);
      var place := (k + Advances(steps[..n - 1])) % 33;
      CmosStep(deck, managers, states[n - 1], sys, kind, steps[n - 1], place);
      AddModulo33(k + Advances(steps[..n - 1]));
    }
  }

  lemma AddModulo33(v: nat)
    ensures NextOf33(v % 33) == (v + 1) % 33
  {
  }

  /** The number with the bytes of v in the other order. */
  function Reversed(v: nat): nat
    requires v < 0x1_0000_0000
  {
    0x100_0000 * (v % 0x100) + 0x1_0000 * (v / 0x100 % 0x100) + 0x100 * (v / 0x1_0000 % 0x100) + v / 0x100_0000
  }

  lemma BytesOfSplat(v: nat)
    requires v < 0x1_0000_0000
    ensures Splat(4, v) == [v / 0x100_0000, v / 0x1_0000 % 0x100, v / 0x100 % 0x100, v % 0x100]
    ensures LittleEndian(Splat(4, v)) == Reversed(v)
  {
    assert v / 0x100 / 0x100 == v / 0x1_0000 && v / 0x1_0000 / 0x100 == v / 0x100_0000;
    assert v / 0x100_0000 / 0x100 == 0 && v / 0x100_0000 % 0x100 == v / 0x100_0000;
    assert Splat(0, 0) == [];
    assert Splat(1, v / 0x100_0000) == [v / 0x100_0000];
    assert Splat(2, v / 0x1_0000) == Splat(1, v / 0x100_0000) + [v / 0x1_0000 % 0x100];
    assert Splat(3, v / 0x100) == Splat(2, v / 0x1_0000) + [v / 0x100 % 0x100];
    assert Splat(4, v) == Splat(3, v / 0x100) + [v % 0x100];
  }

  lemma SameDigits(a: nat, b: nat, c: nat, d: nat)
    requires a < 0x100 && b < 0x100 && c < 0x100 && d < 0x100
    ensures 0x100_0000 * a + 0x1_0000 * b + 0x100 * c + d == 0x100_0000 * d + 0x1_0000 * c + 0x100 * b + a <==> a == d && b == c
  {
  }

  lemma DigitsOf(v: nat)
    requires v < 0x1_0000_0000
    ensures var a, b, c, d := v / 0x100_0000, v / 0x1_0000 % 0x100, v / 0x100 % 0x100, v % 0x100;
      a < 0x100 && b < 0x100 && c < 0x100 && d < 0x100 && v == 0x100_0000 * a + 0x1_0000 * b + 0x100 * c + d
  {
    var w, x := v / 0x100, v / 0x1_0000;
    assert w / 0x100 == x && x / 0x100 == v / 0x100_0000;
    assert v == 0x100 * w + v % 0x100 && w == 0x100 * x + w % 0x100 && x == 0x100 * (x / 0x100) + x % 0x100;
  }

  /** Reversing leaves a number as it is exactly if its outer bytes are equal and its inner bytes are. */
  lemma ReversedIsSame(v: nat)
    requires v < 0x1_0000_0000
    ensures Reversed(v) == v <==> v / 0x100_0000 == v % 0x100 && v / 0x1_0000 % 0x100 == v / 0x100 % 0x100
  {
    DigitsOf(v);
    SameDigits(v / 0x100_0000, v / 0x1_0000 % 0x100, v / 0x100 % 0x100, v % 0x100);
  }

  /**
   * A poll of an emulated cmos ring anywhere in such a run reads at the stored pointer with its bytes reversed; that is where
   * the pointer points exactly if the pointer reads the same both ways.
   */
  lemma CmosPollReadsReversed(
      c: Setting, wire: Wire, states: seq<Memories>, steps: seq<Step>, k: nat, garbage: Byte, s: Station, prior: nat, d: nat,
      more: seq<seq<Byte>>)
    requires Run(wire.deck, wire.managers, c.system, c.kind, states, steps) && k <= 32
    requires CmosPolled(wire.deck, wire.managers, states[0], c.system, c.kind)
    requires Stores(c.system, c.kind, states[0][c.system.hex], k)
    requires SettingOk(c) && CanRead(c) && |c.system.rings| >= TypeCode(c.kind) && d < c.tries && IsCamera(c)
    requires SystemFor(c.commands, c.system.hex) == c.system
    requires s.script == Timeouts(d) + [AnswerTo(wire, states[|steps|], PointerRequest(c), garbage)] + more
    ensures var v := CmosPlace(c.system, c.kind, (k + Advances(steps)) % 33);
      && v < 0x1_0000_0000 && ReadsAt(c, s, prior, Reversed(v))
      && (Reversed(v) == v <==> v / 0x100_0000 == v % 0x100 && v / 0x1_0000 % 0x100 == v / 0x100 % 0x100)
  {
    hide Reply, ReadCommand, ReadOk, Unambiguous, Registered, SystemFor, Splat, ReplyData, CmosPlace, Advances, ReadsAt, Contains,
      IsStep, Reversed;
    var p, last, place := c.system.rings[c.kind], states[|steps|], (k + Advances(steps)) % 33;
    CmosPointerStaysInRing(wire.deck, wire.managers, c.system, c.kind, states, steps, k);
    ReadEndToEnd(wire.deck, wire.managers, last, c.system, p.writePointerAddress, 4, garbage);
    NextCmosPlace(c.system, c.kind, place);
    var v := CmosPlace(c.system, c.kind, place);
    BytesOfSplat(v);
    ReversedIsSame(v);
    PollReadsAnnounced(c, s, prior, d, AnswerTo(wire, last, PointerRequest(c), garbage), more, Reversed(v));
  }

  /** At the start of the ring of frames that the emulator itself goes by, the formatter reads elsewhere. */
  lemma CmosStartIsMisread(c: Setting, address: nat)
    requires c.kind in c.system.rings && IsCamera(c) && !Contains(c.system.name, "cdte")
    ensures Announces(c, Splat(4, 0x0440_1000), address) <==> address == 0x0010_4004
  {
    hide Contains, IsCamera;
    BytesOfSplat(0x0440_1000);
  }
}

/**
 * From a detector's memory to the ground's log: polls of a ring buffer answered by the emulator, the frames they read, the
 * packets these are cut into, and their reassembly.
 */
module EndToEnd {
  import opened Options
  import opened Bytes
  import opened Modular
  import opened Systems
  import opened CommandDeck
  import opened Foxsimile
  import opened RmapMemory
  import opened RingPointer
  import opened Buffers
  import opened Transport
  import opened TransportRuns
  import opened Ground

  // ---- replies among timeouts ----

  /** What the socket yields when each reply comes after some attempts in vain. */
  function Interleaved(delays: seq<nat>, replies: seq<seq<Byte>>): seq<seq<Byte>>
    requires |delays| == |replies|
  {
    if replies == [] then [] else Timeouts(delays[0]) + [replies[0]] + Interleaved(delays[1..], replies[1..])
  }

  predicate Patient(tries: nat, delays: seq<nat>) { forall i :: 0 <= i < |delays| ==> delays[i] < tries }

  /**
   * Content can be vouched for where every packet carries the header and the footer of an RMAP reply around its data. The
   * reads of a frame may overlap or leave gaps: their length is the ethernet payload's, their stride the SpaceWire one's.
   */
  predicate Plain(c: Setting) {
    && SettingOk(c) && CanRead(c) && FirstFits(c)
    && var link := c.system.spacewire.value.link;
      && Payload(c) > 0 && link.staticHeader == DATA_OFFSET && link.staticFooter == 1
      && forall first :: Head(c.framer.value.link, first) == DATA_OFFSET && Foot(c.framer.value.link, first) == 1
  }

  function FrameRequests(c: Setting, pointer: nat, n: nat, count: nat): (r: seq<seq<Byte>>)
    requires CanRead(c) && c.system.ethernet.Some?
    ensures |r| == count
  {
    seq(count, i requires 0 <= i < count => FrameRequest(c, pointer, n + i))
  }

  /** Replies that carry, piece by piece, the bytes of data; the last may bring more than is left. */
  ghost predicate Carry(c: Setting, replies: seq<seq<Byte>>, data: seq<Byte>)
    requires Plain(c)
  {
    && |replies| == CeilDiv(|data|, Payload(c))
    && forall i :: 0 <= i < |replies| ==>
         |replies[i]| == Expected(c) && Piece(data, Payload(c), i) <= replies[i][DATA_OFFSET..Expected(c) - 1]
  }

  lemma CarryOn(c: Setting, replies: seq<seq<Byte>>, data: seq<Byte>)
    requires Plain(c) && Carry(c, replies, data) && data != []
    ensures |replies| > 0 && |replies[0]| == Expected(c)
    ensures var n := Min(Payload(c), |data|);
      data[..n] <= replies[0][DATA_OFFSET..Expected(c) - 1] && Carry(c, replies[1..], data[n..])
  {
    var p, n := Payload(c), Min(Payload(c), |data|);
    CeilLess(|data|, 0, p);
    assert Piece(data, p, 0) == data[..n] by { assert 0 * p == 0 && 1 * p == p; }
    if |data| > p {
      CeilStep(|data|, p);
      forall i | 0 <= i < |replies| - 1
        ensures |replies[1..][i]| == Expected(c) && Piece(data[p..], p, i) <= replies[1..][i][DATA_OFFSET..Expected(c) - 1]
      {
        PieceOfRest(data, p, i);
        assert replies[1..][i] == replies[i + 1];
      }
    } else {
      assert data[n..] == [];
      QuotientIs(|data| + p - 1, 1, |data| - 1, p);
      QuotientIs(p - 1, 0, p - 1, p);
    }
  }

  lemma FirstRequest(c: Setting, pointer: nat, n: nat, count: nat)
    requires CanRead(c) && c.system.ethernet.Some? && count > 0
    ensures FrameRequests(c, pointer, n, count) == [FrameRequest(c, pointer, n)] + FrameRequests(c, pointer, n + 1, count - 1)
  {
  }

  lemma PushTakesData(c: Setting, f: Framing, reply: seq<Byte>, data: seq<Byte>)
    requires Plain(c) && |reply| == Expected(c) && FramingOk(c.framer.value.frameSize, f)
    requires data != [] && |f.frame| + |data| == c.framer.value.frameSize
    requires data[..Min(Payload(c), |data|)] <= reply[DATA_OFFSET..Expected(c) - 1]
    ensures var g := Pushed(c.framer.value.link, c.framer.value.frameSize, f, reply);
      g.Some? && g.value.frame == f.frame + data[..Min(Payload(c), |data|)] && FramingOk(c.framer.value.frameSize, g.value)
  {
    var link := c.framer.value.link;
    assert Head(link, true) == DATA_OFFSET && Head(link, false) == DATA_OFFSET && Foot(link, true) == 1 && Foot(link, false) == 1;
    assert Stripped(link, f.frame == [], reply) == reply[DATA_OFFSET..Expected(c) - 1];
  }

  /**
   * The reading loop fed with such replies: it ends with a complete frame, the framer's bytes followed by the data; it has
   * sent one request for each piece, and leaves the rest of what the socket yields alone.
   */
  lemma {:induction false} FrameFromReplies(
      c: Setting, pointer: nat, n: nat, s: Station, delays: seq<nat>, replies: seq<seq<Byte>>, data: seq<Byte>,
      more: seq<seq<Byte>>)
    requires Plain(c) && Carry(c, replies, data) && |delays| == |replies| && Patient(c.tries, delays)
    requires FramingOk(c.framer.value.frameSize, s.framing) && |s.framing.frame| + |data| == c.framer.value.frameSize
    requires s.script == Interleaved(delays, replies) + more
    ensures var (t, end) := ReadFrame(c, pointer, n, s);
      && end == Complete && t.framing.frame == s.framing.frame + data && t.script == more
      && t.sent == s.sent + FrameRequests(c, pointer, n, |replies|) && t.queue == s.queue && t.counter == s.counter
    decreases |data|
  {
    hide Attempt, AfterRead, Pushed, FrameRequest, Piece, CeilDiv;
    if data == [] {
      NoReplies(c, replies);
      assert FrameRequests(c, pointer, n, 0) == [];
      assert [] + more == more;
    } else {
      CarryOn(c, replies, data);
      var k := Min(Payload(c), |data|);
      assert s.script == Timeouts(delays[0]) + [replies[0]] + (Interleaved(delays[1..], replies[1..]) + more);
      AttemptSucceeds(delays[0], replies[0], Interleaved(delays[1..], replies[1..]) + more, Expected(c), c.tries);
      PushTakesData(c, s.framing, replies[0], data);
      var f := Pushed(c.framer.value.link, c.framer.value.frameSize, s.framing, replies[0]).value;
      var t := s.(sent := s.sent + [FrameRequest(c, pointer, n)], script := Interleaved(delays[1..], replies[1..]) + more,
                  faults := AfterRead(s.faults, replies[0]), framing := f);
      FrameFromReplies(c, pointer, n + 1, t, delays[1..], replies[1..], data[k..], more);
      FirstRequest(c, pointer, n, |replies|);
      assert data == data[..k] + data[k..];
    }
  }

  lemma NoReplies(c: Setting, replies: seq<seq<Byte>>)
    requires Plain(c) && Carry(c, replies, [])
    ensures replies == []
  {
    QuotientIs(Payload(c) - 1, 0, Payload(c) - 1, Payload(c));
  }

  // ---- one poll answered by the emulator ----

  /** Both sides of the wire. */
  datatype Wire = Wire(deck: seq<System>, managers: seq<System>)

  /**
   * One poll as the emulator sees it: its memories at each request in turn (they may change meanwhile), how many attempts
   * time out before each answer, the byte it reads past transaction ids, and the order in which packets reach the ground.
   */
  datatype Visit = Visit(pointer: nat, held: seq<Byte>, mems: seq<Memories>, delays: seq<nat>, garbage: Byte, order: seq<nat>)

  function Requests(c: Setting, v: Visit): (r: seq<seq<Byte>>)
    requires CanRead(c) && c.system.ethernet.Some? && Payload(c) > 0
    ensures |r| == 1 + CeilDiv(|v.held|, Payload(c))
  {
    [PointerRequest(c)] + FrameRequests(c, v.pointer, 0, CeilDiv(|v.held|, Payload(c)))
  }

  function AnswerTo(wire: Wire, mmaps: Memories, request: seq<Byte>, garbage: Byte): seq<Byte> {
    var answer := Reply(wire.deck, wire.managers, mmaps, request, garbage).0;
    if answer.Answer? then answer.bytes else []
  }

  function Answers(wire: Wire, mems: seq<Memories>, requests: seq<seq<Byte>>, garbage: Byte): (r: seq<seq<Byte>>)
    requires |mems| == |requests|
    ensures |r| == |requests|
  {
    seq(|requests|, i requires 0 <= i < |requests| => AnswerTo(wire, mems[i], requests[i], garbage))
  }

  /** From one read of a frame to the next. */
  function Stride(c: Setting): nat
    requires c.system.spacewire.Some?
  {
    c.system.spacewire.value.link.maxPayloadSize
  }

  /** The i-th piece of what is held at the pointer can be read from a memory, and is there. */
  ghost predicate Holds(c: Setting, wire: Wire, mmaps: Memories, v: Visit, i: nat)
    requires Plain(c)
  {
    var address := v.pointer + i * Stride(c);
    && Reachable(wire.deck, wire.managers, mmaps, c.system)
    && ReadOk(wire.managers, c.system.spacewire.value, address, Payload(c))
    && address + Payload(c) <= |mmaps[c.system.hex]|
    && Piece(v.held, Payload(c), i) <= mmaps[c.system.hex][address..address + Payload(c)]
  }

  /** The write pointer stored in a memory announces the visit's address. */
  ghost predicate Names(c: Setting, wire: Wire, mmaps: Memories, pointer: nat)
    requires CanRead(c)
  {
    var p := c.system.rings[c.kind];
    && Reachable(wire.deck, wire.managers, mmaps, c.system)
    && ReadOk(wire.managers, c.system.spacewire.value, p.writePointerAddress, 4)
    && p.writePointerWidth == 4 && FieldInside(p, mmaps[c.system.hex])
    && Announces(c, PointerField(p, mmaps[c.system.hex]), pointer)
  }

  /** Where byte k of the frame at a pointer is in memory; the same distance from the pointer if the stride is the length read. */
  function PlaceInMemory(c: Setting, pointer: nat, k: nat): nat
    requires Plain(c)
  {
    pointer + (k / Payload(c)) * Stride(c) + k % Payload(c)
  }

  lemma HeldByteByByte(c: Setting, wire: Wire, mmaps: Memories, v: Visit, k: nat)
    requires Plain(c) && k < |v.held| && Holds(c, wire, mmaps, v, k / Payload(c))
    ensures PlaceInMemory(c, v.pointer, k) < |mmaps[c.system.hex]|
    ensures v.held[k] == mmaps[c.system.hex][PlaceInMemory(c, v.pointer, k)]
    ensures Stride(c) == Payload(c) ==> PlaceInMemory(c, v.pointer, k) == v.pointer + k
  {
    hide ReadOk, FirstFits, Registered, SystemFor;
    var m, i, j := Payload(c), k / Payload(c), k % Payload(c);
    DivisionOf(k, m);
    assert (i + 1) * m == i * m + m;
    var piece := Piece(v.held, m, i);
    assert piece[j] == v.held[k];
    var address := v.pointer + i * Stride(c);
    assert mmaps[c.system.hex][address..address + m][j] == piece[j];
  }

  ghost predicate VisitOk(c: Setting, wire: Wire, v: Visit) {
    && Plain(c) && SystemFor(c.commands, c.system.hex) == c.system && |c.system.rings| >= TypeCode(c.kind)
    && c.system.rings[c.kind].writePointerWidth == 4
    && |v.mems| == |v.delays| == |Requests(c, v)| && Patient(c.tries, v.delays)
    && Names(c, wire, v.mems[0], v.pointer)
    && forall i :: 1 <= i < |v.mems| ==> Holds(c, wire, v.mems[i], v, i - 1)
  }

  /** What the socket yields in the visit. */
  function Yield(c: Setting, wire: Wire, v: Visit): seq<seq<Byte>>
    requires CanRead(c) && c.system.ethernet.Some? && Payload(c) > 0 && |v.mems| == |v.delays| == |Requests(c, v)|
  {
    Interleaved(v.delays, Answers(wire, v.mems, Requests(c, v), v.garbage))
  }

  lemma PieceAnswered(c: Setting, wire: Wire, mmaps: Memories, v: Visit, i: nat)
    requires Plain(c) && Holds(c, wire, mmaps, v, i) && SystemFor(c.commands, c.system.hex) == c.system
    requires c.system.rings[c.kind].writePointerWidth == 4
    ensures var reply := AnswerTo(wire, mmaps, FrameRequest(c, v.pointer, i), v.garbage);
      |reply| == Expected(c) && Piece(v.held, Payload(c), i) <= reply[DATA_OFFSET..Expected(c) - 1]
  {
    hide Reply, ReadCommand, ReadOk, Unambiguous, Registered, SystemFor, Splat, ReplyData, FirstFits, Piece;
    var address := v.pointer + i * Stride(c);
    ReadEndToEnd(wire.deck, wire.managers, mmaps, c.system, address, Payload(c), v.garbage);
    AddressSmall(wire.managers, c.system.spacewire.value, address, Payload(c));
  }

  lemma AddressSmall(managers: seq<System>, spw: SpaceWire, address: nat, length: nat)
    requires ReadOk(managers, spw, address, length)
    ensures address < 0x1_0000_0000 && U64(address) == address
  {
  }

  lemma PointerAnswered(c: Setting, wire: Wire, mmaps: Memories, pointer: nat, garbage: Byte)
    requires Plain(c) && Names(c, wire, mmaps, pointer) && SystemFor(c.commands, c.system.hex) == c.system
    ensures var reply := AnswerTo(wire, mmaps, PointerRequest(c), garbage);
      && MIN_REPLY_SIZE <= |reply| <= READ_SOME_SIZE && |ReplyData(reply)| == 4 && PointerFrom(c, ReplyData(reply)) == pointer
  {
    hide Reply, ReadCommand, ReadOk, Unambiguous, Registered, SystemFor, Splat, ReplyData, FirstFits, PointerFrom, Announces;
    var p := c.system.rings[c.kind];
    PointerIsAnnounced(c, PointerField(p, mmaps[c.system.hex]));
    ReadEndToEnd(wire.deck, wire.managers, mmaps, c.system, p.writePointerAddress, 4, garbage);
  }

  /**
   * One poll answered by the emulator, with a new pointer: exactly the visit's requests are sent; the frame queued is what
   * an earlier, aborted poll may have left in the framer, followed by what memory holds at the pointer.
   */
  lemma PollQueuesMemory(c: Setting, wire: Wire, v: Visit, s: Station, prior: nat, more: seq<seq<Byte>>)
    requires VisitOk(c, wire, v) && v.pointer != prior && s.script == Yield(c, wire, v) + more
    requires FramingOk(c.framer.value.frameSize, s.framing) && |s.framing.frame| + |v.held| == c.framer.value.frameSize
    ensures var (t, exit) := Transaction(c, s, prior); var z := c.cut.value;
      && exit == Returned(v.pointer) && t.framing == EMPTY && t.counter == U16(s.counter + 1) && t.script == more
      && t.sent == s.sent + Requests(c, v)
      && t.queue == s.queue + ElementsFrom(z, s.framing.frame + v.held, z.packetsPerFrame, s.counter)
  {
    hide Reply, ReadOk, Unambiguous, Registered, SystemFor, ReplyData, PointerFrom, Attempt, AfterRead, FrameRequest,
      PointerRequest, ReadFrame, ElementsFrom, Piece, Names, Holds, Interleaved, Reachable, FirstFits, AnswerTo;
    var requests, count := Requests(c, v), CeilDiv(|v.held|, Payload(c));
    var replies: seq<seq<Byte>> := Answers(wire, v.mems, requests, v.garbage);
    var tail: seq<seq<Byte>> := replies[1..];
    PointerAnswered(c, wire, v.mems[0], v.pointer, v.garbage);
    var rest := Interleaved(v.delays[1..], replies[1..]) + more;
    InterleavedFirst(v.delays, replies, more);
    AttemptSucceeds(v.delays[0], replies[0], rest, READ_SOME_SIZE, c.tries);
    var t := s.(sent := s.sent + [PointerRequest(c)], script := rest, faults := AfterRead(s.faults, replies[0]));
    assert ReadPointerField(c, s) == (t, Some(ReplyData(replies[0])));
    forall i | 0 <= i < count
      ensures |tail[i]| == Expected(c) && Piece(v.held, Payload(c), i) <= tail[i][DATA_OFFSET..Expected(c) - 1]
    {
      assert tail[i] == AnswerTo(wire, v.mems[i + 1], FrameRequest(c, v.pointer, i), v.garbage);
      PieceAnswered(c, wire, v.mems[i + 1], v, i);
    }
    FrameFromReplies(c, v.pointer, 0, t, v.delays[1..], tail, v.held, more);
    assert t.sent + FrameRequests(c, v.pointer, 0, count) == s.sent + requests;
  }

  // ---- polls of a ring ----

  lemma {:induction false} RequestsInOrder(c: Setting, pointer: nat, n: nat, s: Station)
    requires SettingOk(c) && CanRead(c)
    ensures var t := ReadFrame(c, pointer, n, s).0;
      && |s.sent| <= |t.sent| && t.sent[..|s.sent|] == s.sent
      && (|s.framing.frame| != c.framer.value.frameSize ==> |s.sent| < |t.sent|)
      && forall i :: |s.sent| <= i < |t.sent| ==> t.sent[i] == FrameRequest(c, pointer, n + (i - |s.sent|))
    decreases |s.script|
  {
    hide FrameRequest, Attempt, AfterRead, Pushed;
    if |s.framing.frame| != c.framer.value.frameSize {
      var (reply, rest) := Attempt(s.script, Expected(c), c.tries);
      var t := s.(sent := s.sent + [FrameRequest(c, pointer, n)], script := rest, faults := AfterRead(s.faults, reply));
      if |reply| == Expected(c) && Pushed(c.framer.value.link, c.framer.value.frameSize, s.framing, reply).Some? {
        var u := t.(framing := Pushed(c.framer.value.link, c.framer.value.frameSize, s.framing, reply).value);
        RequestsInOrder(c, pointer, n + 1, u);
        var end := ReadFrame(c, pointer, n + 1, u).0;
        assert ReadFrame(c, pointer, n, s).0 == end;
        assert end.sent[..|s.sent|] == end.sent[..|t.sent|][..|s.sent|];
        assert end.sent[|s.sent|] == end.sent[..|t.sent|][|s.sent|];
      }
    }
  }

  /** The request is a read of so many bytes at an address, in so many bytes of the standard's header, for this target. */
  ghost predicate Asks(request: seq<Byte>, spw: SpaceWire, address: nat, width: nat, length: nat) {
    exists a: seq<Byte> :: |a| == width && Value(a) == address
      && HeaderAt(request, spw.targetPath,
                  Header(spw.targetLogical, 0x4d, spw.key, spw.replyPath, spw.sourceLogical, [0, 0], a, length))
  }

  lemma ReadAsks(spw: SpaceWire, address: nat, width: nat, length: nat)
    requires length < 0x100_0000 && address < Pow256(width)
    ensures Asks(ReadCommand(spw, Splat(width, address), length), spw, address, width, length)
  {
    hide Splat, Value, Pow256, Routed, Framed, HeaderAt;
    var h := ReadHeader(spw, Splat(width, address), length);
    ValueOfSplat(width, address);
    HeaderReadBack(spw, h, []);
    assert Routed(spw, h) + [] == Routed(spw, h);
    assert HeaderAt(ReadCommand(spw, Splat(width, address), length), spw.targetPath, h);
  }

  /** A poll asks first for the pointer's field, at its own address and of its own width. */
  lemma PointerAsked(c: Setting, spw: SpaceWire)
    requires c.kind in c.system.rings && SystemFor(c.commands, c.system.hex).spacewire == Some(spw)
    requires c.system.rings[c.kind].writePointerWidth < 0x100_0000
    requires c.system.rings[c.kind].writePointerAddress < Pow256(c.system.rings[c.kind].writePointerWidth)
    ensures var p := c.system.rings[c.kind];
      Asks(PointerRequest(c), spw, p.writePointerAddress, p.writePointerWidth, p.writePointerWidth)
  {
    hide Asks, Splat, Pow256, ReadCommand, SystemFor;
    var p := c.system.rings[c.kind];
    ReadAsks(spw, p.writePointerAddress, p.writePointerWidth, p.writePointerWidth);
  }

  /** Then, stride by stride from where the pointer leads, for as many bytes as an ethernet payload holds. */
  lemma PieceAsked(c: Setting, spw: SpaceWire, pointer: nat, n: nat)
    requires CanRead(c) && c.system.ethernet.Some? && SystemFor(c.commands, c.system.hex).spacewire == Some(spw)
    requires Payload(c) < 0x100_0000 && pointer + n * Stride(c) < 0x1_0000_0000_0000_0000
    requires pointer + n * Stride(c) < Pow256(c.system.rings[c.kind].writePointerWidth)
    ensures Asks(FrameRequest(c, pointer, n), spw, pointer + n * Stride(c), c.system.rings[c.kind].writePointerWidth, Payload(c))
  {
    hide Asks, Splat, Pow256, ReadCommand, SystemFor;
    assert U64(pointer + n * Stride(c)) == pointer + n * Stride(c);
    ReadAsks(spw, pointer + n * Stride(c), c.system.rings[c.kind].writePointerWidth, Payload(c));
  }

  /** What a transaction does with the address that the pointer's bytes announce. */
  ghost predicate ReadsAt(c: Setting, s: Station, prior: nat, address: nat)
    requires SettingOk(c) && CanRead(c)
  {
    var (t, exit) := Transaction(c, s, prior);
    && |t.sent| > |s.sent| && t.sent[..|s.sent| + 1] == s.sent + [PointerRequest(c)]
    && (exit.Returned? ==> exit.pointer == prior || exit.pointer == address)
    && (address == prior ==> exit == Returned(prior) && t.sent == s.sent + [PointerRequest(c)] && t.queue == s.queue)
    && (address != prior && |s.framing.frame| != c.framer.value.frameSize ==> |t.sent| > |s.sent| + 1)
    && forall i :: |s.sent| < i < |t.sent| ==> t.sent[i] == FrameRequest(c, address, i - |s.sent| - 1)
  }

  /**
   * A poll whose pointer reply carries bytes that announce an address reads there and nowhere else, and returns that address
   * or the one it was given.
   */
  lemma PollReadsAnnounced(
      c: Setting, s: Station, prior: nat, d: nat, reply: seq<Byte>, more: seq<seq<Byte>>, address: nat)
    requires SettingOk(c) && CanRead(c) && |c.system.rings| >= TypeCode(c.kind) && d < c.tries
    requires MIN_REPLY_SIZE <= |reply| <= READ_SOME_SIZE && |ReplyData(reply)| == 4
    requires s.script == Timeouts(d) + [reply] + more && Announces(c, ReplyData(reply), address)
    ensures ReadsAt(c, s, prior, address)
  {
    hide Announces, PointerFrom, ReplyData, Attempt, AfterRead, PointerRequest, FrameRequest, ReadFrame, Queued;
    PointerIsAnnounced(c, ReplyData(reply));
    AttemptSucceeds(d, reply, more, READ_SOME_SIZE, c.tries);
    var t := s.(sent := s.sent + [PointerRequest(c)], script := more, faults := AfterRead(s.faults, reply));
    assert ReadPointerField(c, s) == (t, Some(ReplyData(reply)));
    hide ReadPointerField;
    RequestsInOrder(c, address, 0, t);
    QueuedKeepsSent(c, ReadFrame(c, address, 0, t).0);
  }

  lemma QueuedKeepsSent(c: Setting, s: Station)
    requires c.cut.Some? && CutOk(c.cut.value)
    ensures Queued(c, s).sent == s.sent
  {
  }

  /**
   * A poll anywhere in a run of advances, polls and writes on a cdte ring, whose pointer began at place k, reads the frame
   * before the pointer's present place: its requests begin there, and a new pointer it returns is that frame's address.
   */
  lemma PollReadsRingFrame(
      c: Setting, wire: Wire, states: seq<Memories>, steps: seq<Step>, k: nat, garbage: Byte, s: Station, prior: nat, d: nat,
      more: seq<seq<Byte>>)
    requires RingPointer.Run(wire.deck, wire.managers, c.system, c.kind, states, steps) && k <= 980
    requires Polled(wire.deck, wire.managers, states[0], c.system, c.kind)
    requires PointsAt(c.system.rings[c.kind], states[0][c.system.hex], k)
    requires SettingOk(c) && CanRead(c) && |c.system.rings| >= TypeCode(c.kind) && d < c.tries && !IsCamera(c)
    requires SystemFor(c.commands, c.system.hex) == c.system
    requires s.script == Timeouts(d) + [AnswerTo(wire, states[|steps|], PointerRequest(c), garbage)] + more
    ensures ReadsAt(c, s, prior, Place(c.system.rings[c.kind], FrameAt((k + Advances(steps)) % 981)))
  {
    hide Reply, ReadCommand, ReadOk, Unambiguous, Registered, SystemFor, Splat, ReplyData, FrameAddress, Place, Advances, ReadsAt,
      Contains, IsStep;
    var p, last, place := c.system.rings[c.kind], states[|steps|], (k + Advances(steps)) % 981;
    PointerStaysInRing(wire.deck, wire.managers, c.system, c.kind, states, steps, k);
    PollNamesWholeFrame(wire.deck, wire.managers, c.system, c.kind, states, steps, k, garbage);
    ReadEndToEnd(wire.deck, wire.managers, last, c.system, p.writePointerAddress, 4, garbage);
    var reply := AnswerTo(wire, last, PointerRequest(c), garbage);
    PlaceAnnounced(c, ReplyData(reply), place);
    PollReadsAnnounced(c, s, prior, d, reply, more, Place(p, FrameAt(place)));
  }

  lemma PlaceAnnounced(c: Setting, b: seq<Byte>, place: nat)
    requires RingOk(c.system, c.kind) && !IsCamera(c) && place <= 980
    requires |b| == 4 && Unsplat4(b) == Place(c.system.rings[c.kind], place)
    ensures Announces(c, b, Place(c.system.rings[c.kind], FrameAt(place)))
  {
    BytesDenote(b);
    FrameAddressInRing(c.system, c.kind, place);
    hide Unsplat4, BigEndian, Place, Contains, SwapEndian4, LittleEndian, Called;
  }

  lemma InterleavedFirst(delays: seq<nat>, replies: seq<seq<Byte>>, more: seq<seq<Byte>>)
    requires |delays| == |replies| > 0
    ensures Interleaved(delays, replies) + more == Timeouts(delays[0]) + [replies[0]] + (Interleaved(delays[1..], replies[1..]) + more)
  {
  }

  // ---- to the ground ----

  /** What the network delivers of the packets sent, any of them any number of times. */
  function Delivered(packets: seq<seq<Byte>>, order: seq<nat>): (r: seq<seq<Byte>>)
    ensures |r| == |order|
  {
    seq(|order|, i requires 0 <= i < |order| => if order[i] < |packets| then packets[order[i]] else [])
  }

  /** The formatter, its last pointer, and the ground's reassembly and log. */
  datatype Flight = Flight(station: Station, prior: nat, assembly: Assembly, log: seq<Byte>)

  function PacketCount(c: Setting): nat
    requires CanRead(c)
  {
    c.cut.value.packetsPerFrame
  }

  /** A poll, then a draining of the queue, then the ground's treatment of what is delivered. */
  function Flown(c: Setting, wire: Wire, f: Flight, v: Visit): Flight
    requires SettingOk(c) && CanRead(c) && Payload(c) > 0 && |v.mems| == |v.delays| == |Requests(c, v)|
  {
    var (t, exit) := Transaction(c, f.station.(script := Yield(c, wire, v)), f.prior);
    var d := Drained(t.queue);
    var (assembly, log) :=
      TakenAll(f.assembly, f.log, Room(c.cut.value), c.framer.value.frameSize, Delivered(d.packets, v.order));
    Flight(t.(queue := d.rest), if exit.Returned? then exit.pointer else f.prior, assembly, log)
  }

  function FlownAll(c: Setting, wire: Wire, f: Flight, visits: seq<Visit>): Flight
    requires Plain(c) && forall v :: v in visits ==> |v.mems| == |v.delays| == |Requests(c, v)|
  {
    if visits == [] then f
    else
      assert visits[|visits| - 1] in visits;
      Flown(c, wire, FlownAll(c, wire, f, visits[..|visits| - 1]), visits[|visits| - 1])
  }

  /** Between visits: nothing queued, nothing half done. */
  ghost predicate AtRest(c: Setting, f: Flight)
    requires CanRead(c)
  {
    f.station.framing == EMPTY && f.station.queue == [] && f.assembly == Fresh(c.framer.value.frameSize, PacketCount(c))
  }

  /**
   * The pointer is the one found before, and nothing is read or delivered; or a whole frame is held at it, its packets all
   * arrive, the last of them last; and none passes for an uplink element.
   */
  ghost predicate FlightOk(c: Setting, wire: Wire, prior: nat, v: Visit) {
    && VisitOk(c, wire, v) && Matched(c) && c.system.hex != UPLINK && PacketCount(c) < 0x1_0000
    && if v.pointer == prior then v.held == [] && v.order == []
       else
         && |v.held| == c.framer.value.frameSize && JustCovers(v.order, PacketCount(c))
         && forall i :: 0 <= i < |v.order| ==> v.order[i] < PacketCount(c)
  }

  lemma {:induction false} AllDrained(queue: seq<Element>)
    requires forall i :: 0 <= i < |queue| ==> queue[i].system != UPLINK
    ensures Drained(queue).rest == [] && |Drained(queue).packets| == |queue|
    ensures forall i :: 0 <= i < |queue| ==> Drained(queue).packets[i] == PacketOf(queue[i])
  {
    if queue != [] {
      AllDrained(queue[1..]);
    }
  }

  lemma DatagramsOfFrame(z: Cut, frame: seq<Byte>, counter: nat, order: seq<nat>)
    requires CutOk(z) && z.packetsPerFrame == CeilDiv(|frame|, Room(z)) < 0x1_0000 && z.system != UPLINK
    requires forall i :: 0 <= i < |order| ==> order[i] < z.packetsPerFrame
    ensures var d := Drained(ElementsFrom(z, frame, z.packetsPerFrame, counter));
      d.rest == [] && PacketsOf(Delivered(d.packets, order), order, frame, Room(z), z.packetsPerFrame)
  {
    hide ElementsFrom, IsPacketOf, PacketOf, CeilDiv, WholeFrame;
    var es := ElementsFrom(z, frame, z.packetsPerFrame, counter);
    FrameIsCutWhole(z, frame, counter);
    WholeFrameSize(z, counter, es);
    forall k | 0 <= k < |es| ensures es[k].system != UPLINK && es[k] == ElementFor(z, frame, counter, k) {
    }
    AllDrained(es);
    var packets := Delivered(Drained(es).packets, order);
    forall i | 0 <= i < |order| ensures IsPacketOf(packets[i], frame, Room(z), z.packetsPerFrame, order[i]) {
      ElementsGivePackets(z, frame, counter, order[i]);
    }
  }

  /** A poll that finds the pointer it found before reads no frame and queues nothing. */
  lemma SamePointerQueuesNothing(c: Setting, wire: Wire, v: Visit, s: Station, more: seq<seq<Byte>>)
    requires VisitOk(c, wire, v) && v.held == [] && s.script == Yield(c, wire, v) + more
    ensures var (t, exit) := Transaction(c, s, v.pointer);
      && exit == Returned(v.pointer) && t.framing == s.framing && t.counter == s.counter && t.script == more
      && t.sent == s.sent + Requests(c, v) && t.queue == s.queue
  {
    hide Reply, ReadOk, Unambiguous, Registered, SystemFor, ReplyData, PointerFrom, Attempt, AfterRead, FrameRequest,
      PointerRequest, ReadFrame, ElementsFrom, Piece, Names, Holds, Interleaved, Reachable, FirstFits, AnswerTo;
    QuotientIs(Payload(c) - 1, 0, Payload(c) - 1, Payload(c));
    assert Requests(c, v) == [PointerRequest(c)];
    var replies: seq<seq<Byte>> := Answers(wire, v.mems, Requests(c, v), v.garbage);
    PointerAnswered(c, wire, v.mems[0], v.pointer, v.garbage);
    InterleavedFirst(v.delays, replies, more);
    NothingInterleaved(v.delays[1..], replies[1..]);
    assert [] + more == more;
    AttemptSucceeds(v.delays[0], replies[0], more, READ_SOME_SIZE, c.tries);
    var t := s.(sent := s.sent + [PointerRequest(c)], script := more, faults := AfterRead(s.faults, replies[0]));
    assert ReadPointerField(c, s) == (t, Some(ReplyData(replies[0])));
  }

  lemma NothingInterleaved(delays: seq<nat>, replies: seq<seq<Byte>>)
    requires |delays| == |replies| == 0
    ensures Interleaved(delays, replies) == []
  {
  }

  /** One visit adds to the log what memory held. */
  lemma VisitIsLogged(c: Setting, wire: Wire, f: Flight, v: Visit)
    requires FlightOk(c, wire, f.prior, v) && AtRest(c, f)
    ensures var g := Flown(c, wire, f, v); AtRest(c, g) && g.log == f.log + v.held && g.prior == v.pointer
  {
    hide Transaction, VisitOk, FirstFits, Matched, CeilDiv, ElementsFrom, Drained, JustCovers, PacketsOf, TakenAll, Yield, Fresh;
    SettingIs(c, wire, f.prior, v);
    var z, s := c.cut.value, f.station.(script := Yield(c, wire, v));
    assert s.script == Yield(c, wire, v) + [];
    if v.pointer == f.prior {
      SamePointerQueuesNothing(c, wire, v, s, []);
      NothingDrained();
      NothingTakenOn(f.assembly, f.log, Room(z), c.framer.value.frameSize);
      assert Delivered([], v.order) == [] && f.log + [] == f.log;
    } else {
      NewFrameIsLogged(c, wire, f, v, s);
    }
  }

  lemma NewFrameIsLogged(c: Setting, wire: Wire, f: Flight, v: Visit, s: Station)
    requires FlightOk(c, wire, f.prior, v) && AtRest(c, f) && v.pointer != f.prior
    requires |v.mems| == |v.delays| == |Requests(c, v)| && s == f.station.(script := Yield(c, wire, v))
    ensures var g := Flown(c, wire, f, v); AtRest(c, g) && g.log == f.log + v.held && g.prior == v.pointer
  {
    hide Transaction, VisitOk, FirstFits, Matched, CeilDiv, ElementsFrom, Drained, JustCovers, PacketsOf, TakenAll, Yield, Fresh;
    SettingIs(c, wire, f.prior, v);
    var z := c.cut.value;
    assert s.script == Yield(c, wire, v) + [];
    PollQueuesMemory(c, wire, v, s, f.prior, []);
    assert [] + v.held == v.held;
    assert [] + ElementsFrom(z, v.held, z.packetsPerFrame, s.counter) == ElementsFrom(z, v.held, z.packetsPerFrame, s.counter);
    DatagramsOfFrame(z, v.held, s.counter, v.order);
    var t := Transaction(c, s, f.prior).0;
    FrameIsLogged(f.log, Delivered(Drained(t.queue).packets, v.order), v.order, v.held, Room(z), z.packetsPerFrame);
  }

  lemma NothingDrained()
    ensures Drained([]) == Drain([], [], false)
  {
  }

  lemma NothingTakenOn(a: Assembly, log: seq<Byte>, m: nat, q: nat)
    ensures TakenAll(a, log, m, q, []) == (a, log)
  {
  }

  lemma SettingIs(c: Setting, wire: Wire, prior: nat, v: Visit)
    requires FlightOk(c, wire, prior, v)
    ensures Plain(c) && |v.mems| == |v.delays| == |Requests(c, v)|
    ensures c.cut.value.packetsPerFrame == CeilDiv(c.framer.value.frameSize, Room(c.cut.value)) && c.cut.value.system == c.system.hex
  {
  }

  function HeldIn(visits: seq<Visit>): (r: seq<seq<Byte>>)
    ensures |r| == |visits|
  {
    seq(|visits|, i requires 0 <= i < |visits| => visits[i].held)
  }

  function PointerBefore(prior: nat, visits: seq<Visit>, i: nat): nat
    requires i <= |visits|
  {
    if i == 0 then prior else visits[i - 1].pointer
  }

  ghost predicate AllOk(c: Setting, wire: Wire, prior: nat, visits: seq<Visit>) {
    forall i :: 0 <= i < |visits| ==> FlightOk(c, wire, PointerBefore(prior, visits, i), visits[i])
  }

  lemma AllOkBefore(c: Setting, wire: Wire, prior: nat, visits: seq<Visit>)
    requires AllOk(c, wire, prior, visits) && visits != []
    ensures AllOk(c, wire, prior, visits[..|visits| - 1])
  {
    hide FlightOk;
    var before := visits[..|visits| - 1];
    forall i | 0 <= i < |before| ensures FlightOk(c, wire, PointerBefore(prior, before, i), before[i]) {
      assert before[i] == visits[i] && PointerBefore(prior, before, i) == PointerBefore(prior, visits, i);
    }
  }

  /**
   * From detector to ground: over any number of polls, each answered after any bearable timeouts by an emulator whose memory
   * may change between requests but holds the frame being read, with the packets of each frame arriving in any order and any
   * number of times before its last, the ground's log is the detector's memory at every newly found pointer, frame after
   * frame; a poll that finds the pointer it found before adds nothing.
   */
  lemma {:induction false} DetectorToGround(c: Setting, wire: Wire, f: Flight, visits: seq<Visit>)
    requires Plain(c) && AtRest(c, f) && f.log == [] && AllOk(c, wire, f.prior, visits)
    requires forall v :: v in visits ==> |v.mems| == |v.delays| == |Requests(c, v)|
    ensures var g := FlownAll(c, wire, f, visits);
      && AtRest(c, g) && g.log == Concatenated(HeldIn(visits))
      && g.prior == PointerBefore(f.prior, visits, |visits|)
  {
    hide FlightOk, AtRest, Flown, Plain;
    if visits != [] {
      var n := |visits| - 1;
      AllOkBefore(c, wire, f.prior, visits);
      DetectorToGround(c, wire, f, visits[..n]);
      assert visits[n] in visits;
      assert HeldIn(visits)[..n] == HeldIn(visits[..n]);
      assert PointerBefore(f.prior, visits[..n], n) == PointerBefore(f.prior, visits, n);
      VisitIsLogged(c, wire, FlownAll(c, wire, f, visits[..n]), visits[n]);
    }
  }
}

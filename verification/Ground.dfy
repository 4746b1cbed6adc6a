/** The ground-side reassembler of frames from downlink packets (util/logudp.py:84-120). */
module Ground {
  import opened Bytes
  import opened Modular
  import opened Systems
  import opened Buffers

  // ---- Python's slices ----

  /** A slice bound brought into range: negative ones count from the end. */
  function Clamp(i: int, n: nat): nat {
    if i < 0 then (if i + n < 0 then 0 else i + n) else if i > n then n else i
  }

  function Slice<T>(s: seq<T>, lo: int, hi: int): seq<T> {
    var a, b := Clamp(lo, |s|), Clamp(hi, |s|);
    if b < a then [] else s[a..b]
  }

  /** Assigning to a slice of a bytearray, which grows or shrinks to take the new bytes. */
  function AssignSlice<T>(s: seq<T>, lo: int, hi: int, data: seq<T>): seq<T> {
    var a, b := Clamp(lo, |s|), Clamp(hi, |s|);
    s[..a] + data + s[if b < a then a else b..]
  }

  // ---- reframe ----

  datatype Outcome = Finished | Unfinished | IndexError

  /** One frame under reassembly: its bytes, and which packets have come. */
  datatype Assembly = Assembly(queue: seq<Byte>, queued: seq<bool>)

  predicate AllTrue(b: seq<bool>) { forall i :: 0 <= i < |b| ==> b[i] }

  function Reframed(a: Assembly, payloadLen: nat, data: seq<Byte>): (Assembly, Outcome) {
    var npackets, ipacket, payload := Value(Slice(data, 1, 3)), Value(Slice(data, 3, 5)), Slice(data, 8, |data|);
    if ipacket <= npackets then
      var at := (ipacket - 1) * payloadLen;
      var queue := AssignSlice(a.queue, at, at + |payload|, payload);
      var i := if ipacket == 0 then |a.queued| - 1 else ipacket - 1;   // index -1 is the last
      if i < 0 || i >= |a.queued| then (Assembly(queue, a.queued), IndexError)
      else
        var queued := a.queued[i := true];
        (Assembly(queue, queued), if AllTrue(queued) then Finished else Unfinished)
    else (a, Unfinished)
  }

  class Logger {
    const payloadLen: nat
    const queueLen: nat
    var queue: seq<Byte>
    var queued: seq<bool>
    var outfile: seq<Byte>

    constructor (payloadLen: nat, queueLen: nat, packets: nat)
      ensures this.payloadLen == payloadLen && this.queueLen == queueLen
      ensures State() == Fresh(queueLen, packets) && outfile == []
    {
      this.payloadLen, this.queueLen := payloadLen, queueLen;
      queue, queued, outfile := Zeros(queueLen), Nones(packets), [];
    }

    function State(): Assembly
      reads this
    {
      Assembly(queue, queued)
    }

    method Reframe(data: seq<Byte>) returns (outcome: Outcome)
      modifies this`queue, this`queued
      ensures (State(), outcome) == Reframed(old(State()), payloadLen, data)
    {
      var npackets, ipacket := Value(Slice(data, 1, 3)), Value(Slice(data, 3, 5));
      if ipacket <= npackets {
        var thisIndex := (ipacket - 1) * payloadLen;
        var payload := Slice(data, 8, |data|);
        queue := AssignSlice(queue, thisIndex, thisIndex + |payload|, payload);
        var i := ipacket - 1;
        if i < 0 {
          i := i + |queued|;
        }
        if i < 0 || i >= |queued| {
          return IndexError;
        }
        queued := queued[i := true];
        var all := AllQueued();
        if all {
          return Finished;
        }
      }
      return Unfinished;
    }

    method AllQueued() returns (all: bool)
      ensures all <==> AllTrue(queued)
    {
      for i := 0 to |queued|
        invariant forall j :: 0 <= j < i ==> queued[j]
      {
        if !queued[i] {
          return false;
        }
      }
      return true;
    }

    /** The main loop's treatment of one packet: a finished frame is written out and a new one begun. */
    method Take(data: seq<Byte>) returns (outcome: Outcome)
      modifies this
      ensures (State(), outfile, outcome) == Taken(old(State()), old(outfile), payloadLen, queueLen, data)
    {
      outcome := Reframe(data);
      if outcome.Finished? {
        outfile := outfile + queue;
        queue := Zeros(queueLen);
        queued := Nones(|queued|);
      }
    }
  }

  function Zeros(n: nat): (s: seq<Byte>)
    ensures |s| == n && forall i :: 0 <= i < n ==> s[i] == 0
  {
    seq(n, _ => 0)
  }

  function Nones(n: nat): (s: seq<bool>)
    ensures |s| == n && forall i :: 0 <= i < n ==> !s[i]
  {
    seq(n, _ => false)
  }

  function Fresh(queueLen: nat, packets: nat): Assembly { Assembly(Zeros(queueLen), Nones(packets)) }

  function Taken(a: Assembly, outfile: seq<Byte>, payloadLen: nat, queueLen: nat, data: seq<Byte>): (Assembly, seq<Byte>, Outcome) {
    var (b, outcome) := Reframed(a, payloadLen, data);
    if outcome.Finished? then (Fresh(queueLen, |b.queued|), outfile + b.queue, outcome) else (b, outfile, outcome)
  }

  // ---- one frame's packets ----

  /** The packet of piece k, whatever system, kind and counter its header carries. */
  ghost predicate IsPacketOf(packet: seq<Byte>, frame: seq<Byte>, m: nat, n: nat, k: nat)
    requires m > 0
  {
    && k < n < 0x1_0000 && |packet| >= HEADER_SIZE && packet[8..] == Piece(frame, m, k)
    && packet[1..3] == Splat(2, n) && packet[3..5] == Splat(2, k + 1)
  }

  lemma ElementsGivePackets(z: Cut, frame: seq<Byte>, counter: nat, k: nat)
    requires CutOk(z) && z.packetsPerFrame == CeilDiv(|frame|, Room(z)) < 0x1_0000 && k < z.packetsPerFrame
    ensures IsPacketOf(PacketOf(ElementFor(z, frame, counter, k)), frame, Room(z), z.packetsPerFrame, k)
  {
    hide CeilDiv, Piece, Splat;
    PieceSize(frame, Room(z), k);
    var e := ElementFor(z, frame, counter, k);
    var p := PacketOf(e);
    assert p == HeaderOf(e) + e.payload;
    assert p[8..] == e.payload && p[1..3] == HeaderOf(e)[1..3] && p[3..5] == HeaderOf(e)[3..5];
  }

  lemma FieldValue(v: nat)
    requires v < 0x1_0000
    ensures Value(Splat(2, v)) == v
  {
    ValueOfSplat(2, v);
    assert Pow256(2) == 65536;
  }

  // ---- reassembly ----

  /** The piece a byte belongs to, numbered from 0. */
  function NumberOf(i: nat, m: nat): nat
    requires m > 0
  {
    i / m
  }

  /** The packets whose numbers are in seen have come, each in its place; the rest is still blank. */
  ghost predicate Assembled(a: Assembly, frame: seq<Byte>, m: nat, n: nat, seen: set<nat>)
    requires m > 0
  {
    && |a.queue| == |frame| && |a.queued| == n
    && (forall k :: 0 <= k < n ==> (a.queued[k] <==> k in seen))
    && (forall i :: 0 <= i < |frame| ==> a.queue[i] == if NumberOf(i, m) in seen then frame[i] else 0)
  }

  lemma InPiece(i: nat, m: nat, k: nat)
    requires m > 0
    ensures NumberOf(i, m) == k <==> k * m <= i < k * m + m
  {
    DivisionOf(i, m);
    if k * m <= i < k * m + m { Buffers.QuotientIs(i, k, i - k * m, m); }
  }

  lemma PieceIn(frame: seq<Byte>, m: nat, n: nat, k: nat)
    requires m > 0 && n == CeilDiv(|frame|, m) && k < n
    ensures k * m < |frame| && (k + 1) * m == k * m + m
  {
    DivisionOf(|frame| + m - 1, m);
    if k < n - 1 { MultipleIsFar(n - 1 - k, m); }
    assert n * m <= |frame| + m - 1;
    assert n * m == k * m + (n - k) * m;
    assert (n - k) * m >= m by { MultipleIsFar(n - k, m); }
  }

  /** The bytes of piece k are those numbered k. */
  lemma PieceNumbers(frame: seq<Byte>, m: nat, n: nat, k: nat)
    requires m > 0 && n == CeilDiv(|frame|, m) && k < n
    ensures var at, payload := k * m, Piece(frame, m, k);
      && at + |payload| <= |frame| && payload == frame[at..at + |payload|]
      && forall i :: 0 <= i < |frame| ==> (NumberOf(i, m) == k <==> at <= i < at + |payload|)
  {
    PieceIn(frame, m, n, k);
    hide CeilDiv;
    forall i | 0 <= i < |frame| ensures NumberOf(i, m) == k <==> k * m <= i < k * m + |Piece(frame, m, k)| {
      InPiece(i, m, k);
    }
  }

  /** What reframe makes of a packet of piece k, which begins at byte `at`. */
  lemma PacketIsRead(a: Assembly, m: nat, n: nat, packet: seq<Byte>, k: nat, at: nat, payload: seq<Byte>)
    requires |a.queued| == n && k < n < 0x1_0000 && at == k * m && at + |payload| <= |a.queue|
    requires |packet| >= HEADER_SIZE && packet[8..] == payload && packet[1..3] == Splat(2, n) && packet[3..5] == Splat(2, k + 1)
    ensures var queued := a.queued[k := true];
      Reframed(a, m, packet) == (Assembly(a.queue[..at] + payload + a.queue[at + |payload|..], queued),
                                 if AllTrue(queued) then Finished else Unfinished)
  {
    FieldValue(n);
    FieldValue(k + 1);
    hide Splat, Value, AllTrue;
    assert Slice(packet, 1, 3) == packet[1..3] && Slice(packet, 3, 5) == packet[3..5] && Slice(packet, 8, |packet|) == payload;
  }

  lemma QueueTakesPiece(queue: seq<Byte>, frame: seq<Byte>, m: nat, k: nat, at: nat, payload: seq<Byte>, seen: set<nat>)
    requires m > 0 && |queue| == |frame| && at + |payload| <= |frame| && payload == frame[at..at + |payload|]
    requires forall i :: 0 <= i < |frame| ==> queue[i] == if NumberOf(i, m) in seen then frame[i] else 0
    requires forall i :: 0 <= i < |frame| ==> (NumberOf(i, m) == k <==> at <= i < at + |payload|)
    ensures var after := queue[..at] + payload + queue[at + |payload|..];
      |after| == |frame| && forall i :: 0 <= i < |frame| ==> after[i] == if NumberOf(i, m) in seen + {k} then frame[i] else 0
  {
    hide NumberOf;
  }

  lemma AllQueuedIsFull(queued: seq<bool>, n: nat, seen: set<nat>)
    requires |queued| == n && forall j :: 0 <= j < n ==> (queued[j] <==> j in seen)
    ensures AllTrue(queued) <==> Full(seen, n)
  {
    if AllTrue(queued) {
      forall j: nat | j < n ensures j in seen { assert queued[j]; }
    }
  }

  /** One packet of the frame does its part, whatever came before; it finishes the frame exactly if no other is missing. */
  lemma PacketFitsIn(a: Assembly, frame: seq<Byte>, m: nat, n: nat, seen: set<nat>, packet: seq<Byte>, k: nat)
    requires m > 0 && n == CeilDiv(|frame|, m) && Assembled(a, frame, m, n, seen)
    requires IsPacketOf(packet, frame, m, n, k)
    ensures var (b, outcome) := Reframed(a, m, packet);
      && Assembled(b, frame, m, n, seen + {k})
      && (outcome == Finished <==> Full(seen + {k}, n))
      && outcome != IndexError
  {
    hide Reframed, CeilDiv, NumberOf, Piece, Full, AllTrue;
    PieceNumbers(frame, m, n, k);
    var at, payload, queued := k * m, Piece(frame, m, k), a.queued[k := true];
    PacketIsRead(a, m, n, packet, k, at, payload);
    QueueTakesPiece(a.queue, frame, m, k, at, payload, seen);
    AllQueuedIsFull(queued, n, seen + {k});
  }

  function Seen(ks: seq<nat>): set<nat> { set k | k in ks }

  ghost predicate Full(seen: set<nat>, n: nat) { forall j: nat :: j < n ==> j in seen }

  ghost predicate AllSeen(ks: seq<nat>, n: nat) { forall j: nat :: j < n ==> j in ks }

  /** Reframing a sequence of packets, without beginning a new frame. */
  function ReframedAll(a: Assembly, payloadLen: nat, packets: seq<seq<Byte>>): Assembly {
    if packets == [] then a
    else Reframed(ReframedAll(a, payloadLen, packets[..|packets| - 1]), payloadLen, packets[|packets| - 1]).0
  }

  ghost predicate PacketsOf(packets: seq<seq<Byte>>, ks: seq<nat>, frame: seq<Byte>, m: nat, n: nat)
    requires m > 0
  {
    |packets| == |ks| && forall i :: 0 <= i < |ks| ==> IsPacketOf(packets[i], frame, m, n, ks[i])
  }

  lemma {:induction false} AssembledAfter(packets: seq<seq<Byte>>, ks: seq<nat>, frame: seq<Byte>, m: nat, n: nat)
    requires m > 0 && n == CeilDiv(|frame|, m) && PacketsOf(packets, ks, frame, m, n)
    ensures Assembled(ReframedAll(Fresh(|frame|, n), m, packets), frame, m, n, Seen(ks))
  {
    hide Reframed, IsPacketOf;
    if packets != [] {
      var l := |packets| - 1;
      AssembledAfter(packets[..l], ks[..l], frame, m, n);
      PacketFitsIn(ReframedAll(Fresh(|frame|, n), m, packets[..l]), frame, m, n, Seen(ks[..l]), packets[l], ks[l]);
      assert Seen(ks) == Seen(ks[..l]) + {ks[l]} by { assert ks == ks[..l] + [ks[l]]; }
    }
  }

  lemma PieceNumber(i: nat, size: nat, m: nat)
    requires m > 0 && i < size
    ensures NumberOf(i, m) < CeilDiv(size, m)
  {
    var k, n := NumberOf(i, m), CeilDiv(size, m);
    DivisionOf(i, m);
    DivisionOf(size + m - 1, m);
    MultipleIsFar(n - k, m);
    assert (n - k) * m == n * m - k * m;
  }

  lemma SeenAll(ks: seq<nat>, n: nat)
    ensures AllSeen(ks, n) <==> Full(Seen(ks), n)
  {
    forall j: nat ensures j in ks <==> j in Seen(ks) {
    }
  }

  lemma CompleteIsFrame(a: Assembly, frame: seq<Byte>, m: nat, n: nat, seen: set<nat>)
    requires m > 0 && n == CeilDiv(|frame|, m) && Assembled(a, frame, m, n, seen)
    requires Full(seen, n)
    ensures a.queue == frame
  {
    forall i | 0 <= i < |frame| ensures a.queue[i] == frame[i] {
      PieceNumber(i, |frame|, m);
      assert NumberOf(i, m) in seen;
    }
  }

  /**
   * Reassembly from any order, with any duplicates: the packet at place j is the first to be reported as finishing the
   * frame exactly if with it, and not before it, every packet number has come; and then the queue is the frame.
   */
  lemma AnyOrderRebuilds(packets: seq<seq<Byte>>, ks: seq<nat>, frame: seq<Byte>, m: nat, n: nat, j: nat)
    requires m > 0 && n == CeilDiv(|frame|, m) && PacketsOf(packets, ks, frame, m, n) && j < |ks|
    ensures var before := ReframedAll(Fresh(|frame|, n), m, packets[..j]);
      var (after, outcome) := Reframed(before, m, packets[j]);
      && (outcome == Finished <==> AllSeen(ks[..j + 1], n))
      && outcome != IndexError
      && (outcome == Finished ==> after.queue == frame)
  {
    hide Reframed, IsPacketOf;
    AssembledAfter(packets[..j], ks[..j], frame, m, n);
    var before := ReframedAll(Fresh(|frame|, n), m, packets[..j]);
    PacketFitsIn(before, frame, m, n, Seen(ks[..j]), packets[j], ks[j]);
    var (after, outcome) := Reframed(before, m, packets[j]);
    assert Seen(ks[..j + 1]) == Seen(ks[..j]) + {ks[j]} by { assert ks[..j + 1] == ks[..j] + [ks[j]]; }
    SeenAll(ks[..j + 1], n);
    if outcome == Finished {
      CompleteIsFrame(after, frame, m, n, Seen(ks[..j + 1]));
    }
  }

  // ---- the log ----

  function TakenAll(a: Assembly, outfile: seq<Byte>, payloadLen: nat, queueLen: nat, packets: seq<seq<Byte>>): (Assembly, seq<Byte>) {
    if packets == [] then (a, outfile)
    else
      var (b, f) := TakenAll(a, outfile, payloadLen, queueLen, packets[..|packets| - 1]);
      var (c, g, _) := Taken(b, f, payloadLen, queueLen, packets[|packets| - 1]);
      (c, g)
  }

  /** ks brings every number below n, the last of them only at its end. */
  ghost predicate JustCovers(ks: seq<nat>, n: nat) {
    AllSeen(ks, n) && ks != [] && !AllSeen(ks[..|ks| - 1], n)
  }

  lemma {:induction false} UnfinishedTakes(outfile: seq<Byte>, packets: seq<seq<Byte>>, ks: seq<nat>, frame: seq<Byte>, m: nat, n: nat)
    requires m > 0 && n == CeilDiv(|frame|, m) && PacketsOf(packets, ks, frame, m, n) && !AllSeen(ks, n)
    ensures TakenAll(Fresh(|frame|, n), outfile, m, |frame|, packets) ==
            (ReframedAll(Fresh(|frame|, n), m, packets), outfile)
  {
    hide Reframed, IsPacketOf;
    if packets != [] {
      var l := |packets| - 1;
      if AllSeen(ks[..l], n) {
        forall j: nat | j < n ensures j in ks { assert j in ks[..l]; }
      }
      UnfinishedTakes(outfile, packets[..l], ks[..l], frame, m, n);
      AnyOrderRebuilds(packets, ks, frame, m, n, l);
      assert ks[..l + 1] == ks;
    }
  }

  /** Each frame, once all its packets have come, is written to the log, and the next can begin. */
  lemma FrameIsLogged(outfile: seq<Byte>, packets: seq<seq<Byte>>, ks: seq<nat>, frame: seq<Byte>, m: nat, n: nat)
    requires m > 0 && n == CeilDiv(|frame|, m) && PacketsOf(packets, ks, frame, m, n) && JustCovers(ks, n)
    ensures TakenAll(Fresh(|frame|, n), outfile, m, |frame|, packets) == (Fresh(|frame|, n), outfile + frame)
  {
    hide Reframed, IsPacketOf;
    var l := |packets| - 1;
    UnfinishedTakes(outfile, packets[..l], ks[..l], frame, m, n);
    AnyOrderRebuilds(packets, ks, frame, m, n, l);
    assert ks[..l + 1] == ks;
    AssembledAfter(packets[..l], ks[..l], frame, m, n);
    PacketFitsIn(ReframedAll(Fresh(|frame|, n), m, packets[..l]), frame, m, n, Seen(ks[..l]), packets[l], ks[l]);
  }

  function Concatenated(frames: seq<seq<Byte>>): seq<Byte> {
    if frames == [] then [] else Concatenated(frames[..|frames| - 1]) + frames[|frames| - 1]
  }

  function AllPackets(batches: seq<seq<seq<Byte>>>): seq<seq<Byte>> {
    if batches == [] then [] else AllPackets(batches[..|batches| - 1]) + batches[|batches| - 1]
  }

  lemma {:induction false} TakenAllAppend(a: Assembly, outfile: seq<Byte>, m: nat, q: nat, p: seq<seq<Byte>>, r: seq<seq<Byte>>)
    ensures var (b, f) := TakenAll(a, outfile, m, q, p); TakenAll(a, outfile, m, q, p + r) == TakenAll(b, f, m, q, r)
    decreases |r|
  {
    hide Taken;
    if r == [] {
      assert p + r == p;
    } else {
      assert (p + r)[..|p + r| - 1] == p + r[..|r| - 1];
      TakenAllAppend(a, outfile, m, q, p, r[..|r| - 1]);
    }
  }

  /** Frames sent one after another, each one's packets shuffled and repeated at will before its last, are logged in order. */
  lemma {:induction false} LogIsFrames(batches: seq<seq<seq<Byte>>>, orders: seq<seq<nat>>, frames: seq<seq<Byte>>, m: nat, q: nat, n: nat)
    requires m > 0 && n == CeilDiv(q, m) && |batches| == |orders| == |frames|
    requires forall i :: 0 <= i < |frames| ==>
               |frames[i]| == q && PacketsOf(batches[i], orders[i], frames[i], m, n) && JustCovers(orders[i], n)
    ensures TakenAll(Fresh(q, n), [], m, q, AllPackets(batches)) == (Fresh(q, n), Concatenated(frames))
  {
    hide TakenAll, PacketsOf, JustCovers;
    if frames == [] {
      NothingTaken(Fresh(q, n), m, q);
    } else {
      var l := |frames| - 1;
      LogIsFrames(batches[..l], orders[..l], frames[..l], m, q, n);
      TakenAllAppend(Fresh(q, n), [], m, q, AllPackets(batches[..l]), batches[l]);
      FrameIsLogged(Concatenated(frames[..l]), batches[l], orders[l], frames[l], m, n);
    }
  }

  lemma NothingTaken(a: Assembly, m: nat, q: nat)
    ensures TakenAll(a, [], m, q, []) == (a, [])
  {
  }
}

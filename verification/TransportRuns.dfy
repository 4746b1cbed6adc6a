/**
 * What every run of ring-buffer polls, with arbitrary read failures and other traffic in between, puts on the downlink
 * queue (src/TransportLayer.cpp:693-877, src/Buffers.cpp:563-585 and 740-755).
 */
module TransportRuns {
  import opened Options
  import opened Bytes
  import opened Modular
  import opened Systems
  import opened Buffers
  import opened Transport

  // ---- one transaction ----

  /** The framer's state between transactions: at most a frame, and marked done only when it is one. */
  predicate FramingOk(size: nat, f: Framing) { |f.frame| <= size && (f.done ==> |f.frame| == size) }

  function DataSize(c: Setting, first: bool): nat
    requires SettingOk(c) && CanRead(c)
  {
    Expected(c) - Head(c.framer.value.link, first) - Foot(c.framer.value.link, first)
  }

  /** The data of a frame's first packet fit a frame. */
  predicate FirstFits(c: Setting)
    requires SettingOk(c) && CanRead(c)
  {
    c.framer.value.frameSize == 0 || DataSize(c, true) <= c.framer.value.frameSize
  }

  /** The packetizer was made for the framer's frames. */
  predicate Matched(c: Setting)
    requires SettingOk(c) && CanRead(c)
  {
    var z := c.cut.value;
    && z.packetsPerFrame == CeilDiv(c.framer.value.frameSize, Room(z))
    && z.system == c.system.hex && z.kind == c.kind
  }

  /** Reading a frame touches neither queue nor counter, and completes only a full frame. */
  lemma {:induction false} ReadFrameKeeps(c: Setting, pointer: nat, n: nat, s: Station)
    requires SettingOk(c) && CanRead(c)
    ensures var (t, end) := ReadFrame(c, pointer, n, s);
      && t.queue == s.queue && t.counter == s.counter && s.sent <= t.sent
      && (end == Complete ==> |t.framing.frame| == c.framer.value.frameSize)
      && (end == Short ==> ReadingPacket in t.faults)
    decreases |s.script|
  {
    hide Attempt, AfterRead, Pushed, FrameRequest;
    if |s.framing.frame| != c.framer.value.frameSize {
      var (reply, rest) := Attempt(s.script, Expected(c), c.tries);
      AttemptShrinks(s.script, Expected(c), c.tries);
      var t := s.(sent := s.sent + [FrameRequest(c, pointer, n)], script := rest, faults := AfterRead(s.faults, reply));
      if |reply| == Expected(c) {
        var f := Pushed(c.framer.value.link, c.framer.value.frameSize, s.framing, reply);
        if f.Some? {
          ReadFrameKeeps(c, pointer, n + 1, t.(framing := f.value));
        }
      }
    }
  }

  lemma AttemptShrinks(script: seq<seq<Byte>>, size: nat, tries: nat)
    ensures var (reply, rest) := Attempt(script, size, tries); reply != [] ==> |rest| < |script|
  {
  }

  /** With a first packet that fits, the framer never overflows, whatever comes and however the reading ends. */
  lemma {:induction false} NeverOverflows(c: Setting, pointer: nat, n: nat, s: Station)
    requires SettingOk(c) && CanRead(c) && FirstFits(c) && FramingOk(c.framer.value.frameSize, s.framing)
    ensures var (t, end) := ReadFrame(c, pointer, n, s);
      end != Overflow && FramingOk(c.framer.value.frameSize, t.framing)
    decreases |s.script|
  {
    hide Attempt, AfterRead, FrameRequest;
    if |s.framing.frame| != c.framer.value.frameSize {
      var (reply, rest) := Attempt(s.script, Expected(c), c.tries);
      AttemptShrinks(s.script, Expected(c), c.tries);
      var t := s.(sent := s.sent + [FrameRequest(c, pointer, n)], script := rest, faults := AfterRead(s.faults, reply));
      if |reply| == Expected(c) {
        PushStaysOk(c.framer.value.link, c.framer.value.frameSize, s.framing, reply);
        hide Pushed;
        var f := Pushed(c.framer.value.link, c.framer.value.frameSize, s.framing, reply);
        NeverOverflows(c, pointer, n + 1, t.(framing := f.value));
      }
    }
  }

  lemma PushStaysOk(link: LinkLayer, size: nat, f: Framing, packet: seq<Byte>)
    requires Strippable(link, f.frame == [], packet) && FramingOk(size, f)
    requires size == 0 || |packet| - Head(link, true) - Foot(link, true) <= size
    ensures Pushed(link, size, f, packet).Some? && FramingOk(size, Pushed(link, size, f, packet).value)
  {
  }

  lemma OversizedFirstOverflows(c: Setting, pointer: nat, s: Station, reply: seq<Byte>)
    requires SettingOk(c) && CanRead(c) && !FirstFits(c) && c.tries > 0
    requires s.framing == EMPTY && |reply| == Expected(c) && s.script == [reply, reply]
    ensures ReadFrame(c, pointer, 0, s).1 == Overflow
  {
    hide FrameRequest;
    AttemptSucceeds(0, reply, [reply], Expected(c), c.tries);
    AttemptSucceeds(0, reply, [], Expected(c), c.tries);
    assert Timeouts(0) + [reply] + [reply] == [reply, reply] && Timeouts(0) + [reply] + [] == [reply];
    var f := Pushed(c.framer.value.link, c.framer.value.frameSize, EMPTY, reply).value;
    assert |f.frame| == DataSize(c, true) > c.framer.value.frameSize && !f.done;
    assert Pushed(c.framer.value.link, c.framer.value.frameSize, f, reply).None?;
  }

  /** The framer can be made to overflow, and the transaction to throw, exactly if the first packet's data do not fit. */
  lemma OverflowsExactly(c: Setting)
    requires SettingOk(c) && CanRead(c) && c.tries > 0
    ensures (forall pointer: nat, s: Station :: FramingOk(c.framer.value.frameSize, s.framing) ==> ReadFrame(c, pointer, 0, s).1 != Overflow)
            <==> FirstFits(c)
  {
    if FirstFits(c) {
      forall pointer: nat, s: Station | FramingOk(c.framer.value.frameSize, s.framing)
        ensures ReadFrame(c, pointer, 0, s).1 != Overflow
      {
        NeverOverflows(c, pointer, 0, s);
      }
    } else {
      var reply := seq(Expected(c), _ => 0);
      var s := Station([], [reply, reply], {}, EMPTY, 0, []);
      OversizedFirstOverflows(c, 0, s, reply);
      assert FramingOk(c.framer.value.frameSize, s.framing);
    }
  }

  lemma CeilLess(a: nat, b: nat, d: nat)
    requires d > 0 && a > 0 && (b == 0 || b + d <= a)
    ensures CeilDiv(b, d) + 1 <= CeilDiv(a, d)
  {
    var x, y := CeilDiv(a, d), CeilDiv(b, d);
    DivisionOf(a + d - 1, d);
    DivisionOf(b + d - 1, d);
    assert (x - y) * d == x * d - y * d;
    MultipleIsFar(x - y, d);
    if b == 0 { QuotientIs(d - 1, 0, d - 1, d); }
  }

  lemma PushBrings(link: LinkLayer, size: nat, f: Framing, packet: seq<Byte>)
    requires Strippable(link, f.frame == [], packet) && FramingOk(size, f) && |f.frame| < size
    ensures var g := Pushed(link, size, f, packet);
      g.Some? && |g.value.frame| <= size ==>
        |g.value.frame| == size
        || |g.value.frame| == |f.frame| + |packet| - Head(link, f.frame == []) - Foot(link, f.frame == [])
  {
  }

  /** Each read that succeeds brings at least d bytes, so no more are asked for than fill the frame. */
  lemma {:induction false} ReadsAreBounded(c: Setting, pointer: nat, n: nat, s: Station, d: nat)
    requires SettingOk(c) && CanRead(c) && FirstFits(c) && FramingOk(c.framer.value.frameSize, s.framing)
    requires 0 < d <= DataSize(c, true) && d <= DataSize(c, false)
    ensures |ReadFrame(c, pointer, n, s).0.sent| <= |s.sent| + CeilDiv(c.framer.value.frameSize - |s.framing.frame|, d)
    decreases |s.script|
  {
    hide Attempt, AfterRead, FrameRequest, CeilDiv;
    var size, left := c.framer.value.frameSize, c.framer.value.frameSize - |s.framing.frame|;
    if left != 0 {
      CeilLess(left, 0, d);
      var (reply, rest) := Attempt(s.script, Expected(c), c.tries);
      AttemptShrinks(s.script, Expected(c), c.tries);
      var t := s.(sent := s.sent + [FrameRequest(c, pointer, n)], script := rest, faults := AfterRead(s.faults, reply));
      if |reply| == Expected(c) {
        PushStaysOk(c.framer.value.link, size, s.framing, reply);
        PushBrings(c.framer.value.link, size, s.framing, reply);
        hide Pushed;
        var f := Pushed(c.framer.value.link, size, s.framing, reply).value;
        CeilLess(left, size - |f.frame|, d);
        ReadsAreBounded(c, pointer, n + 1, t.(framing := f), d);
      }
    }
  }

  /**
   * A transaction either reports a new pointer, having queued one whole frame under the current counter, advanced the
   * counter, emptied the framer and cleared the reading errors; or it queues nothing and leaves counter and pointer alone.
   */
  lemma WholeFrameOrNothing(c: Setting, s: Station, prior: nat)
    requires SettingOk(c) && (CanRead(c) ==> Matched(c))
    ensures var (t, exit) := Transaction(c, s, prior);
      if exit.Returned? && exit.pointer != prior then
        && CanRead(c) && s.queue <= t.queue && WholeFrame(c.cut.value, s.counter, t.queue[|s.queue|..])
        && t.counter == U16(s.counter + 1) && t.framing == EMPTY && t.faults !! CLEARED
      else t.queue == s.queue && t.counter == s.counter
  {
    hide ReadPointerField, PointerFrom, ReadFrame, ElementsFrom, WholeFrame;
    if c.system.spacewire.Some? && |c.system.rings| >= TypeCode(c.kind) && c.kind in c.system.rings {
      var (t, data) := ReadPointerField(c, s);
      PointerReadKeeps(c, s);
      if data.Some? && CanRead(c) {
        var pointer := PointerFrom(c, data.value);
        ReadFrameKeeps(c, pointer, 0, t);
        var (u, end) := ReadFrame(c, pointer, 0, t);
        if pointer != prior && end == Complete {
          var z := c.cut.value;
          FrameIsCutWhole(z, u.framing.frame, s.counter);
          var es := ElementsFrom(z, u.framing.frame, z.packetsPerFrame, s.counter);
          assert Queued(c, u).queue == s.queue + es && (s.queue + es)[|s.queue|..] == es;
        }
      }
    }
  }

  lemma PointerReadKeeps(c: Setting, s: Station)
    requires c.kind in c.system.rings
    ensures var t := ReadPointerField(c, s).0;
      t.queue == s.queue && t.counter == s.counter && t.framing == s.framing && |t.sent| == |s.sent| + 1
  {
    hide Attempt, AfterRead, PointerRequest, RmapMemory.ReplyData;
  }

  /** A transaction of a ring the system has never throws, and keeps the framer's state in order. */
  lemma TransactionIsSafe(c: Setting, s: Station, prior: nat)
    requires SettingOk(c) && CanRead(c) && FirstFits(c) && FramingOk(c.framer.value.frameSize, s.framing)
    ensures var (t, exit) := Transaction(c, s, prior); exit.Returned? && FramingOk(c.framer.value.frameSize, t.framing)
  {
    hide ReadPointerField, PointerFrom, ReadFrame, Queued;
    if |c.system.rings| >= TypeCode(c.kind) {
      var (t, data) := ReadPointerField(c, s);
      PointerReadKeeps(c, s);
      if data.Some? {
        NeverOverflows(c, PointerFrom(c, data.value), 0, t);
        QueuedIsEmpty(c, ReadFrame(c, PointerFrom(c, data.value), 0, t).0);
      }
    }
  }

  lemma QueuedIsEmpty(c: Setting, s: Station)
    requires c.cut.Some? && CutOk(c.cut.value)
    ensures Queued(c, s).framing == EMPTY
  {
  }

  // ---- every run ----

  /** A channel: one system's ring buffer of one type, as the formatter keeps it between polls. */
  datatype Track = Track(framing: Framing, counter: nat, pointer: nat)

  datatype World = World(sent: seq<seq<Byte>>, tracks: seq<Track>, history: seq<Element>)

  /** A poll, with whatever the socket yields and whatever error bits are set; or something else is queued. */
  datatype Event = Poll(channel: nat, script: seq<seq<Byte>>, faults: set<Fault>) | Other(element: Element)

  /** Channels as configured, no two for the same system and type. */
  ghost predicate Configured(cs: seq<Setting>) {
    && (forall i :: 0 <= i < |cs| ==> SettingOk(cs[i]) && CanRead(cs[i]) && Matched(cs[i]))
    && (forall i, j :: 0 <= i < j < |cs| ==> !(cs[i].system.hex == cs[j].system.hex && cs[i].kind == cs[j].kind))
  }

  predicate IsOf(c: Setting, e: Element) { e.system == c.system.hex && e.kind == c.kind }

  ghost predicate EventOk(cs: seq<Setting>, e: Event) {
    match e
    case Poll(i, _, _) => i < |cs|
    case Other(element) => forall i :: 0 <= i < |cs| ==> !IsOf(cs[i], element)
  }

  function StationFor(w: World, i: nat, script: seq<seq<Byte>>, faults: set<Fault>): Station
    requires i < |w.tracks|
  {
    Station(w.sent, script, faults, w.tracks[i].framing, w.tracks[i].counter, w.history)
  }

  function Happened(cs: seq<Setting>, w: World, e: Event): World
    requires e.Poll? ==> e.channel < |cs| == |w.tracks| && SettingOk(cs[e.channel])
  {
    match e
    case Other(element) => w.(history := w.history + [element])
    case Poll(i, script, faults) =>
      var (t, exit) := Transaction(cs[i], StationFor(w, i, script, faults), w.tracks[i].pointer);
      World(t.sent, w.tracks[i := Track(t.framing, t.counter, if exit.Returned? then exit.pointer else w.tracks[i].pointer)], t.queue)
  }

  ghost predicate RunOk(cs: seq<Setting>, events: seq<Event>) { forall i :: 0 <= i < |events| ==> EventOk(cs, events[i]) }

  function Begin(n: nat, pointer: nat): World { World([], seq(n, _ => Track(EMPTY, 0, pointer)), []) }

  function After(cs: seq<Setting>, pointer: nat, events: seq<Event>): (w: World)
    requires Configured(cs) && RunOk(cs, events)
    ensures |w.tracks| == |cs|
  {
    if events == [] then Begin(|cs|, pointer)
    else
      assert EventOk(cs, events[|events| - 1]);
      Happened(cs, After(cs, pointer, events[..|events| - 1]), events[|events| - 1])
  }

  /** How many polls of a channel have returned a new pointer. */
  function Completed(cs: seq<Setting>, pointer: nat, events: seq<Event>, i: nat): nat
    requires Configured(cs) && RunOk(cs, events) && i < |cs|
  {
    if events == [] then 0
    else
      var n := |events| - 1;
      assert EventOk(cs, events[n]);
      var w := After(cs, pointer, events[..n]);
      Completed(cs, pointer, events[..n], i)
      + if Completes(cs, w, events[n], i) then 1 else 0
  }

  /** The elements queued for one channel. */
  function Of(c: Setting, es: seq<Element>): seq<Element> {
    if es == [] then [] else Of(c, es[..|es| - 1]) + if IsOf(c, es[|es| - 1]) then [es[|es| - 1]] else []
  }

  /** j whole frames one after another, under the counters 0 to j - 1 modulo 2^16. */
  ghost predicate Frames(z: Cut, es: seq<Element>, j: nat)
    decreases j
  {
    if j == 0 then es == []
    else
      && |es| >= z.packetsPerFrame
      && Frames(z, es[..|es| - z.packetsPerFrame], j - 1)
      && WholeFrame(z, U16(j - 1), es[|es| - z.packetsPerFrame..])
  }

  lemma {:induction false} OfAppend(c: Setting, a: seq<Element>, b: seq<Element>)
    ensures Of(c, a + b) == Of(c, a) + Of(c, b)
  {
    if b == [] {
      assert a + b == a;
    } else {
      assert (a + b)[..|a + b| - 1] == a + b[..|b| - 1];
      OfAppend(c, a, b[..|b| - 1]);
    }
  }

  lemma {:induction false} OfUniform(c: Setting, es: seq<Element>, yes: bool)
    requires forall k :: 0 <= k < |es| ==> (IsOf(c, es[k]) <==> yes)
    ensures Of(c, es) == if yes then es else []
  {
    if es != [] {
      OfUniform(c, es[..|es| - 1], yes);
      assert es[..|es| - 1] + [es[|es| - 1]] == es;
    }
  }

  /** Channel k after j whole frames. */
  ghost predicate TrackOk(cs: seq<Setting>, w: World, k: nat, j: nat)
    requires Configured(cs) && k < |cs| == |w.tracks|
  {
    && Frames(cs[k].cut.value, Of(cs[k], w.history), j) && w.tracks[k].counter == U16(j)
    && (FirstFits(cs[k]) ==> FramingOk(cs[k].framer.value.frameSize, w.tracks[k].framing))
  }

  /** Whether an event is a poll of channel k that returned a new pointer. */
  predicate Completes(cs: seq<Setting>, w: World, e: Event, k: nat)
    requires (e.Poll? ==> e.channel < |cs| == |w.tracks| && SettingOk(cs[e.channel])) && k < |w.tracks|
  {
    e.Poll? && e.channel == k && Happened(cs, w, e).tracks[k].pointer != w.tracks[k].pointer
  }

  lemma OneMoreFrame(z: Cut, es: seq<Element>, frame: seq<Element>, j: nat)
    requires Frames(z, es, j) && WholeFrame(z, U16(j), frame)
    ensures Frames(z, es + frame, j + 1)
  {
    hide WholeFrame;
    WholeFrameSize(z, U16(j), frame);
    var all := es + frame;
    assert all[..|all| - z.packetsPerFrame] == es && all[|all| - z.packetsPerFrame..] == frame;
  }

  lemma WholeFrameSize(z: Cut, counter: nat, es: seq<Element>)
    requires WholeFrame(z, counter, es)
    ensures |es| == z.packetsPerFrame
  {
  }

  /** What a transaction of channel i queues is one frame of that channel's, or nothing; all of it is channel i's. */
  lemma QueuedIsOwn(cs: seq<Setting>, s: Station, prior: nat, i: nat, k: nat)
    requires Configured(cs) && i < |cs| && k < |cs|
    ensures var (t, exit) := Transaction(cs[i], s, prior);
      && s.queue <= t.queue
      && (k != i ==> Of(cs[k], t.queue) == Of(cs[k], s.queue))
      && (k == i ==> Of(cs[k], t.queue) == Of(cs[k], s.queue) + t.queue[|s.queue|..])
  {
    hide Transaction, Of;
    WholeFrameOrNothing(cs[i], s, prior);
    var t := Transaction(cs[i], s, prior).0;
    assert t.queue == s.queue + t.queue[|s.queue|..];
    OfAppend(cs[k], s.queue, t.queue[|s.queue|..]);
    OfUniform(cs[k], t.queue[|s.queue|..], k == i);
  }

  lemma PollKeepsTrack(cs: seq<Setting>, w: World, e: Event, k: nat, j: nat)
    requires Configured(cs) && k < |cs| == |w.tracks| && EventOk(cs, e) && e.Poll? && TrackOk(cs, w, k, j)
    ensures TrackOk(cs, Happened(cs, w, e), k, j + if Completes(cs, w, e, k) then 1 else 0)
  {
    hide Transaction, Of, Frames, WholeFrame, FramingOk, Configured;
    assert SettingOk(cs[k]) && CanRead(cs[k]) && Matched(cs[k]) by { ChannelIs(cs, k); }
    var s, prior := StationFor(w, e.channel, e.script, e.faults), w.tracks[e.channel].pointer;
    QueuedIsOwn(cs, s, prior, e.channel, k);
    if k == e.channel {
      WholeFrameOrNothing(cs[k], s, prior);
      if FirstFits(cs[k]) { TransactionIsSafe(cs[k], s, prior); }
      var t := Transaction(cs[k], s, prior).0;
      if Completes(cs, w, e, k) {
        OneMoreFrame(cs[k].cut.value, Of(cs[k], w.history), t.queue[|w.history|..], j);
      }
    }
  }

  lemma ChannelIs(cs: seq<Setting>, k: nat)
    requires Configured(cs) && k < |cs|
    ensures SettingOk(cs[k]) && CanRead(cs[k]) && Matched(cs[k])
  {
  }

  lemma EventKeepsTrack(cs: seq<Setting>, w: World, e: Event, k: nat, j: nat)
    requires Configured(cs) && k < |cs| == |w.tracks| && EventOk(cs, e) && TrackOk(cs, w, k, j)
    ensures TrackOk(cs, Happened(cs, w, e), k, j + if Completes(cs, w, e, k) then 1 else 0)
  {
    hide Of, Frames, Transaction;
    if e.Poll? {
      PollKeepsTrack(cs, w, e, k, j);
    } else {
      OfAppend(cs[k], w.history, [e.element]);
      OfUniform(cs[k], [e.element], false);
      assert Of(cs[k], w.history) + [] == Of(cs[k], w.history);
    }
  }

  /**
   * In every run, whatever fails, each channel's queued elements are whole frames: as many as polls returned a new pointer,
   * the j-th under counter j modulo 2^16.
   */
  lemma {:induction false} EveryRunQueuesWholeFrames(cs: seq<Setting>, pointer: nat, events: seq<Event>, k: nat)
    requires Configured(cs) && RunOk(cs, events) && k < |cs|
    ensures TrackOk(cs, After(cs, pointer, events), k, Completed(cs, pointer, events, k))
  {
    hide TrackOk, Configured, Happened, Completes;
    if events == [] {
      BeginsOk(cs, pointer, k);
    } else {
      var n := |events| - 1;
      EveryRunQueuesWholeFrames(cs, pointer, events[..n], k);
      EventKeepsTrack(cs, After(cs, pointer, events[..n]), events[n], k, Completed(cs, pointer, events[..n], k));
    }
  }

  lemma BeginsOk(cs: seq<Setting>, pointer: nat, k: nat)
    requires Configured(cs) && k < |cs|
    ensures TrackOk(cs, Begin(|cs|, pointer), k, 0)
  {
  }

  /** The element at place f n + i of such frames: piece i + 1 of n, under counter f modulo 2^16. */
  lemma {:induction false} ElementInFrames(z: Cut, es: seq<Element>, j: nat, f: nat, i: nat)
    requires Frames(z, es, j) && f < j && i < z.packetsPerFrame
    ensures |es| == j * z.packetsPerFrame && f * z.packetsPerFrame + i < |es|
    ensures var e := es[f * z.packetsPerFrame + i];
      e.index == U16(i + 1) && e.packetsPerFrame == U16(z.packetsPerFrame) && e.counter == U16(f)
      && e.system == z.system && e.kind == z.kind
    decreases j
  {
    var n := z.packetsPerFrame;
    FramesSize(z, es, j);
    assert j * n == (j - 1) * n + n;
    if f == j - 1 {
      assert es[f * n + i] == es[|es| - n..][i];
    } else {
      ElementInFrames(z, es[..|es| - n], j - 1, f, i);
    }
  }

  lemma {:induction false} FramesSize(z: Cut, es: seq<Element>, j: nat)
    requires Frames(z, es, j)
    ensures |es| == j * z.packetsPerFrame
    decreases j
  {
    if j > 0 {
      FramesSize(z, es[..|es| - z.packetsPerFrame], j - 1);
      assert j * z.packetsPerFrame == (j - 1) * z.packetsPerFrame + z.packetsPerFrame;
    }
  }

  lemma {:induction false} FramesFit(z: Cut, es: seq<Element>, j: nat, i: nat)
    requires Frames(z, es, j) && i < |es|
    ensures es[i].system == z.system && HEADER_SIZE + |es[i].payload| <= es[i].maxPacketSize
    decreases j
  {
    var before := |es| - z.packetsPerFrame;
    if i < before {
      FramesFit(z, es[..before], j - 1, i);
    } else {
      assert es[i] == es[before..][i - before];
      PacketReadBack(es[i]);
    }
  }

  /**
   * On the wire: draining such frames sends one packet for each element, and the i-th of frame f says in its header that it
   * is number i + 1 of n, under counter f modulo 2^16, all numbers with the high byte first.
   */
  lemma DatagramInFrames(z: Cut, es: seq<Element>, j: nat, f: nat, i: nat)
    requires Frames(z, es, j) && f < j && i < z.packetsPerFrame && z.system != UPLINK
    ensures var d := Drained(es);
      && |es| == |d.packets| == j * z.packetsPerFrame && f * z.packetsPerFrame + i < |d.packets|
      && var p := d.packets[f * z.packetsPerFrame + i];
        && |p| >= 8 && p[0] == z.system && Field16(p[1], p[2]) == z.packetsPerFrame % 0x1_0000
        && Field16(p[3], p[4]) == (i + 1) % 0x1_0000 && p[5] == TypeCode(z.kind)
        && Field16(p[6], p[7]) == f % 0x1_0000 && p[8..] == es[f * z.packetsPerFrame + i].payload
  {
    hide Frames, PacketOf, Field16;
    FramesSize(z, es, j);
    ElementInFrames(z, es, j, f, i);
    DrainConserves(es);
    var d, k := Drained(es), f * z.packetsPerFrame + i;
    if d.stopped { FramesFit(z, es, j, |d.packets|); }
    FramesFit(z, es, j, k);
    PacketReadBack(es[k]);
  }

  /** The datagram for piece i of frame f, of frames of n pieces each, is there and says so. */
  predicate Numbered(packets: seq<seq<Byte>>, n: nat, f: nat, i: nat) {
    && f * n + i < |packets| && |packets[f * n + i]| >= 8
    && var p := packets[f * n + i];
      Field16(p[1], p[2]) == n % 0x1_0000 && Field16(p[3], p[4]) == (i + 1) % 0x1_0000 && Field16(p[6], p[7]) == f % 0x1_0000
  }

  /** So in every run: what a channel sends to the ground is numbered by frame and by piece. */
  lemma CountersOnTheWire(cs: seq<Setting>, pointer: nat, events: seq<Event>, k: nat, f: nat, i: nat)
    requires Configured(cs) && RunOk(cs, events) && k < |cs| && cs[k].cut.Some? && cs[k].cut.value.system != UPLINK
    requires f < Completed(cs, pointer, events, k) && i < cs[k].cut.value.packetsPerFrame
    ensures var n, packets := cs[k].cut.value.packetsPerFrame, Drained(Of(cs[k], After(cs, pointer, events).history)).packets;
      |packets| == Completed(cs, pointer, events, k) * n && Numbered(packets, n, f, i)
  {
    hide Frames, Of, Field16, Drained;
    EveryRunQueuesWholeFrames(cs, pointer, events, k);
    DatagramInFrames(cs[k].cut.value, Of(cs[k], After(cs, pointer, events).history), Completed(cs, pointer, events, k), f, i);
  }

  /** No poll of any run throws, if the channel's first payload fits its frame. */
  lemma NoPollThrows(cs: seq<Setting>, pointer: nat, events: seq<Event>, i: nat, script: seq<seq<Byte>>, faults: set<Fault>)
    requires Configured(cs) && RunOk(cs, events) && i < |cs| && FirstFits(cs[i])
    ensures var w := After(cs, pointer, events);
      Transaction(cs[i], StationFor(w, i, script, faults), w.tracks[i].pointer).1.Returned?
  {
    hide Transaction;
    EveryRunQueuesWholeFrames(cs, pointer, events, i);
    var w := After(cs, pointer, events);
    TransactionIsSafe(cs[i], StationFor(w, i, script, faults), w.tracks[i].pointer);
  }

  // ---- what the fault bits tell ----

  lemma {:induction false} ReadFrameFaults(c: Setting, pointer: nat, n: nat, s: Station)
    requires SettingOk(c) && CanRead(c)
    ensures ReadFrame(c, pointer, n, s).0.faults <= s.faults + {ReadingPacket}
    decreases |s.script|
  {
    hide Attempt, Pushed, FrameRequest;
    AttemptShrinks(s.script, Expected(c), c.tries);
    if |s.framing.frame| != c.framer.value.frameSize {
      var (reply, rest) := Attempt(s.script, Expected(c), c.tries);
      var t := s.(sent := s.sent + [FrameRequest(c, pointer, n)], script := rest, faults := AfterRead(s.faults, reply));
      if |reply| == Expected(c) {
        var pushed := Pushed(c.framer.value.link, c.framer.value.frameSize, s.framing, reply);
        if pushed.Some? { ReadFrameFaults(c, pointer, n + 1, t.(framing := pushed.value)); }
      }
    }
  }

  /**
   * A poll that begins without faults says what went wrong: an unusable pointer reply, no packetizer, no framer, or a reply
   * of the wrong size while reading the frame. With no fault after it, it has queued a frame, or the pointer's bytes announce
   * the address known before.
   */
  lemma FaultsTell(c: Setting, s: Station, prior: nat)
    requires SettingOk(c) && c.system.spacewire.Some? && c.kind in c.system.rings && |c.system.rings| >= TypeCode(c.kind)
    requires s.faults == {}
    ensures var (t, exit) := Transaction(c, s, prior); var field := ReadPointerField(c, s).1;
      && (ReadingInvalid in t.faults <==> field.None?)
      && (FramePacketizing in t.faults <==> field.Some? && c.cut.None?)
      && (PacketFraming in t.faults <==> field.Some? && c.cut.Some? && c.framer.None?)
      && (BufferLookup in t.faults <==> field.Some? && (c.cut.None? || c.framer.None?))
      && (field.Some? && CanRead(c) && exit == Returned(prior) ==>
            (if t.faults == {} then Announces(c, field.value, prior)
             else t.faults == {ReadingPacket} && !Announces(c, field.value, prior)))
  {
    hide ReadFrame, Queued, PointerFrom, Announces, PointerRequest, Attempt;
    var (t, field) := ReadPointerField(c, s);
    if field.Some? {
      PointerIsAnnounced(c, field.value);
      PointerFaults(c, s);
      if CanRead(c) {
        var pointer := PointerFrom(c, field.value);
        ReadFrameFaults(c, pointer, 0, t);
        ReadFrameKeeps(c, pointer, 0, t);
        QueuedFaults(c, ReadFrame(c, pointer, 0, t).0);
      }
    }
  }

  lemma PointerFaults(c: Setting, s: Station)
    requires c.kind in c.system.rings && s.faults == {} && ReadPointerField(c, s).1.Some?
    ensures ReadPointerField(c, s).0.faults == {}
  {
    hide Attempt, PointerRequest;
  }

  lemma QueuedFaults(c: Setting, s: Station)
    requires c.cut.Some? && CutOk(c.cut.value)
    ensures Queued(c, s).faults == s.faults - CLEARED
  {
  }
}

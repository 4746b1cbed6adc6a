/**
 * The emulator as its clients know it: over one connection, however TCP cuts what they send, it is the detectors' memories,
 * read and written in the order of the commands (src/Foxsimile.cpp:149-280 and 288-470).
 */
module Conversation {
  import opened Options
  import opened Bytes
  import opened RmapCrc
  import opened Systems
  import opened CommandDeck
  import opened Foxsimile
  import opened RmapMemory
  import opened MessageAccumulator

  /** A command to one of the detectors. */
  datatype Turn = Ask(sys: System, address: nat, length: nat) | Store(sys: System, cmd: Command)

  function MessageOf(x: Turn): seq<Byte> {
    if x.sys.spacewire.None? then []
    else
      match x
      case Ask(sys, address, length) => ReadCommand(sys.spacewire.value, Splat(4, address), length)
      case Store(sys, cmd) => Packet(sys.spacewire.value, cmd)
  }

  /** A command for a detector the emulator knows: reads inside its memory, writes anywhere. */
  ghost predicate TurnOk(e: Setup, mmaps: Memories, x: Turn) {
    && Reachable(e.deck, e.managers, mmaps, x.sys) && |MessageOf(x)| < 0x1_0000_0000
    && match x
       case Ask(sys, address, length) =>
         ReadOk(e.managers, sys.spacewire.value, address, length) && address + length <= |mmaps[sys.hex]|
       case Store(sys, cmd) => WriteOk(e.managers, sys.spacewire.value, cmd)
  }

  ghost predicate TurnsOk(e: Setup, mmaps: Memories, xs: seq<Turn>) { forall i :: 0 <= i < |xs| ==> TurnOk(e, mmaps, xs[i]) }

  function Messages(xs: seq<Turn>): (r: seq<seq<Byte>>)
    ensures |r| == |xs|
  {
    seq(|xs|, i requires 0 <= i < |xs| => MessageOf(xs[i]))
  }

  /** What the memories should hold after the commands. */
  function After(mmaps: Memories, xs: seq<Turn>): (r: Memories)
    ensures r.Keys == mmaps.Keys && forall c :: c in mmaps ==> |r[c]| == |mmaps[c]|
  {
    if xs == [] then mmaps
    else
      var last, before := xs[|xs| - 1], After(mmaps, xs[..|xs| - 1]);
      if last.Store? && last.sys.hex in before then
        before[last.sys.hex := Written(before[last.sys.hex], Value(last.cmd.address), last.cmd.writeData)]
      else before
  }

  /** A reply that names the read it answers, carries exactly these data, and has good codes and status zero. */
  ghost predicate Brings(spw: SpaceWire, address: nat, length: nat, reply: seq<Byte>, data: seq<Byte>) {
    && AnswersCommand(reply, ReadHeader(spw, Splat(4, address), length), spw.sourceLogical) && |reply| == DATA_OFFSET + 1 + length
    && ReplyData(reply) == data && reply[DATA_OFFSET..|reply| - 1] == data
    && (spw.crcVersion == 'f' ==> Code(reply[12..24]) == 0 && Code(reply[24..]) == 0)
  }

  /** Four ones acknowledge a write that asks for no RMAP reply and falls inside the memory. */
  predicate Acknowledged(cmd: Command, size: nat) {
    !WantsReply(cmd.instruction) && (cmd.writeData == [] || Value(cmd.address) + |cmd.writeData| <= size)
  }

  /** What comes back for a command when its system's memory is as given; nothing for most writes. */
  ghost predicate Replies(x: Turn, memory: seq<Byte>, reply: seq<Byte>) {
    && x.sys.spacewire.Some?
    && match x
       case Ask(sys, address, length) =>
         && address + length <= |memory|
         && Brings(sys.spacewire.value, address, length, reply, memory[address..address + length])
       case Store(_, cmd) => reply == if Acknowledged(cmd, |memory|) then [1, 1, 1, 1] else []
  }

  /** What has been sent answers the commands one by one, each from the memory at its turn. */
  ghost predicate Answered(mmaps: Memories, xs: seq<Turn>, sent: seq<seq<Byte>>)
    decreases |xs|
  {
    if xs == [] then sent == []
    else
      var n, last, before := |xs| - 1, xs[|xs| - 1], After(mmaps, xs[..|xs| - 1]);
      && last.sys.hex in before
      && if Replies(last, before[last.sys.hex], []) then Answered(mmaps, xs[..n], sent)
         else sent != [] && Replies(last, before[last.sys.hex], sent[|sent| - 1]) && Answered(mmaps, xs[..n], sent[..|sent| - 1])
  }

  /** The emulator's answer to one command, and its memories after it. */
  lemma OneTurn(e: Setup, mmaps: Memories, now: Memories, x: Turn, garbage: Byte)
    requires e.strategy == MemoryMap && TurnOk(e, mmaps, x)
    requires now.Keys == mmaps.Keys && forall c :: c in mmaps ==> |now[c]| == |mmaps[c]|
    ensures x.sys.hex in now
    ensures var (answer, after) := Response(e, now, MessageOf(x), garbage);
      && answer.Answer? && Replies(x, now[x.sys.hex], answer.bytes)
      && after ==
         match x
         case Ask(_, _, _) => now
         case Store(sys, cmd) => now[sys.hex := Written(now[sys.hex], Value(cmd.address), cmd.writeData)]
  {
    hide Reply, ReadCommand, Packet, WriteOk, ReadOk, ReplyData, AnswersCommand, Registered, SystemFor, Splat, WantsReply, Value;
    match x
    case Ask(sys, address, length) => ReadEndToEnd(e.deck, e.managers, now, sys, address, length, garbage);
    case Store(sys, cmd) => WriteEndToEnd(e.deck, e.managers, now, sys, cmd, garbage);
  }

  lemma HandledAnswered(e: Setup, s: Session, m: seq<Byte>, left: seq<Byte>, garbage: nat -> Byte)
    requires Response(e, s.mmaps, m, garbage(|s.handed|)).0.Answer?
    ensures var (answer, after) := Response(e, s.mmaps, m, garbage(|s.handed|));
      var sent := if answer.bytes == [] then s.sent else s.sent + [answer.bytes];
      Handled(e, s, m, left, garbage) == Session([], s.handed + [m], sent, after, s.status)
  {
    hide Response;
  }

  /** One answer more. */
  lemma AnsweredMore(mmaps: Memories, xs: seq<Turn>, sent: seq<seq<Byte>>, reply: seq<Byte>)
    requires xs != [] && xs[|xs| - 1].sys.hex in mmaps
    requires var x, before := xs[|xs| - 1], After(mmaps, xs[..|xs| - 1]);
      Answered(mmaps, xs[..|xs| - 1], sent) && Replies(x, before[x.sys.hex], reply)
    ensures Answered(mmaps, xs, if reply == [] then sent else sent + [reply])
  {
    var x, before := xs[|xs| - 1], After(mmaps, xs[..|xs| - 1]);
    OneReply(x, before[x.sys.hex], reply);
    hide After, Replies;
    assert (sent + [reply])[..|sent|] == sent;
  }

  lemma OneReply(x: Turn, memory: seq<Byte>, reply: seq<Byte>)
    requires Replies(x, memory, reply)
    ensures Replies(x, memory, []) <==> reply == []
  {
    hide Acknowledged, ReplyData, Code;
  }

  lemma AfterMore(mmaps: Memories, xs: seq<Turn>)
    requires xs != [] && xs[|xs| - 1].sys.hex in mmaps
    ensures var before := After(mmaps, xs[..|xs| - 1]);
      After(mmaps, xs) ==
      match xs[|xs| - 1]
      case Ask(_, _, _) => before
      case Store(sys, cmd) => before[sys.hex := Written(before[sys.hex], Value(cmd.address), cmd.writeData)]
  {
    hide Written, Value;
  }

  /** One command after others, answered by reply. */
  lemma OneMoreReply(s: Session, xs: seq<Turn>, before: Session, reply: seq<Byte>)
    requires xs != [] && xs[|xs| - 1].sys.hex in s.mmaps
    requires before.mmaps == After(s.mmaps, xs[..|xs| - 1]) && s.sent <= before.sent
    requires Answered(s.mmaps, xs[..|xs| - 1], before.sent[|s.sent|..])
    requires Replies(xs[|xs| - 1], before.mmaps[xs[|xs| - 1].sys.hex], reply)
    ensures var sent := if reply == [] then before.sent else before.sent + [reply];
      s.sent <= sent && Answered(s.mmaps, xs, sent[|s.sent|..])
  {
    hide Answered, Replies, After;
    AnsweredMore(s.mmaps, xs, before.sent[|s.sent|..], reply);
    assert (before.sent + [reply])[|s.sent|..] == before.sent[|s.sent|..] + [reply];
  }

  lemma OneMoreTurn(e: Setup, s: Session, xs: seq<Turn>, before: Session, garbage: nat -> Byte)
    requires xs != [] && e.strategy == MemoryMap && TurnOk(e, s.mmaps, xs[|xs| - 1])
    requires AtRest(before) && before.mmaps == After(s.mmaps, xs[..|xs| - 1]) && s.sent <= before.sent
    requires Answered(s.mmaps, xs[..|xs| - 1], before.sent[|s.sent|..])
    ensures var m := MessageOf(xs[|xs| - 1]); var t := Handled(e, before, m, LeftOf(m), garbage);
      && AtRest(t) && t.mmaps == After(s.mmaps, xs) && t.handed == before.handed + [m]
      && s.sent <= t.sent && Answered(s.mmaps, xs, t.sent[|s.sent|..])
  {
    hide MessageOf, Response, Replies, Written, Value, LeftOf, Handled, Answered, TurnOk, After;
    var x := xs[|xs| - 1];
    KnownSystem(e, s.mmaps, x);
    AfterMore(s.mmaps, xs);
    OneTurn(e, s.mmaps, before.mmaps, x, garbage(|before.handed|));
    HandledAnswered(e, before, MessageOf(x), LeftOf(MessageOf(x)), garbage);
    OneMoreReply(s, xs, before, Response(e, before.mmaps, MessageOf(x), garbage(|before.handed|)).0.bytes);
  }

  /** Commands that come whole. */
  lemma {:induction false} WholeTurns(e: Setup, s: Session, xs: seq<Turn>, garbage: nat -> Byte)
    requires AtRest(s) && e.strategy == MemoryMap && TurnsOk(e, s.mmaps, xs)
    ensures var t := HandledAll(e, s, Messages(xs), garbage);
      && AtRest(t) && t.mmaps == After(s.mmaps, xs) && t.handed == s.handed + Messages(xs)
      && s.sent <= t.sent && Answered(s.mmaps, xs, t.sent[|s.sent|..])
  {
    hide TurnOk, MessageOf, Handled, LeftOf, Replies;
    if xs == [] {
    } else {
      hide After, Answered;
      var n := |xs| - 1;
      WholeTurns(e, s, xs[..n], garbage);
      assert Messages(xs)[..n] == Messages(xs[..n]) && Messages(xs) == Messages(xs[..n]) + [MessageOf(xs[n])];
      OneMoreTurn(e, s, xs, HandledAll(e, s, Messages(xs[..n]), garbage), garbage);
    }
  }

  lemma KnownSystem(e: Setup, mmaps: Memories, x: Turn)
    requires TurnOk(e, mmaps, x)
    ensures x.sys.hex in mmaps
  {
  }

  /**
   * One connection, any commands to any of the detectors, each cut anyhow on its way: the emulator answers them in order,
   * once each, every read with what the memory holds after the writes before it and no others, and ends with memories
   * changed by exactly the writes.
   */
  lemma ConversationIsMemory(e: Setup, s: Session, xs: seq<Turn>, cuts: seq<seq<seq<Byte>>>, garbage: nat -> Byte)
    requires AtRest(s) && e.strategy == MemoryMap && TurnsOk(e, s.mmaps, xs) && |cuts| == |xs|
    requires forall i :: 0 <= i < |xs| ==> Split(MessageOf(xs[i]), cuts[i])
    ensures var t := ReceivedAll(e, s, Flattened(cuts), garbage);
      && AtRest(t) && t.mmaps == After(s.mmaps, xs) && t.handed == s.handed + Messages(xs)
      && s.sent <= t.sent && Answered(s.mmaps, xs, t.sent[|s.sent|..])
  {
    hide ReceivedAll, HandledAll, After, Answered, Split, Flattened, Mistaken, IsMessage;
    forall i | 0 <= i < |xs| ensures IsMessage(Messages(xs)[i]) && !Mistaken(Messages(xs)[i], cuts[i]) {
      assert TurnOk(e, s.mmaps, xs[i]);
      TurnIsSafe(e, s.mmaps, xs[i], cuts[i]);
    }
    hide TurnOk, MessageOf;
    ChunkInvariance(e, s, Messages(xs), cuts, garbage);
    WholeTurns(e, s, xs, garbage);
  }

  lemma TurnIsSafe(e: Setup, mmaps: Memories, x: Turn, chunks: seq<seq<Byte>>)
    requires TurnOk(e, mmaps, x)
    ensures IsMessage(MessageOf(x)) && !Mistaken(MessageOf(x), chunks)
  {
    hide IsMessage, Mistaken, ReadOk, Registered, SystemFor, WriteOk, Routed, EtherHeader, DataField;
    var spw := x.sys.spacewire.value;
    match x
    case Ask(_, address, length) =>
      FramedPacketsAreSafe(Routed(spw, ReadHeader(spw, Splat(4, address), length)), chunks);
    case Store(_, cmd) => FramedPacketsAreSafe(Routed(spw, CommandHeader(spw, cmd)) + DataField(spw, cmd), chunks);
  }
}
